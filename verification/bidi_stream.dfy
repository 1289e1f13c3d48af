/**
 The bidirectional client stream (ClientAsyncReaderWriterImpl): one message
 batch at a time is handed to gRPC, the rest wait in a queue, a half-close
 follows the last message, and a status callback reports the end.

 Every public method and completion handler runs under the object's mutex, so
 each is one atomic step. The environment decides whether a StartBatch call
 succeeds and how a started batch completes.
 */
module BidiStream {
  import opened Common
  import opened Q = CompletionQueues

  datatype Batch = SendInitMd | RecvInitMd | SendMsg(msg: Message) | RecvMsg | SendClose

  /** How a direction ended normally, newest last. */
  datatype Ending = ReadingEnded | ClosedByCloseWriting | ClosedByOnSent

  /** What has happened so far; the program itself keeps none of this. */
  datatype History = History(
    hadCb: bool,              // the constructor was given a status callback
    accepted: seq<Message>,   // messages for which Write returned true
    batches: seq<Batch>,      // batches that were started
    sentOk: seq<Message>,     // messages whose batch completed successfully
    sending: nat,             // message batches in flight
    reading: nat,             // read batches in flight or being completed
    readLog: seq<Completion>,   // completed reads
    delivered: seq<Message>,  // messages handed to the message callback
    endings: seq<Ending>,
    fired: seq<Status>)       // statuses passed to the status callback

  datatype State = State(
    status: Status,
    msgCb: bool,
    statusCb: bool,
    inited: bool,
    readingStarted: bool,
    writingClosing: bool,
    readingEnded: bool,
    writingEnded: bool,
    hasSentClose: bool,
    queue: seq<Message>,
    inCallback: bool,  // OnRead, still holding the mutex, is inside the message callback
    h: History)

  /** Outcome of each StartBatch call one step may make. */
  datatype Starts = Starts(sendMd: bool, recvMd: bool, op: bool)

  const ALL_START := Starts(true, true, true)

  /** How a read batch completes. */
  datatype Completion =
    | ReadFailed
    | EndOfStream
    | Unparsable(error: Status)
    | Got(msg: Message)

  datatype Event =
    | Write(msg: Message, starts: Starts)
    | CloseWriting(ok: bool)
    | ReadEach(hasCb: bool, starts: Starts)
    | SetErrorStatus(error: Status)
    | OnSent(success: bool, ok: bool)
    | OnRead(completion: Completion, ok: bool)
    | CallbackReturns(verdict: Status, ok: bool)

  // ---- The steps ----

  function Init(hasCb: bool): State {
    State(OK, false, hasCb, false, false, false, false, false, false, [], false,
          History(hasCb, [], [], [], 0, 0, [], [], [], []))
  }

  /** What every step leaves alone: the kind of stream, what was called, and a closed list of accepted messages. */
  predicate Follows(s: State, t: State) {
    t.h.hadCb == s.h.hadCb && (s.readingStarted ==> t.readingStarted) &&
    (s.writingClosing ==> t.writingClosing && t.h.accepted == s.h.accepted)
  }

  /** The same, and the stream did not enter or leave its message callback. */
  predicate Continues(s: State, t: State) {
    Follows(s, t) && t.inCallback == s.inCallback
  }

  /** No batch was started. */
  predicate Quiet(s: State, t: State) {
    t.h.batches == s.h.batches && t.h.sending == s.h.sending && t.h.reading == s.h.reading
  }

  /** One batch was tried, and is in flight if gRPC took it. */
  predicate Tried(s: State, t: State, b: Batch, ok: bool) {
    && t.h.batches == s.h.batches + (if ok then [b] else [])
    && t.h.sending == s.h.sending + (if ok && b.SendMsg? then 1 else 0)
    && t.h.reading == s.h.reading + (if ok && b.RecvMsg? then 1 else 0)
  }

  /** The batch is in flight. */
  function InFlight(h: History, b: Batch): History {
    h.(batches := h.batches + [b],
       sending := h.sending + (if b.SendMsg? then 1 else 0),
       reading := h.reading + (if b.RecvMsg? then 1 else 0))
  }

  function Started(s: State, b: Batch): (t: State)
    ensures Tried(s, t, b, true) && Continues(s, t)
  {
    s.(h := InFlight(s.h, b))
  }

  function AfterCallStatusCb(s: State): (t: State)
    ensures Quiet(s, t) && Continues(s, t)
  {
    s.(statusCb := false, h := s.h.(fired := if s.statusCb then s.h.fired + [s.status] else s.h.fired))
  }

  function AfterEndOnErrorStatus(s: State, error: Status): (t: State)
    ensures Quiet(s, t) && Continues(s, t)
  {
    AfterCallStatusCb(s.(status := error)).(readingEnded := true, writingEnded := true)
  }

  function AfterStartInit(s: State, starts: Starts): (t: State)
    ensures t.h.reading == s.h.reading && Continues(s, t)
  {
    if !starts.sendMd then AfterEndOnErrorStatus(s, InternalError(SendInitMdFailed))
    else if !starts.recvMd then AfterEndOnErrorStatus(Started(s, SendInitMd), InternalError(RecvInitMdFailed))
    else Started(Started(s, SendInitMd), RecvInitMd)
  }

  function AfterInitIfNot(s: State, starts: Starts): (t: State)
    ensures t.h.reading == s.h.reading && Continues(s, t)
  {
    if s.inited then s
    else
      var t := s.(inited := true);
      if !s.status.Ok() then t else AfterStartInit(t, starts)
  }

  function AfterSendNext(s: State, ok: bool): (t: State)
    requires s.queue != []
    ensures Tried(s, t, SendMsg(s.queue[0]), ok) && Continues(s, t)
  {
    if ok then Started(s, SendMsg(s.queue[0])) else AfterEndOnErrorStatus(s, InternalError(WriteFailed))
  }

  function AfterReadNext(s: State, ok: bool): (t: State)
    ensures Tried(s, t, RecvMsg, ok) && Continues(s, t)
  {
    if ok then Started(s, RecvMsg) else AfterEndOnErrorStatus(s, InternalError(ReadStartFailed))
  }

  function AfterEndWriting(s: State, how: Ending, ok: bool): (t: State)
    ensures Tried(s, t, SendClose, ok) && Continues(s, t)
  {
    var t := s.(hasSentClose := true, writingEnded := true, h := s.h.(endings := s.h.endings + [how]));
    if ok then Started(t, SendClose)
    else AfterEndOnErrorStatus(t, InternalError(CloseFailed))
  }

  function AfterPush(s: State, msg: Message, ok: bool): (r: (State, bool))
    ensures r.0.h.reading == s.h.reading && r.0.inCallback == s.inCallback && (!s.writingClosing ==> Follows(s, r.0))
    ensures if s.queue == [] then Tried(s, r.0, SendMsg(msg), ok) else Quiet(s, r.0)
  {
    hide AfterSendNext;
    var t := s.(queue := s.queue + [msg]);
    var taken := t.(h := t.h.(accepted := t.h.accepted + [msg]));
    if s.queue != [] then (taken, true)
    else if ok then (AfterSendNext(taken, true), true)
    else (AfterSendNext(t, false), false)
  }

  function AfterWrite(s: State, msg: Message, starts: Starts): (r: (State, bool))
    ensures r.0.h.reading == s.h.reading && Continues(s, r.0)
  {
    var t := AfterInitIfNot(s, starts);
    if !t.status.Ok() || t.writingClosing || t.writingEnded then (t, false) else AfterPush(t, msg, starts.op)
  }

  function AfterCloseWriting(s: State, ok: bool): (t: State)
    ensures t.h.reading == s.h.reading && Continues(s, t) && t.writingClosing
  {
    if s.writingClosing then s
    else
      var t := s.(writingClosing := true);
      if !t.status.Ok() || t.queue != [] then t else AfterEndWriting(t, ClosedByCloseWriting, ok)
  }

  function AfterStartReading(s: State, hasCb: bool, starts: Starts): (t: State)
    ensures Continues(s, t)
  {
    hide AfterInitIfNot, AfterReadNext;
    var t := AfterInitIfNot(s, starts);
    if !t.status.Ok() then t else AfterReadNext(t.(msgCb := hasCb), starts.op)
  }

  function AfterReadEach(s: State, hasCb: bool, starts: Starts): (t: State)
    ensures Continues(s, t) && t.readingStarted
  {
    if s.readingStarted then s else AfterStartReading(s.(readingStarted := true), hasCb, starts)
  }

  function AfterSetErrorStatus(s: State, error: Status): (t: State)
    ensures Quiet(s, t) && Continues(s, t)
  {
    if s.status.Ok() then AfterEndOnErrorStatus(s, error) else s.(status := error)
  }

  /** The completed message leaves the queue. */
  function SendDone(s: State, success: bool): (t: State)
    requires s.queue != [] && s.h.sending > 0
    ensures Continues(s, t)
  {
    s.(queue := s.queue[1..],
       h := s.h.(sending := s.h.sending - 1, sentOk := if success then s.h.sentOk + [s.queue[0]] else s.h.sentOk))
  }

  /** The half-close after the last message; the callback runs if reading has ended too. */
  function AfterLastSent(s: State, ok: bool): (t: State)
    ensures Tried(s, t, SendClose, ok) && Continues(s, t)
  {
    var t := AfterEndWriting(s, ClosedByOnSent, ok);
    if t.readingEnded then AfterCallStatusCb(t) else t
  }

  /** A message was sent successfully: the next one follows, or the half-close. */
  function AfterSent(s: State, ok: bool): (t: State)
    ensures Follows(s, t)
  {
    hide AfterSendNext, AfterLastSent;
    if s.queue != [] then AfterSendNext(s, ok)
    else if !s.writingClosing then s
    else AfterLastSent(s, ok)
  }

  function AfterOnSent(s: State, success: bool, ok: bool): (t: State)
    requires s.queue != [] && s.h.sending > 0
    ensures Follows(s, t)
  {
    hide SendDone, AfterSent, AfterEndOnErrorStatus;
    var t := SendDone(s, success);
    if !t.status.Ok() then t
    else if !success then AfterEndOnErrorStatus(t, InternalError(SendFailed))
    else AfterSent(t, ok)
  }

  function ReadDone(s: State): (t: State)
    requires s.h.reading > 0
    ensures Continues(s, t)
  {
    s.(h := s.h.(reading := s.h.reading - 1))
  }

  function AfterEndReading(s: State): (t: State)
    ensures Quiet(s, t) && Continues(s, t)
  {
    var t := s.(readingEnded := true, h := s.h.(endings := s.h.endings + [ReadingEnded]));
    if t.writingEnded then AfterCallStatusCb(t) else t
  }

  /** A message has been parsed; without a callback the next read follows at once. */
  function AfterDeliver(s: State, msg: Message, ok: bool): (t: State)
    requires s.h.reading > 0
    ensures Follows(s, t)
  {
    if s.msgCb then s.(inCallback := true, h := s.h.(delivered := s.h.delivered + [msg]))
    else AfterReadNext(ReadDone(s), ok)
  }

  function Logged(s: State, c: Completion): (t: State)
    ensures Quiet(s, t) && Continues(s, t)
  {
    s.(h := s.h.(readLog := s.h.readLog + [c]))
  }

  /** A read that brought no message ends reading. */
  function AfterNoMessage(s: State, c: Completion): (t: State)
    requires !c.Got?
    ensures Quiet(s, t) && Continues(s, t)
  {
    match c
    case ReadFailed => AfterEndOnErrorStatus(s, InternalError(Details.ReadFailed))
    case EndOfStream => AfterEndReading(s)
    case Unparsable(error) => AfterEndOnErrorStatus(s, error)
  }

  function AfterHandled(s: State, c: Completion, ok: bool): (t: State)
    requires s.h.reading > 0
    ensures Follows(s, t)
  {
    hide AfterDeliver, AfterNoMessage, ReadDone;
    if c.Got? then AfterDeliver(s, c.msg, ok) else AfterNoMessage(ReadDone(s), c)
  }

  function AfterOnRead(s: State, c: Completion, ok: bool): (t: State)
    requires s.h.reading > 0
    ensures Follows(s, t)
  {
    hide AfterHandled, ReadDone, Logged;
    var l := Logged(s, c);
    if !s.status.Ok() then ReadDone(l) else AfterHandled(l, c, ok)
  }

  function AfterCallbackReturns(s: State, verdict: Status, ok: bool): (t: State)
    requires s.h.reading > 0
    ensures Follows(s, t)
  {
    hide AfterEndOnErrorStatus, AfterReadNext, ReadDone, Tried, Quiet;
    var t := ReadDone(s).(inCallback := false);
    if !verdict.Ok() then AfterEndOnErrorStatus(t, verdict) else AfterReadNext(t, ok)
  }

  // ---- Runs ----

  /**
   Which events can happen. A completion needs its batch in flight and the
   mutex free; an error status is an error. Inside the message callback the
   same thread may call the public methods again, and the callback may return
   as long as those calls have left the stream OK.
   */
  predicate Enabled(s: State, e: Event) {
    match e
    case SetErrorStatus(error) => !error.Ok()
    case OnSent(_, _) => !s.inCallback && s.h.sending > 0 && s.queue != []
    case OnRead(c, _) => !s.inCallback && s.h.reading > 0 && (c.Unparsable? ==> !c.error.Ok())
    case CallbackReturns(_, _) => s.inCallback && s.h.reading > 0 && s.status.Ok()
    case _ => true
  }

  function Step(s: State, e: Event): (t: State)
    requires Enabled(s, e)
    ensures Follows(s, t) && (e.ReadEach? ==> t.readingStarted) && (e.CloseWriting? ==> t.writingClosing)
  {
    match e
    case Write(msg, starts) => AfterWrite(s, msg, starts).0
    case CloseWriting(ok) => AfterCloseWriting(s, ok)
    case ReadEach(hasCb, starts) => AfterReadEach(s, hasCb, starts)
    case SetErrorStatus(error) => AfterSetErrorStatus(s, error)
    case OnSent(success, ok) => AfterOnSent(s, success, ok)
    case OnRead(completion, ok) => AfterOnRead(s, completion, ok)
    case CallbackReturns(verdict, ok) => AfterCallbackReturns(s, verdict, ok)
  }

  // ---- The invariant ----

  /**
   Reference recogniser for the order in which batches may start: each init
   batch at most once, both before any message or read, the half-close at most
   once, and no message after it.
   */
  datatype Wire = Wire(sendMd: bool, recvMd: bool, msgs: seq<Message>, closed: bool, legal: bool)

  function Scan(bs: seq<Batch>): Wire {
    if bs == [] then Wire(false, false, [], false, true) else ScanOne(Scan(Front(bs)), Last(bs))
  }

  function ScanOne(w: Wire, b: Batch): Wire {
    match b
    case SendInitMd => w.(sendMd := true, legal := w.legal && !w.sendMd)
    case RecvInitMd => w.(recvMd := true, legal := w.legal && !w.recvMd)
    case SendMsg(msg) => w.(msgs := w.msgs + [msg], legal := w.legal && w.sendMd && w.recvMd && !w.closed)
    case RecvMsg => w.(legal := w.legal && w.sendMd && w.recvMd)
    case SendClose => w.(closed := true, legal := w.legal && !w.closed)
  }

  ghost predicate WritingInv(s: State) {
    var msgs := Scan(s.h.batches).msgs;
    && s.h.sending <= 1
    && (s.status.Ok() ==> (s.h.sending == 1 <==> s.queue != []))
    && (s.h.sending == 1 ==> s.queue != [] && msgs == s.h.sentOk + [s.queue[0]])
    && (s.h.sending == 0 && s.status.Ok() ==> msgs == s.h.sentOk)
    && s.h.sentOk <= msgs <= s.h.accepted
    && (s.status.Ok() ==> s.h.accepted == s.h.sentOk + s.queue)
  }

  ghost predicate ClosingInv(s: State) {
    && (s.hasSentClose ==> s.writingClosing && s.writingEnded)
    && (s.status.Ok() ==> s.writingEnded == s.hasSentClose == (s.writingClosing && s.queue == []))
    && (Scan(s.h.batches).closed ==> s.hasSentClose && s.h.sentOk == s.h.accepted)
  }

  ghost predicate InitInv(s: State) {
    var w := Scan(s.h.batches);
    && w.legal
    && (!s.inited ==> !w.sendMd && !w.recvMd)
    && (s.status.Ok() && s.inited ==> w.sendMd && w.recvMd)
    && (s.status.Ok() && (s.queue != [] || s.readingStarted) ==> s.inited)
  }

  ghost predicate ReadingInv(s: State) {
    && s.h.reading <= 1
    && (s.h.reading == 1 ==> s.readingStarted)
    && (s.status.Ok() ==> (s.h.reading == 1 <==> s.readingStarted && !s.readingEnded))
    && (s.status.Ok() && s.readingEnded ==> s.readingStarted)
    && (!s.readingStarted ==> !s.msgCb)
    && (s.inCallback ==> s.h.reading == 1)
  }

  /** Every read but the last one received a message, and the i-th delivery is that of the i-th read. */
  ghost predicate DeliveryInv(s: State) {
    var log, msgs := s.h.readLog, s.h.delivered;
    && (!s.readingStarted ==> log == [])
    && (forall i :: 0 <= i < |log| - 1 ==> log[i].Got?)
    && (s.h.reading == 1 && log != [] ==> Last(log).Got?)
    && (if !s.msgCb then msgs == []
        else
          && |msgs| <= |log| <= |msgs| + 1
          && (s.h.reading == 1 ==> |log| == |msgs|)
          && forall i :: 0 <= i < |msgs| ==> log[i] == Got(msgs[i]))
  }

  ghost predicate CallbackInv(s: State) {
    && |s.h.fired| <= 1
    && (s.statusCb <==> s.h.hadCb && s.h.fired == [])
    && (s.h.fired != [] ==> s.h.hadCb)
    && (!s.status.Ok() ==> !s.statusCb && s.readingEnded && s.writingEnded)
    && (s.h.fired != [] && s.h.fired[0].Ok() ==> s.readingEnded && s.writingEnded)
  }

  ghost predicate EndingsInv(s: State) {
    s.status.Ok() ==>
      && (s.h.fired != [] ==> s.readingEnded && s.writingEnded && s.h.fired[0].Ok())
      && |s.h.endings| == (if s.readingEnded then 1 else 0) + (if s.writingEnded then 1 else 0)
      && (s.readingEnded <==> ReadingEnded in s.h.endings)
      && (s.readingEnded && s.writingEnded && s.h.hadCb ==>
          (s.statusCb <==> s.h.endings[1] == ClosedByCloseWriting))
  }

  ghost predicate Inv(s: State) {
    && WritingInv(s) && ClosingInv(s) && InitInv(s) && ReadingInv(s) && DeliveryInv(s)
    && CallbackInv(s) && EndingsInv(s)
  }

  lemma ScanStep(bs: seq<Batch>, b: Batch)
    ensures Scan(bs + [b]) == ScanOne(Scan(bs), b)
  {
    assert Front(bs + [b]) == bs;
  }

  lemma InitHolds(hasCb: bool)
    ensures Inv(Init(hasCb))
  {
  }

  lemma ErrorKeepsInv(s: State, error: Status)
    requires Inv(s) && !error.Ok() && s.status.Ok()
    ensures Inv(AfterEndOnErrorStatus(s, error))
  {
  }

  lemma StartInitKeepsInv(s: State, starts: Starts)
    requires Inv(s.(inited := false)) && s.inited && s.status.Ok() && s.queue == [] && !s.readingStarted
    ensures Inv(AfterStartInit(s, starts))
  {
    hide Scan;
    var t := Started(s, SendInitMd);
    ScanStep(s.h.batches, SendInitMd);
    ScanStep(t.h.batches, RecvInitMd);
    if !starts.sendMd {
      assert AfterStartInit(s, starts) == AfterEndOnErrorStatus(s, InternalError(SendInitMdFailed));
    } else if !starts.recvMd {
      assert AfterStartInit(s, starts) == AfterEndOnErrorStatus(t, InternalError(RecvInitMdFailed));
    }
  }

  lemma InitIfNotKeepsInv(s: State, starts: Starts)
    requires Inv(s)
    ensures Inv(AfterInitIfNot(s, starts))
  {
    if !s.inited && s.status.Ok() {
      StartInitKeepsInv(s.(inited := true), starts);
    }
  }

  /** A step that only writes leaves the reading side and the status callback alone. */
  predicate OnlyWrites(s: State, t: State) {
    && t.status == s.status && t.msgCb == s.msgCb && t.statusCb == s.statusCb && t.inCallback == s.inCallback
    && t.readingStarted == s.readingStarted && t.readingEnded == s.readingEnded && t.writingEnded == s.writingEnded
    && t.h.hadCb == s.h.hadCb && t.h.reading == s.h.reading && t.h.readLog == s.h.readLog
    && t.h.delivered == s.h.delivered && t.h.endings == s.h.endings && t.h.fired == s.h.fired
  }

  lemma OnlyWritesKeeps(s: State, t: State)
    requires OnlyWrites(s, t) && ReadingInv(s) && DeliveryInv(s) && CallbackInv(s) && EndingsInv(s)
    ensures ReadingInv(t) && DeliveryInv(t) && CallbackInv(t) && EndingsInv(t)
  {
  }

  /** Write once it may queue the message. */
  lemma PushKeepsInv(t: State, msg: Message, ok: bool)
    requires Inv(t) && t.inited && t.status.Ok() && !t.writingClosing && !t.writingEnded
    ensures Inv(AfterPush(t, msg, ok).0)
  {
    hide Scan;
    if t.queue == [] && !ok {
      assert AfterPush(t, msg, ok).0 == AfterSendNext(t.(queue := [msg]), false);
    } else {
      OnlyWritesKeeps(t, AfterPush(t, msg, ok).0);
      hide ReadingInv, DeliveryInv, CallbackInv, EndingsInv;
      if t.queue != [] {
        assert t.h.sentOk + t.queue + [msg] == t.h.sentOk + (t.queue + [msg]);
      } else {
        ScanStep(t.h.batches, SendMsg(msg));
      }
    }
  }

  lemma WriteKeepsInv(s: State, msg: Message, starts: Starts)
    requires Inv(s)
    ensures Inv(AfterWrite(s, msg, starts).0)
  {
    InitIfNotKeepsInv(s, starts);
    var t := AfterInitIfNot(s, starts);
    if t.status.Ok() && !t.writingClosing && !t.writingEnded {
      PushKeepsInv(t, msg, starts.op);
    }
  }

  lemma CloseWritingKeepsInv(s: State, ok: bool)
    requires Inv(s)
    ensures Inv(AfterCloseWriting(s, ok))
  {
    hide Scan;
    ScanStep(s.h.batches, SendClose);
  }

  /** The state just before AfterReadNext: all of the invariant but the outstanding read. */
  ghost predicate ReadyToRead(s: State) {
    && s.status.Ok() && s.inited && s.readingStarted && !s.readingEnded && s.h.reading == 0 && !s.inCallback
    && DeliveryInv(s) && (s.h.readLog != [] ==> Last(s.h.readLog).Got?)
    && (s.msgCb ==> |s.h.readLog| == |s.h.delivered|)
    && WritingInv(s) && ClosingInv(s) && InitInv(s) && CallbackInv(s) && EndingsInv(s)
  }

  lemma ReadNextGivesInv(s: State, ok: bool)
    requires ReadyToRead(s)
    ensures Inv(AfterReadNext(s, ok))
  {
    ScanStep(s.h.batches, RecvMsg);
  }

  lemma ErrorCommutes(s: State, error: Status)
    ensures AfterEndOnErrorStatus(s.(readingStarted := true), error) ==
            AfterEndOnErrorStatus(s, error).(readingStarted := true)
    ensures AfterEndOnErrorStatus(s, error).inited == s.inited
    ensures AfterEndOnErrorStatus(s, error).readingStarted == s.readingStarted
  {
    hide Quiet, Follows;
  }

  /** Initialising does not depend on the flag that ReadEach has set before. */
  lemma InitCommutes(s: State, starts: Starts)
    ensures AfterInitIfNot(s.(readingStarted := true), starts) ==
            AfterInitIfNot(s, starts).(readingStarted := true)
    ensures AfterInitIfNot(s, starts).inited && AfterInitIfNot(s, starts).readingStarted == s.readingStarted
  {
    hide AfterEndOnErrorStatus, Quiet, Follows, Tried, AfterStartInit, InFlight;
    var u, t := s.(readingStarted := true), s.(inited := true);
    assert t.(readingStarted := true) == u.(inited := true);
    StartInitCommutes(t, starts);
    StartInitKeepsFlags(t, starts);
    if s.inited {
      assert AfterInitIfNot(s, starts) == s && AfterInitIfNot(u, starts) == u;
    } else if !s.status.Ok() {
      assert AfterInitIfNot(s, starts) == t && AfterInitIfNot(u, starts) == u.(inited := true);
    } else {
      assert AfterInitIfNot(s, starts) == AfterStartInit(t, starts);
      assert AfterInitIfNot(u, starts) == AfterStartInit(u.(inited := true), starts);
    }
  }

  lemma StartedCommutes(t: State, b: Batch)
    ensures Started(t.(readingStarted := true), b) == Started(t, b).(readingStarted := true)
    ensures Started(t, b).inited == t.inited && Started(t, b).readingStarted == t.readingStarted
  {
    hide Quiet, Follows, Tried, InFlight;
  }

  lemma StartInitKeepsFlags(t: State, starts: Starts)
    ensures AfterStartInit(t, starts).inited == t.inited
    ensures AfterStartInit(t, starts).readingStarted == t.readingStarted
  {
    hide AfterEndOnErrorStatus, Quiet, Follows, Tried, Started;
    var a := Started(t, SendInitMd);
    StartedCommutes(t, SendInitMd);
    StartedCommutes(a, RecvInitMd);
    ErrorCommutes(t, InternalError(SendInitMdFailed));
    ErrorCommutes(a, InternalError(RecvInitMdFailed));
  }

  lemma StartInitCommutes(t: State, starts: Starts)
    ensures AfterStartInit(t.(readingStarted := true), starts) ==
            AfterStartInit(t, starts).(readingStarted := true)
  {
    hide AfterEndOnErrorStatus, Quiet, Follows, Tried, Started;
    var u := t.(readingStarted := true);
    var a, b := Started(t, SendInitMd), Started(u, SendInitMd);
    StartedCommutes(t, SendInitMd);
    if !starts.sendMd {
      ErrorCommutes(t, InternalError(SendInitMdFailed));
      assert AfterStartInit(t, starts) == AfterEndOnErrorStatus(t, InternalError(SendInitMdFailed));
      assert AfterStartInit(u, starts) == AfterEndOnErrorStatus(u, InternalError(SendInitMdFailed));
    } else if !starts.recvMd {
      ErrorCommutes(a, InternalError(RecvInitMdFailed));
      assert AfterStartInit(t, starts) == AfterEndOnErrorStatus(a, InternalError(RecvInitMdFailed));
      assert AfterStartInit(u, starts) == AfterEndOnErrorStatus(b, InternalError(RecvInitMdFailed));
    } else {
      StartedCommutes(a, RecvInitMd);
      assert AfterStartInit(t, starts) == Started(a, RecvInitMd);
      assert AfterStartInit(u, starts) == Started(b, RecvInitMd);
    }
  }

  lemma ReadyAfterInit(t: State, hasCb: bool)
    requires Inv(t) && t.status.Ok() && t.inited && !t.readingStarted
    ensures ReadyToRead(t.(readingStarted := true, msgCb := hasCb))
  {
    hide Scan;
  }

  lemma ErrorBeforeReading(t: State)
    requires Inv(t) && !t.status.Ok() && !t.readingStarted
    ensures Inv(t.(readingStarted := true))
  {
    hide Scan;
  }

  lemma ReadEachKeepsInv(s: State, hasCb: bool, starts: Starts)
    requires Inv(s)
    ensures Inv(AfterReadEach(s, hasCb, starts))
  {
    if !s.readingStarted {
      InitIfNotKeepsInv(s, starts);
      InitCommutes(s, starts);
      var t := AfterInitIfNot(s, starts);
      hide Inv, AfterInitIfNot;
      if t.status.Ok() {
        ReadyAfterInit(t, hasCb);
        ReadNextGivesInv(t.(readingStarted := true, msgCb := hasCb), starts.op);
      } else {
        ErrorBeforeReading(t);
      }
    }
  }

  lemma SentThenNextKeepsInv(s: State)
    requires Inv(s) && s.h.sending > 0 && s.status.Ok() && |s.queue| > 1
    ensures Inv(AfterOnSent(s, true, true))
  {
    hide Scan;
    ScanStep(s.h.batches, SendMsg(s.queue[1]));
    OnlyWritesKeeps(s, AfterOnSent(s, true, true));
    hide ReadingInv, DeliveryInv, CallbackInv, EndingsInv;
    assert s.h.sentOk + s.queue == s.h.sentOk + [s.queue[0]] + s.queue[1..];
  }

  lemma SentThenFailedKeepsInv(s: State)
    requires Inv(s) && s.h.sending > 0 && s.status.Ok() && |s.queue| > 1
    ensures Inv(AfterOnSent(s, true, false))
  {
    hide Scan;
  }

  lemma SentLastKeepsInv(s: State, ok: bool)
    requires Inv(s) && s.h.sending > 0 && s.status.Ok() && |s.queue| == 1
    ensures Inv(AfterOnSent(s, true, ok))
  {
    hide Scan;
    ScanStep(s.h.batches, SendClose);
    assert (s.h.endings + [ClosedByOnSent])[|s.h.endings|] == ClosedByOnSent;
  }

  /** A completed message is always in the queue: the environment is not restricted by that assert. */
  lemma OnSentFindsMessage(s: State, success: bool, ok: bool)
    requires Inv(s) && s.h.sending > 0 && !s.inCallback
    ensures Enabled(s, OnSent(success, ok))
  {
  }

  lemma OnSentKeepsInv(s: State, success: bool, ok: bool)
    requires Inv(s) && s.h.sending > 0
    ensures Inv(AfterOnSent(s, success, ok))
  {
    if s.status.Ok() && success {
      if |s.queue| > 1 {
        SentThenNextKeepsInv(s);
        SentThenFailedKeepsInv(s);
      } else {
        SentLastKeepsInv(s, ok);
      }
    }
  }

  lemma GotKeepsInv(s: State, msg: Message, ok: bool)
    requires Inv(s) && s.h.reading > 0 && !s.inCallback && s.status.Ok()
    ensures Inv(AfterOnRead(s, Got(msg), ok))
  {
    hide Scan;
    if s.msgCb {
      hide WritingInv, ClosingInv, InitInv, CallbackInv, EndingsInv;
      var t := AfterOnRead(s, Got(msg), ok);
      assert t == Logged(s, Got(msg)).(inCallback := true, h := t.h);
      OnlyReadsKeeps(s, t);
    } else {
      ReadNextGivesInv(ReadDone(Logged(s, Got(msg))), ok);
    }
  }

  /** A step that only reads leaves the writing side and the status callback alone. */
  predicate OnlyReads(s: State, t: State) {
    && t.status == s.status && t.statusCb == s.statusCb && t.inited == s.inited
    && t.readingStarted == s.readingStarted && t.readingEnded == s.readingEnded
    && t.writingClosing == s.writingClosing && t.writingEnded == s.writingEnded
    && t.hasSentClose == s.hasSentClose && t.queue == s.queue
    && t.h.hadCb == s.h.hadCb && t.h.accepted == s.h.accepted && t.h.batches == s.h.batches
    && t.h.sentOk == s.h.sentOk && t.h.sending == s.h.sending && t.h.endings == s.h.endings
    && t.h.fired == s.h.fired
  }

  lemma OnlyReadsKeeps(s: State, t: State)
    requires OnlyReads(s, t)
    requires WritingInv(s) && ClosingInv(s) && InitInv(s) && CallbackInv(s) && EndingsInv(s)
    ensures WritingInv(t) && ClosingInv(t) && InitInv(t) && CallbackInv(t) && EndingsInv(t)
  {
    hide Scan;
  }

  lemma NoMessageKeepsInv(s: State, c: Completion, ok: bool)
    requires Inv(s) && Enabled(s, OnRead(c, ok)) && (!c.Got? || !s.status.Ok())
    ensures Inv(AfterOnRead(s, c, ok))
  {
    hide Scan;
  }

  lemma OnReadKeepsInv(s: State, c: Completion, ok: bool)
    requires Inv(s) && Enabled(s, OnRead(c, ok))
    ensures Inv(AfterOnRead(s, c, ok))
  {
    if c.Got? && s.status.Ok() {
      GotKeepsInv(s, c.msg, ok);
    } else {
      NoMessageKeepsInv(s, c, ok);
    }
  }

  lemma CallbackReturnsKeepsInv(s: State, verdict: Status, ok: bool)
    requires Inv(s) && Enabled(s, CallbackReturns(verdict, ok))
    ensures Inv(AfterCallbackReturns(s, verdict, ok))
  {
    if verdict.Ok() {
      ReadNextGivesInv(ReadDone(s).(inCallback := false), ok);
    }
  }

  lemma StepKeepsInv(s: State, e: Event)
    requires Inv(s) && Enabled(s, e)
    ensures Inv(Step(s, e))
  {
    match e
    case Write(msg, starts) => WriteKeepsInv(s, msg, starts);
    case CloseWriting(ok) => CloseWritingKeepsInv(s, ok);
    case ReadEach(hasCb, starts) => ReadEachKeepsInv(s, hasCb, starts);
    case SetErrorStatus(error) =>
      if s.status.Ok() {
        ErrorKeepsInv(s, error);
      }
    case OnSent(success, ok) => OnSentKeepsInv(s, success, ok);
    case OnRead(completion, ok) => OnReadKeepsInv(s, completion, ok);
    case CallbackReturns(verdict, ok) => CallbackReturnsKeepsInv(s, verdict, ok);
  }

  /** After an error both directions have ended and the status callback is gone. */
  lemma ErrorFacts(s: State)
    requires Inv(s) && !s.status.Ok()
    ensures !s.statusCb && s.readingEnded && s.writingEnded
  {
  }

  lemma OpenFacts(s: State)
    requires Inv(s) && s.status.Ok()
    ensures s.hasSentClose ==> s.writingClosing && s.queue == []
    ensures s.h.reading > 0 ==> s.readingStarted
    ensures s.inCallback ==> s.readingStarted
    ensures !s.writingClosing ==> !s.hasSentClose && !s.writingEnded
  {
  }

  // ---- What holds in every run ----

  ghost predicate Feasible(s: State, events: seq<Event>)
    decreases |events|
  {
    events == [] || (Enabled(s, events[0]) && Feasible(Step(s, events[0]), events[1..]))
  }

  ghost function Run(s: State, events: seq<Event>): State
    requires Feasible(s, events)
    decreases |events|
  {
    if events == [] then s else Run(Step(s, events[0]), events[1..])
  }

  lemma {:induction false} RunKeepsInv(s: State, events: seq<Event>)
    requires Inv(s) && Feasible(s, events)
    ensures Inv(Run(s, events))
    decreases |events|
  {
    if events != [] {
      StepKeepsInv(s, events[0]);
      RunKeepsInv(Step(s, events[0]), events[1..]);
    }
  }

  lemma {:induction false} RunFollows(s: State, events: seq<Event>)
    requires Feasible(s, events)
    ensures Follows(s, Run(s, events))
    decreases |events|
  {
    if events != [] {
      RunFollows(Step(s, events[0]), events[1..]);
    }
  }

  /** Positions in a log at which no message or read comes before the init batches. */
  ghost predicate InitFirst(bs: seq<Batch>) {
    forall i :: 0 <= i < |bs| && (bs[i].SendMsg? || bs[i].RecvMsg?) ==>
      SendInitMd in bs[..i] && RecvInitMd in bs[..i]
  }

  /** Only messages and reads may occur twice. */
  ghost predicate OthersOnce(bs: seq<Batch>) {
    forall i, j :: 0 <= i < j < |bs| && bs[i] == bs[j] ==> bs[i].SendMsg? || bs[i].RecvMsg?
  }

  ghost predicate NoMessageAfterClose(bs: seq<Batch>) {
    forall i, j :: 0 <= i < j < |bs| && bs[i].SendClose? ==> !bs[j].SendMsg?
  }

  /** The batch order the stream promises gRPC, said with positions in the log. */
  ghost predicate WellOrdered(bs: seq<Batch>) {
    InitFirst(bs) && OthersOnce(bs) && NoMessageAfterClose(bs)
  }

  lemma InitFirstSnoc(bs: seq<Batch>, b: Batch)
    ensures InitFirst(bs + [b]) <==>
            InitFirst(bs) && (b.SendMsg? || b.RecvMsg? ==> SendInitMd in bs && RecvInitMd in bs)
  {
    var cs := bs + [b];
    assert forall i :: 0 <= i < |bs| ==> cs[i] == bs[i] && cs[..i] == bs[..i];
    assert cs[|bs|] == b && cs[..|bs|] == bs;
  }

  lemma OthersOnceSnoc(bs: seq<Batch>, b: Batch)
    ensures OthersOnce(bs + [b]) <==> OthersOnce(bs) && (b in bs ==> b.SendMsg? || b.RecvMsg?)
  {
    var cs := bs + [b];
    assert forall i :: 0 <= i < |bs| ==> cs[i] == bs[i];
    assert cs[|bs|] == b;
    if OthersOnce(cs) {
      assert forall i :: 0 <= i < |bs| && bs[i] == b ==> cs[i] == cs[|bs|];
    }
  }

  lemma NoMessageAfterCloseSnoc(bs: seq<Batch>, b: Batch)
    ensures NoMessageAfterClose(bs + [b]) <==> NoMessageAfterClose(bs) && (SendClose in bs ==> !b.SendMsg?)
  {
    var cs := bs + [b];
    assert forall i :: 0 <= i < |bs| ==> cs[i] == bs[i];
    assert cs[|bs|] == b;
  }

  lemma {:induction false} ScanSeesAll(bs: seq<Batch>)
    ensures Scan(bs).sendMd <==> SendInitMd in bs
    ensures Scan(bs).recvMd <==> RecvInitMd in bs
    ensures Scan(bs).closed <==> SendClose in bs
    ensures Scan(bs).legal <==> WellOrdered(bs)
  {
    if bs != [] {
      ScanSeesAll(Front(bs));
      InitFirstSnoc(Front(bs), Last(bs));
      OthersOnceSnoc(Front(bs), Last(bs));
      NoMessageAfterCloseSnoc(Front(bs), Last(bs));
      assert bs == Front(bs) + [Last(bs)];
    }
  }

  /** The writing side, whatever starts fail and however the batches complete. */
  lemma WritingSideOfEveryRun(hasCb: bool, events: seq<Event>)
    requires Feasible(Init(hasCb), events)
    ensures var s := Run(Init(hasCb), events);
            && s.h.sending <= 1
            && (s.status.Ok() ==> (s.h.sending == 1 <==> s.queue != []))
            && WellOrdered(s.h.batches)
            && Scan(s.h.batches).msgs <= s.h.accepted
            && (SendClose in s.h.batches ==> s.h.sentOk == Scan(s.h.batches).msgs == s.h.accepted)
  {
    InitHolds(hasCb);
    RunKeepsInv(Init(hasCb), events);
    ScanSeesAll(Run(Init(hasCb), events).h.batches);
  }

  /** Once CloseWriting has been called no later step accepts a message. */
  lemma NothingAcceptedAfterCloseWriting(s: State, events: seq<Event>)
    requires s.writingClosing && Feasible(s, events)
    ensures Run(s, events).h.accepted == s.h.accepted
  {
    RunFollows(s, events);
  }

  lemma ErrorStopsTheStep(s: State, e: Event)
    requires Inv(s) && Enabled(s, e) && !s.status.Ok()
    ensures !Step(s, e).status.Ok()
    ensures Step(s, e).h.batches == s.h.batches && Step(s, e).h.accepted == s.h.accepted
    ensures Step(s, e).h.fired == s.h.fired
  {
    match e
    case OnSent(_, _) => assert !s.statusCb;
    case OnRead(_, _) => assert !s.statusCb;
    case _ =>
  }

  /** After an error no batch is started, no message accepted and no callback made, for the rest of the run. */
  lemma {:induction false} ErrorStopsTheStream(s: State, events: seq<Event>)
    requires Inv(s) && Feasible(s, events) && !s.status.Ok()
    ensures var t := Run(s, events);
            !t.status.Ok() && t.h.batches == s.h.batches && t.h.accepted == s.h.accepted && t.h.fired == s.h.fired
    decreases |events|
  {
    hide Inv, Step;
    if events != [] {
      StepKeepsInv(s, events[0]);
      ErrorStopsTheStep(s, events[0]);
      ErrorStopsTheStream(Step(s, events[0]), events[1..]);
    }
  }

  /** The status callback fires at most once, and with OK only when both directions ended. */
  lemma StatusCallbackOfEveryRun(hasCb: bool, events: seq<Event>)
    requires Feasible(Init(hasCb), events)
    ensures var s := Run(Init(hasCb), events);
            && |s.h.fired| <= 1
            && (!s.status.Ok() && hasCb ==> |s.h.fired| == 1)
            && (s.h.fired != [] && s.h.fired[0].Ok() ==> s.readingEnded && s.writingEnded)
            && (s.status.Ok() && !(s.readingEnded && s.writingEnded) ==> s.h.fired == [])
            && (s.status.Ok() && s.readingEnded && s.writingEnded && hasCb ==>
                (s.h.fired == [] <==> s.h.endings == [ReadingEnded, ClosedByCloseWriting]))
  {
    InitHolds(hasCb);
    RunKeepsInv(Init(hasCb), events);
    RunFollows(Init(hasCb), events);
  }

  /**
   When nothing is in flight the destructor's two asserts hold exactly if the
   stream failed, or ReadEach was called and writing was closed (which the
   wrapper's destructor does).
   */
  lemma QuiescenceOfEveryRun(hasCb: bool, events: seq<Event>)
    requires Feasible(Init(hasCb), events)
    ensures var s := Run(Init(hasCb), events);
            s.h.sending == 0 && s.h.reading == 0 ==>
              (s.readingEnded && s.writingEnded <==>
               !s.status.Ok() || (s.readingStarted && s.writingClosing))
  {
    InitHolds(hasCb);
    RunKeepsInv(Init(hasCb), events);
  }

  /** The two flags remember the calls. */
  lemma {:induction false} RunRemembersCalls(s: State, events: seq<Event>)
    requires Feasible(s, events)
    ensures (exists e <- events :: e.ReadEach?) ==> Run(s, events).readingStarted
    ensures (exists e <- events :: e.CloseWriting?) ==> Run(s, events).writingClosing
    decreases |events|
  {
    if events != [] {
      RunFollows(Step(s, events[0]), events[1..]);
      RunRemembersCalls(Step(s, events[0]), events[1..]);
      assert forall e :: e in events <==> e == events[0] || e in events[1..];
    }
  }

  /** After ReadEach and CloseWriting, in any order, the destructor's asserts hold whenever nothing is in flight. */
  lemma DestructorAsserts(hasCb: bool, events: seq<Event>)
    requires Feasible(Init(hasCb), events)
    requires (exists e <- events :: e.ReadEach?) && (exists e <- events :: e.CloseWriting?)
    requires Run(Init(hasCb), events).h.sending == 0 && Run(Init(hasCb), events).h.reading == 0
    ensures Run(Init(hasCb), events).readingEnded && Run(Init(hasCb), events).writingEnded
  {
    hide Run, Feasible;
    RunRemembersCalls(Init(hasCb), events);
    QuiescenceOfEveryRun(hasCb, events);
  }

  /** Reads complete one at a time, and the i-th message delivered is that of the i-th read. */
  lemma DeliveryOfEveryRun(hasCb: bool, events: seq<Event>)
    requires Feasible(Init(hasCb), events)
    ensures var s := Run(Init(hasCb), events);
            && s.h.reading <= 1
            && (forall i :: 0 <= i < |s.h.readLog| - 1 ==> s.h.readLog[i].Got?)
            && (if !s.msgCb then s.h.delivered == []
                else
                  && |s.h.delivered| <= |s.h.readLog| <= |s.h.delivered| + 1
                  && forall i :: 0 <= i < |s.h.delivered| ==> s.h.readLog[i] == Got(s.h.delivered[i]))
  {
    InitHolds(hasCb);
    RunKeepsInv(Init(hasCb), events);
  }

  /** A call that the message callback may make on its stream. */
  predicate IsCall(e: Event) {
    (e.Write? || e.CloseWriting? || e.ReadEach? || e.SetErrorStatus?) && (e.SetErrorStatus? ==> !e.error.Ok())
  }

  /** The call leaves a stream in its message callback OK: what it starts is taken, or it starts nothing. */
  predicate Harmless(s: State, e: Event) {
    match e
    case Write(_, starts) => s.queue != [] || s.writingClosing || starts.op
    case CloseWriting(ok) => s.queue != [] || s.writingClosing || ok
    case ReadEach(_, _) => true
    case _ => false
  }

  predicate AllHarmless(s: State, calls: seq<Event>)
    requires forall e <- calls :: IsCall(e)
    decreases |calls|
  {
    calls == [] || (Harmless(s, calls[0]) && AllHarmless(Step(s, calls[0]), calls[1..]))
  }

  lemma NestedCall(s: State, e: Event)
    requires Inv(s) && s.inCallback && IsCall(e)
    ensures Step(s, e).inCallback
    ensures s.status.Ok() ==> (Step(s, e).status.Ok() <==> Harmless(s, e))
  {
    hide Scan;
  }

  lemma {:induction false} NestedCallsStayInside(s: State, calls: seq<Event>)
    requires Inv(s) && s.inCallback && forall e <- calls :: IsCall(e)
    ensures Feasible(s, calls) && Run(s, calls).inCallback
    decreases |calls|
  {
    if calls != [] {
      assert IsCall(calls[0]);
      StepKeepsInv(s, calls[0]);
      NestedCall(s, calls[0]);
      NestedCallsStayInside(Step(s, calls[0]), calls[1..]);
    }
  }

  /**
   The calls that a message callback makes leave the stream OK, so that OnRead
   may go on when it returns, exactly if each of them is harmless in the state
   it finds.
   */
  lemma {:induction false} NestedCallsKeepOkIff(s: State, calls: seq<Event>)
    requires Inv(s) && s.inCallback && s.status.Ok() && forall e <- calls :: IsCall(e)
    ensures Feasible(s, calls) && Run(s, calls).inCallback
    ensures Run(s, calls).status.Ok() <==> AllHarmless(s, calls)
    decreases |calls|
  {
    NestedCallsStayInside(s, calls);
    if calls != [] {
      assert IsCall(calls[0]);
      var t := Step(s, calls[0]);
      NestedCall(s, calls[0]);
      StepKeepsInv(s, calls[0]);
      if t.status.Ok() {
        NestedCallsKeepOkIff(t, calls[1..]);
      } else {
        ErrorStopsTheStream(t, calls[1..]);
      }
    }
  }

  /** A callback whose Write fails to start leaves OnRead to start a read on a failed stream. */
  lemma FailedNestedWriteBreaksOnRead()
    ensures var events := [ReadEach(true, ALL_START), OnRead(Got("m"), true), Write("n", Starts(true, true, false))];
            Feasible(Init(true), events) &&
            var s := Run(Init(true), events);
            && s.inCallback && !s.status.Ok() && s.h.reading == 1
            && AfterCallbackReturns(s, OK, true).h.batches == s.h.batches + [RecvMsg]
  {
    var e0, e1, e2 := ReadEach(true, ALL_START), OnRead(Got("m"), true), Write("n", Starts(true, true, false));
    var s1 := Step(Init(true), e0);
    var s2 := Step(s1, e1);
    assert Enabled(s1, e1) && Enabled(s2, e2);
    RunOfThree(Init(true), e0, e1, e2);
  }

  /**
   A pending status callback is lost exactly by a CloseWriting that half-closes
   a stream whose reading has ended; a caller can tell before the call.
   */
  lemma CallbackIsLostIff(s: State, e: Event)
    requires Inv(s) && Enabled(s, e) && s.statusCb && !(s.readingEnded && s.writingEnded)
    ensures var t := Step(s, e);
            t.readingEnded && t.writingEnded && t.statusCb <==>
              e.CloseWriting? && e.ok && !s.writingClosing && s.queue == [] && s.readingEnded
  {
    hide Scan;
    StepKeepsInv(s, e);
  }

  /** Reading ends, then CloseWriting half-closes: the stream is over and the callback never ran. */
  lemma StatusCallbackCanBeLost()
    ensures var events := [ReadEach(true, ALL_START), OnRead(EndOfStream, true), CloseWriting(true)];
            Feasible(Init(true), events) &&
            var s := Run(Init(true), events);
            && s.status.Ok() && s.readingEnded && s.writingEnded
            && s.h.sending == 0 && s.h.reading == 0 && s.h.fired == []
  {
    var e0, e1, e2 := ReadEach(true, ALL_START), OnRead(EndOfStream, true), CloseWriting(true);
    var s1 := Step(Init(true), e0);
    var s2 := Step(s1, e1);
    assert Enabled(s1, e1) && Enabled(s2, e2);
    RunOfThree(Init(true), e0, e1, e2);
  }

  lemma RunOfThree(s: State, e0: Event, e1: Event, e2: Event)
    requires Enabled(s, e0) && Enabled(Step(s, e0), e1) && Enabled(Step(Step(s, e0), e1), e2)
    ensures Feasible(s, [e0, e1, e2])
    ensures Run(s, [e0, e1, e2]) == Step(Step(Step(s, e0), e1), e2)
  {
    var t := Step(s, e0);
    var u := Step(t, e1);
    assert [e0, e1, e2][1..] == [e1, e2] && [e1, e2][1..] == [e2] && [e2][1..] == [];
    assert Feasible(Step(u, e2), []);
    assert Feasible(u, [e2]) && Run(u, [e2]) == Step(u, e2);
    assert Feasible(t, [e1, e2]) && Run(t, [e1, e2]) == Step(u, e2);
  }

  /**
   CloseWriting does not initialise the stream: its half-close follows the
   init batches exactly if something initialised the stream before.
   */
  lemma HalfCloseFollowsInitIff(s: State)
    requires Inv(s) && s.status.Ok() && !s.writingClosing && s.queue == []
    ensures Step(s, CloseWriting(true)).h.batches == s.h.batches + [SendClose]
    ensures SendInitMd in s.h.batches && RecvInitMd in s.h.batches <==> s.inited
  {
    ScanSeesAll(s.h.batches);
  }

  /** From the start: a stream that is closed before it is used half-closes without init metadata. */
  lemma HalfCloseWithoutInit(hasCb: bool)
    ensures Feasible(Init(hasCb), [CloseWriting(true)])
    ensures Run(Init(hasCb), [CloseWriting(true)]).h.batches == [SendClose]
  {
    assert [CloseWriting(true)][1..] == [];
    assert Feasible(Step(Init(hasCb), CloseWriting(true)), []);
    assert Run(Init(hasCb), [CloseWriting(true)]) == Step(Init(hasCb), CloseWriting(true));
  }

  /**
   Initialising: the first call on a stream without error starts both init
   batches, in order, exactly if both starts succeed, and only then leaves it
   OK; and on any OK stream both are in the log afterwards.
   */
  lemma InitStartsBoth(s: State, starts: Starts)
    requires Inv(s)
    ensures var t := AfterInitIfNot(s, starts);
            && t.inited
            && (!s.inited && s.status.Ok() ==>
                  && (t.status.Ok() <==> starts.sendMd && starts.recvMd)
                  && (t.h.batches == s.h.batches + [SendInitMd, RecvInitMd] <==> starts.sendMd && starts.recvMd))
            && (t.status.Ok() ==> SendInitMd in t.h.batches && RecvInitMd in t.h.batches)
  {
    hide Scan;
    InitIfNotKeepsInv(s, starts);
    ScanSeesAll(AfterInitIfNot(s, starts).h.batches);
  }

  // ---- Tags ----

  predicate IsMsg(b: Batch) {
    b.SendMsg?
  }

  predicate IsRead(b: Batch) {
    b.RecvMsg?
  }

  /** The StartBatch calls of each step, in order, with gRPC's answers. */
  function StartInitAttempts(starts: Starts): seq<Attempt<Batch>> {
    if !starts.sendMd then [Attempt(SendInitMd, false)]
    else [Attempt(SendInitMd, true)] + [Attempt(RecvInitMd, starts.recvMd)]
  }

  function InitAttempts(s: State, starts: Starts): seq<Attempt<Batch>> {
    if s.inited || !s.status.Ok() then [] else StartInitAttempts(starts)
  }

  function PushAttempts(s: State, msg: Message, ok: bool): seq<Attempt<Batch>> {
    if s.queue != [] then [] else [Attempt(SendMsg(msg), ok)]
  }

  function WriteAttempts(s: State, msg: Message, starts: Starts): seq<Attempt<Batch>> {
    var t := AfterInitIfNot(s, starts);
    InitAttempts(s, starts) +
    (if !t.status.Ok() || t.writingClosing || t.writingEnded then [] else PushAttempts(t, msg, starts.op))
  }

  function CloseAttempts(s: State, ok: bool): seq<Attempt<Batch>> {
    if s.writingClosing || !s.status.Ok() || s.queue != [] then [] else [Attempt(SendClose, ok)]
  }

  function StartReadingAttempts(s: State, starts: Starts): seq<Attempt<Batch>> {
    InitAttempts(s, starts) + (if AfterInitIfNot(s, starts).status.Ok() then [Attempt(RecvMsg, starts.op)] else [])
  }

  function ReadEachAttempts(s: State, starts: Starts): seq<Attempt<Batch>> {
    if s.readingStarted then [] else StartReadingAttempts(s.(readingStarted := true), starts)
  }

  /** s has one message less in its queue. */
  function NextAttempts(s: State, ok: bool): seq<Attempt<Batch>> {
    if s.queue != [] then [Attempt(SendMsg(s.queue[0]), ok)]
    else if s.writingClosing then [Attempt(SendClose, ok)]
    else []
  }

  function SentAttempts(s: State, success: bool, ok: bool): seq<Attempt<Batch>>
    requires s.queue != [] && s.h.sending > 0
  {
    if !s.status.Ok() || !success then [] else NextAttempts(SendDone(s, success), ok)
  }

  function ReadAttempts(s: State, c: Completion, ok: bool): seq<Attempt<Batch>> {
    if s.status.Ok() && c.Got? && !s.msgCb then [Attempt(RecvMsg, ok)] else []
  }

  function ReturnAttempts(verdict: Status, ok: bool): seq<Attempt<Batch>> {
    if verdict.Ok() then [Attempt(RecvMsg, ok)] else []
  }

  function Attempts(s: State, e: Event): seq<Attempt<Batch>>
    requires Enabled(s, e)
  {
    match e
    case Write(msg, starts) => WriteAttempts(s, msg, starts)
    case CloseWriting(ok) => CloseAttempts(s, ok)
    case ReadEach(_, starts) => ReadEachAttempts(s, starts)
    case SetErrorStatus(_) => []
    case OnSent(success, ok) => SentAttempts(s, success, ok)
    case OnRead(c, ok) => ReadAttempts(s, c, ok)
    case CallbackReturns(verdict, ok) => ReturnAttempts(verdict, ok)
  }

  /** t has in its log what the attempts started since s, and counts it as in flight. */
  ghost predicate Accounts(s: State, t: State, attempts: seq<Attempt<Batch>>) {
    && t.h.batches == s.h.batches + Taken(attempts)
    && t.h.sending == s.h.sending + Count(attempts, IsMsg)
    && t.h.reading == s.h.reading + Count(attempts, IsRead)
  }

  lemma QuietAccounts(s: State, t: State)
    requires Quiet(s, t)
    ensures Accounts(s, t, [])
  {
    assert s.h.batches + [] == s.h.batches;
  }

  lemma TriedAccounts(s: State, t: State, b: Batch, ok: bool)
    requires Tried(s, t, b, ok)
    ensures Accounts(s, t, [Attempt(b, ok)])
  {
    TakenNoneOrOne(Attempt(b, ok), IsMsg);
    TakenNoneOrOne(Attempt(b, ok), IsRead);
  }

  lemma AccountsConcat(s: State, t: State, u: State, a: seq<Attempt<Batch>>, b: seq<Attempt<Batch>>)
    requires Accounts(s, t, a) && Accounts(t, u, b)
    ensures Accounts(s, u, a + b)
  {
    hide Taken, Count;
    TakenConcat(a, b, IsMsg);
    TakenConcat(a, b, IsRead);
    assert s.h.batches + Taken(a) + Taken(b) == s.h.batches + (Taken(a) + Taken(b));
  }

  lemma RefusedAccounts(s: State, t: State, b: Batch)
    requires Quiet(s, t)
    ensures Accounts(s, t, [Attempt(b, false)])
  {
    TakenNoneOrOne(Attempt(b, false), IsMsg);
    TakenNoneOrOne(Attempt(b, false), IsRead);
    QuietAccounts(s, t);
  }

  lemma InitAccounts(s: State, starts: Starts)
    ensures Accounts(s, AfterInitIfNot(s, starts), InitAttempts(s, starts))
  {
    hide Accounts, AfterStartInit, StartInitAttempts;
    var t := s.(inited := true);
    QuietAccounts(s, t);
    if s.inited {
      QuietAccounts(s, s);
    } else if s.status.Ok() {
      StartInitAccounts(t, starts);
      assert [] + StartInitAttempts(starts) == StartInitAttempts(starts);
      AccountsConcat(s, t, AfterStartInit(t, starts), [], StartInitAttempts(starts));
    }
  }

  lemma StartInitAccounts(t: State, starts: Starts)
    ensures Accounts(t, AfterStartInit(t, starts), StartInitAttempts(starts))
  {
    hide Accounts, AfterEndOnErrorStatus, Started;
    var a := Started(t, SendInitMd);
    TriedAccounts(t, a, SendInitMd, true);
    if !starts.sendMd {
      var u := AfterEndOnErrorStatus(t, InternalError(SendInitMdFailed));
      RefusedAccounts(t, u, SendInitMd);
      assert AfterStartInit(t, starts) == u;
    } else if !starts.recvMd {
      var u := AfterEndOnErrorStatus(a, InternalError(RecvInitMdFailed));
      RefusedAccounts(a, u, RecvInitMd);
      AccountsConcat(t, a, u, [Attempt(SendInitMd, true)], [Attempt(RecvInitMd, false)]);
      assert AfterStartInit(t, starts) == u;
    } else {
      var u := Started(a, RecvInitMd);
      TriedAccounts(a, u, RecvInitMd, true);
      AccountsConcat(t, a, u, [Attempt(SendInitMd, true)], [Attempt(RecvInitMd, true)]);
      assert AfterStartInit(t, starts) == u;
    }
  }

  /** What the completion that a step handles takes out of flight. */
  function Completed(s: State, e: Event): State
    requires Enabled(s, e)
  {
    match e
    case OnSent(success, _) => SendDone(s, success)
    case OnRead(c, _) => if s.status.Ok() && c.Got? && s.msgCb then s else ReadDone(s)
    case CallbackReturns(_, _) => ReadDone(s)
    case _ => s
  }

  /** The batches a step starts are those of its attempts that gRPC took, and no others. */
  lemma StepStartsItsAttempts(s: State, e: Event)
    requires Enabled(s, e)
    ensures Accounts(Completed(s, e), Step(s, e), Attempts(s, e))
  {
    hide Accounts;
    match e
    case Write(msg, starts) => WriteAccounts(s, msg, starts);
    case CloseWriting(ok) => CloseAccounts(s, ok);
    case ReadEach(hasCb, starts) => ReadEachAccounts(s, hasCb, starts);
    case SetErrorStatus(error) => QuietAccounts(s, AfterSetErrorStatus(s, error));
    case OnSent(success, ok) => OnSentAccounts(s, success, ok);
    case OnRead(c, ok) => OnReadAccounts(s, c, ok);
    case CallbackReturns(verdict, ok) => ReturnAccounts(s, verdict, ok);
  }

  lemma WriteAccounts(s: State, msg: Message, starts: Starts)
    ensures Accounts(s, AfterWrite(s, msg, starts).0, WriteAttempts(s, msg, starts))
  {
    hide Accounts, AfterInitIfNot, InitAttempts, AfterPush;
    InitAccounts(s, starts);
    var t := AfterInitIfNot(s, starts);
    if !t.status.Ok() || t.writingClosing || t.writingEnded {
      assert InitAttempts(s, starts) + [] == InitAttempts(s, starts);
    } else {
      var u := AfterPush(t, msg, starts.op).0;
      if t.queue != [] {
        QuietAccounts(t, u);
      } else {
        TriedAccounts(t, u, SendMsg(msg), starts.op);
      }
      AccountsConcat(s, t, u, InitAttempts(s, starts), PushAttempts(t, msg, starts.op));
    }
  }

  lemma CloseAccounts(s: State, ok: bool)
    ensures Accounts(s, AfterCloseWriting(s, ok), CloseAttempts(s, ok))
  {
    hide Accounts, AfterEndWriting;
    var t := AfterCloseWriting(s, ok);
    if s.writingClosing || !s.status.Ok() || s.queue != [] {
      QuietAccounts(s, t);
    } else {
      assert t == AfterEndWriting(s.(writingClosing := true), ClosedByCloseWriting, ok);
      TriedAccounts(s, t, SendClose, ok);
    }
  }

  lemma StartReadingAccounts(s: State, hasCb: bool, starts: Starts)
    ensures Accounts(s, AfterStartReading(s, hasCb, starts), StartReadingAttempts(s, starts))
  {
    hide Accounts, AfterInitIfNot, AfterReadNext, InitAttempts;
    var t := AfterInitIfNot(s, starts);
    InitAccounts(s, starts);
    if !t.status.Ok() {
      assert InitAttempts(s, starts) + [] == InitAttempts(s, starts);
    } else {
      var u := AfterReadNext(t.(msgCb := hasCb), starts.op);
      TriedAccounts(t, u, RecvMsg, starts.op);
      AccountsConcat(s, t, u, InitAttempts(s, starts), [Attempt(RecvMsg, starts.op)]);
    }
  }

  lemma ReadEachAccounts(s: State, hasCb: bool, starts: Starts)
    ensures Accounts(s, AfterReadEach(s, hasCb, starts), ReadEachAttempts(s, starts))
  {
    hide Accounts, AfterStartReading, StartReadingAttempts;
    var r := s.(readingStarted := true);
    if s.readingStarted {
      QuietAccounts(s, s);
    } else {
      QuietAccounts(s, r);
      StartReadingAccounts(r, hasCb, starts);
      AccountsConcat(s, r, AfterReadEach(s, hasCb, starts), [], StartReadingAttempts(r, starts));
      assert [] + StartReadingAttempts(r, starts) == StartReadingAttempts(r, starts);
    }
  }

  lemma OnSentAccounts(s: State, success: bool, ok: bool)
    requires s.queue != [] && s.h.sending > 0
    ensures Accounts(SendDone(s, success), AfterOnSent(s, success, ok), SentAttempts(s, success, ok))
  {
    hide Accounts, AfterEndOnErrorStatus, AfterSendNext, AfterLastSent;
    var t := SendDone(s, success);
    var u := AfterOnSent(s, success, ok);
    if t.status.Ok() && success && t.queue != [] {
      assert u == AfterSendNext(t, ok);
      TriedAccounts(t, u, SendMsg(t.queue[0]), ok);
    } else if t.status.Ok() && success && t.writingClosing {
      assert u == AfterLastSent(t, ok);
      TriedAccounts(t, u, SendClose, ok);
    } else {
      QuietAccounts(t, u);
    }
  }

  lemma OnReadAccounts(s: State, c: Completion, ok: bool)
    requires s.h.reading > 0
    ensures Accounts(if s.status.Ok() && c.Got? && s.msgCb then s else ReadDone(s),
                     AfterOnRead(s, c, ok), ReadAttempts(s, c, ok))
  {
    hide Accounts, AfterNoMessage, AfterReadNext, Follows, Continues;
    var l, d := Logged(s, c), ReadDone(Logged(s, c));
    QuietAccounts(ReadDone(s), d);
    if !s.status.Ok() {
      assert AfterOnRead(s, c, ok) == d;
    } else if !c.Got? {
      var u := AfterNoMessage(d, c);
      assert AfterOnRead(s, c, ok) == u;
      QuietAccounts(ReadDone(s), u);
    } else if s.msgCb {
      var u := AfterDeliver(l, c.msg, ok);
      assert AfterOnRead(s, c, ok) == u;
      QuietAccounts(s, u);
    } else {
      var u := AfterReadNext(d, ok);
      assert AfterOnRead(s, c, ok) == AfterDeliver(l, c.msg, ok) == u;
      TriedAccounts(ReadDone(s), u, RecvMsg, ok);
    }
  }

  lemma ReturnAccounts(s: State, verdict: Status, ok: bool)
    requires s.h.reading > 0
    ensures Accounts(ReadDone(s), AfterCallbackReturns(s, verdict, ok), ReturnAttempts(verdict, ok))
  {
    hide Accounts, AfterEndOnErrorStatus, AfterReadNext, Follows, ReadDone;
    var t := ReadDone(s).(inCallback := false);
    if verdict.Ok() {
      var u := AfterReadNext(t, ok);
      assert AfterCallbackReturns(s, verdict, ok) == u;
      TriedAccounts(ReadDone(s), u, RecvMsg, ok);
    } else {
      var u := AfterEndOnErrorStatus(t, verdict);
      assert AfterCallbackReturns(s, verdict, ok) == u;
      QuietAccounts(ReadDone(s), u);
    }
  }
}
