/**
 The client's response stream (ClientAsyncReaderImpl): one request is sent,
 responses are read one at a time, and the final status is received by a second
 tag that holds its own copy of the status callback. The callbacks of one
 reader form Msg* Status.
 */
module ClientReading {
  import opened Common
  import Q = CompletionQueues

  datatype Batch = SendRequest | RecvMsg | RecvStatus

  datatype Callback = Msg(msg: Message) | Report(status: Status)

  /** How a read batch completes. */
  datatype Completion = Failed | EndOfStream | Unparsable(error: Status) | Got(msg: Message)

  datatype History = History(
    hadMsgCb: bool,
    hadStatusCb: bool,
    batches: seq<Batch>,        // batches that were started
    reading: nat,               // read batches in flight
    tags: seq<bool>,            // final-status tags in flight; true: the tag holds a callback
    log: seq<Completion>,       // completed reads, in order
    callbacks: seq<Callback>)

  datatype State = State(isStarted: bool, status: Status, msgCb: bool, statusCb: bool, h: History)

  /**
   ok: gRPC takes the batch that the step starts; verdict: what the message
   callback returns; success: the final status was received.
   */
  datatype Event =
    | Start(hasMsgCb: bool, hasStatusCb: bool, initOk: bool, ok: bool)
    | OnRead(completion: Completion, verdict: Status, ok: bool)
    | OnStatus(success: bool, final: Status)

  const NOT_STARTED :=
    State(false, OK, false, false, History(false, false, [], 0, [], [], []))

  // ---- The steps ----

  function Started(s: State, b: Batch): State {
    s.(h := s.h.(batches := s.h.batches + [b]))
  }

  function Called(s: State, c: Callback): State {
    s.(h := s.h.(callbacks := s.h.callbacks + [c]))
  }

  function AfterCallStatusCb(s: State): State {
    if s.statusCb then Called(s, Report(s.status)).(statusCb := false) else s
  }

  function AfterError(s: State, error: Status): State {
    AfterCallStatusCb(s.(status := error))
  }

  function AfterReadNext(s: State, ok: bool): State {
    if ok then
      var t := Started(s, RecvMsg);
      t.(h := t.h.(reading := t.h.reading + 1))
    else AfterError(s, InternalError(ReadStartFailed))
  }

  function AfterStart(s: State, hasMsgCb: bool, hasStatusCb: bool, initOk: bool, ok: bool): State {
    if s.isStarted then s
    else
      var t := s.(isStarted := true, msgCb := hasMsgCb, statusCb := hasStatusCb,
                  h := s.h.(hadMsgCb := hasMsgCb, hadStatusCb := hasStatusCb));
      if initOk then AfterReadNext(Started(t, SendRequest), ok)
      else AfterError(t, InternalError(ReaderInitFailed))
  }

  /** The second tag gets a copy of the callback; the reader keeps its own. */
  function AfterRecvStatus(s: State, ok: bool): State {
    if ok then
      var t := Started(s, RecvStatus);
      t.(h := t.h.(tags := t.h.tags + [s.statusCb]))
    else if s.statusCb then Called(s, Report(InternalError(RecvStatusFailed)))
    else s
  }

  function AfterMsg(s: State, msg: Message, verdict: Status, ok: bool): State {
    var t := s.(status := OK);
    if !t.msgCb then AfterReadNext(t, ok)
    else if verdict.Ok() then AfterReadNext(Called(t, Msg(msg)).(status := verdict), ok)
    else AfterError(Called(t, Msg(msg)), verdict)
  }

  function AfterOnRead(s: State, completion: Completion, verdict: Status, ok: bool): State
    requires s.h.reading > 0
  {
    var t := s.(h := s.h.(reading := s.h.reading - 1, log := s.h.log + [completion]));
    match completion
    case Failed => AfterError(t, InternalError(ReadFailed))
    case EndOfStream => AfterRecvStatus(t, ok)
    case Unparsable(error) => AfterError(t, error)
    case Got(msg) => AfterMsg(t, msg, verdict, ok)
  }

  function AfterOnStatus(s: State, success: bool, final: Status): State
    requires s.h.tags != []
  {
    var t := s.(h := s.h.(tags := s.h.tags[1..]));
    if !s.h.tags[0] then t
    else Called(t, Report(if success then final else InternalError(RecvStatusFailed)))
  }

  predicate Enabled(s: State, e: Event) {
    match e
    case Start(_, _, _, _) => true
    case OnRead(completion, _, _) =>
      s.h.reading > 0 && (completion.Unparsable? ==> !completion.error.Ok())
    case OnStatus(_, _) => s.h.tags != []
  }

  function Step(s: State, e: Event): State
    requires Enabled(s, e)
  {
    match e
    case Start(hasMsgCb, hasStatusCb, initOk, ok) => AfterStart(s, hasMsgCb, hasStatusCb, initOk, ok)
    case OnRead(completion, verdict, ok) => AfterOnRead(s, completion, verdict, ok)
    case OnStatus(success, final) => AfterOnStatus(s, success, final)
  }

  // ---- The invariant ----

  /** Nothing is in flight any more. */
  predicate Ended(s: State) {
    s.isStarted && s.h.reading == 0 && s.h.tags == []
  }

  /** A read met the end of the stream. */
  predicate SawEnd(h: History) {
    h.log != [] && Last(h.log).EndOfStream?
  }

  /** The messages of the reads that brought one, as callbacks. */
  function Deliveries(log: seq<Completion>): seq<Callback> {
    if log == [] then []
    else Deliveries(Front(log)) + (if Last(log).Got? then [Msg(Last(log).msg)] else [])
  }

  /** The callbacks before the status. */
  function Delivered(s: State): seq<Callback> {
    if s.h.hadMsgCb then Deliveries(s.h.log) else []
  }

  /** The log is the messages delivered, then the status when all is over. */
  ghost predicate Trace(s: State) {
    if Ended(s) && s.h.hadStatusCb then
      && s.h.callbacks != []
      && Front(s.h.callbacks) == Delivered(s)
      && Last(s.h.callbacks).Report?
      && (!SawEnd(s.h) ==> !Last(s.h.callbacks).status.Ok())
    else s.h.callbacks == Delivered(s)
  }

  /** Only the last read may have brought no message, and only when no read is in flight. */
  ghost predicate LogInv(h: History) {
    && (forall i :: 0 <= i < |h.log| - 1 ==> h.log[i].Got?)
    && (h.reading > 0 && h.log != [] ==> Last(h.log).Got?)
  }

  ghost predicate Inv(s: State) {
    && s.h.reading + |s.h.tags| <= 1
    && (!s.isStarted ==> s == NOT_STARTED)
    && s.msgCb == s.h.hadMsgCb
    && (s.h.reading == 1 ==> s.isStarted && s.status.Ok())
    && (s.h.tags != [] ==> s.isStarted && s.status.Ok() && SawEnd(s.h) && s.h.tags[0] == s.h.hadStatusCb)
    && (s.isStarted && s.status.Ok() ==> s.statusCb == s.h.hadStatusCb)
    && (!s.status.Ok() ==> !s.statusCb && Ended(s))
    && (SawEnd(s.h) ==> s.status.Ok())
    && (Ended(s) && s.status.Ok() ==> SawEnd(s.h))
    && LogInv(s.h)
    && Trace(s)
  }

  lemma DeliveriesStep(log: seq<Completion>, c: Completion)
    ensures Deliveries(log + [c]) == Deliveries(log) + (if c.Got? then [Msg(c.msg)] else [])
  {
    assert Front(log + [c]) == log;
  }

  lemma {:induction false} DeliveriesAt(log: seq<Completion>)
    requires forall i :: 0 <= i < |log| - 1 ==> log[i].Got?
    ensures |log| - 1 <= |Deliveries(log)| <= |log|
    ensures log != [] ==> (|Deliveries(log)| == |log| <==> Last(log).Got?)
    ensures forall i :: 0 <= i < |Deliveries(log)| ==> log[i].Got? && Deliveries(log)[i] == Msg(log[i].msg)
  {
    if log != [] {
      DeliveriesAt(Front(log));
      assert |log| > 1 ==> Last(Front(log)) == log[|log| - 2];
    }
  }

  /** Between two reads, before an error or the next read. */
  ghost predicate Between(s: State) {
    && s.isStarted && s.h.reading == 0 && s.h.tags == [] && !SawEnd(s.h)
    && (forall i :: 0 <= i < |s.h.log| - 1 ==> s.h.log[i].Got?)
    && s.msgCb == s.h.hadMsgCb && s.statusCb == s.h.hadStatusCb && s.h.callbacks == Delivered(s)
  }

  lemma ErrorKeepsInv(s: State, error: Status)
    requires !error.Ok() && Between(s)
    ensures Inv(AfterError(s, error))
  {
    hide Deliveries;
  }

  lemma ReadNextKeepsInv(s: State, ok: bool)
    requires Between(s) && s.status.Ok() && (s.h.log != [] ==> Last(s.h.log).Got?)
    ensures Inv(AfterReadNext(s, ok))
  {
    hide Deliveries;
    if !ok {
      ErrorKeepsInv(s, InternalError(ReadStartFailed));
    }
  }

  /** The read of the message is in the log, its callback is not. */
  lemma MsgKeepsInv(s: State, log: seq<Completion>, msg: Message, verdict: Status, ok: bool)
    requires s.isStarted && s.h.reading == 0 && s.h.tags == [] && s.h.log == log + [Got(msg)]
    requires forall i :: 0 <= i < |log| ==> log[i].Got?
    requires s.msgCb == s.h.hadMsgCb && s.statusCb == s.h.hadStatusCb
    requires s.h.callbacks == if s.h.hadMsgCb then Deliveries(log) else []
    ensures Inv(AfterMsg(s, msg, verdict, ok))
  {
    hide Deliveries;
    DeliveriesStep(log, Got(msg));
    var t := s.(status := OK);
    if !t.msgCb {
      ReadNextKeepsInv(t, ok);
    } else if verdict.Ok() {
      ReadNextKeepsInv(Called(t, Msg(msg)).(status := verdict), ok);
    } else {
      ErrorKeepsInv(Called(t, Msg(msg)), verdict);
    }
  }

  lemma OnReadKeepsInv(s: State, completion: Completion, verdict: Status, ok: bool)
    requires Inv(s) && s.h.reading > 0 && (completion.Unparsable? ==> !completion.error.Ok())
    ensures Inv(AfterOnRead(s, completion, verdict, ok))
  {
    hide Deliveries;
    DeliveriesStep(s.h.log, completion);
    var t := s.(h := s.h.(reading := s.h.reading - 1, log := s.h.log + [completion]));
    assert forall i :: 0 <= i < |s.h.log| ==> t.h.log[i] == s.h.log[i] && s.h.log[i].Got?;
    assert Deliveries(s.h.log) + [] == Deliveries(s.h.log);
    match completion
    case Failed => ErrorKeepsInv(t, InternalError(ReadFailed));
    case EndOfStream =>
    case Unparsable(error) => ErrorKeepsInv(t, error);
    case Got(msg) => MsgKeepsInv(t, s.h.log, msg, verdict, ok);
  }

  lemma StartKeepsInv(s: State, hasMsgCb: bool, hasStatusCb: bool, initOk: bool, ok: bool)
    requires Inv(s)
    ensures Inv(AfterStart(s, hasMsgCb, hasStatusCb, initOk, ok))
  {
    assert Deliveries([]) == [];
    hide Deliveries;
    if !s.isStarted {
      var t := s.(isStarted := true, msgCb := hasMsgCb, statusCb := hasStatusCb,
                  h := s.h.(hadMsgCb := hasMsgCb, hadStatusCb := hasStatusCb));
      if initOk {
        ReadNextKeepsInv(Started(t, SendRequest), ok);
      } else {
        ErrorKeepsInv(t, InternalError(ReaderInitFailed));
      }
    }
  }

  lemma StepKeepsInv(s: State, e: Event)
    requires Inv(s) && Enabled(s, e)
    ensures Inv(Step(s, e))
  {
    hide Deliveries;
    match e
    case Start(hasMsgCb, hasStatusCb, initOk, ok) => StartKeepsInv(s, hasMsgCb, hasStatusCb, initOk, ok);
    case OnRead(completion, verdict, ok) => OnReadKeepsInv(s, completion, verdict, ok);
    case OnStatus(success, final) =>
  }

  ghost predicate Feasible(s: State, events: seq<Event>)
    decreases |events|
  {
    events == [] || (Enabled(s, events[0]) && Feasible(Step(s, events[0]), events[1..]))
  }

  ghost function Run(s: State, events: seq<Event>): State
    requires Feasible(s, events)
    decreases |events|
  {
    if events == [] then s else Run(Step(s, events[0]), events[1..])
  }

  lemma {:induction false} RunKeepsInv(s: State, events: seq<Event>)
    requires Inv(s) && Feasible(s, events)
    ensures Inv(Run(s, events))
    decreases |events|
  {
    if events != [] {
      StepKeepsInv(s, events[0]);
      RunKeepsInv(Step(s, events[0]), events[1..]);
    }
  }

  /** The status callback, if there is one, is called exactly once: last, when nothing is in flight any more. */
  ghost predicate ReportsOnce(s: State) {
    var cs := s.h.callbacks;
    && (forall i :: 0 <= i < |cs| && cs[i].Report? ==> i == |cs| - 1)
    && (cs != [] && Last(cs).Report? <==> Ended(s) && s.h.hadStatusCb)
  }

  /** The i-th message delivered is that of the i-th read. */
  ghost predicate DeliversInOrder(s: State) {
    var cs := s.h.callbacks;
    && (forall i :: 0 <= i < |cs| && cs[i].Msg? ==>
          s.h.hadMsgCb && i < |s.h.log| && s.h.log[i] == Got(cs[i].msg))
    && (s.h.hadMsgCb ==> forall i :: 0 <= i < |s.h.log| && s.h.log[i].Got? ==>
          i < |cs| && cs[i] == Msg(s.h.log[i].msg))
  }

  /**
   Every run of one reader: at most one batch of the chain in flight, messages
   delivered in receipt order, and one status report. That the reader still
   holds its copy of the callback after the end of the stream does no harm.
   */
  lemma TraceOfEveryRun(events: seq<Event>)
    requires Feasible(NOT_STARTED, events)
    ensures var s := Run(NOT_STARTED, events);
            s.h.reading + |s.h.tags| <= 1 && ReportsOnce(s) && DeliversInOrder(s)
  {
    StartsHolding();
    RunKeepsInv(NOT_STARTED, events);
    InvGivesTrace(Run(NOT_STARTED, events));
  }

  lemma StartsHolding()
    ensures Inv(NOT_STARTED)
  {
    assert Deliveries([]) == [];
  }

  lemma InvGivesTrace(s: State)
    requires Inv(s)
    ensures ReportsOnce(s) && DeliversInOrder(s)
  {
    DeliveriesAt(s.h.log);
    hide Deliveries;
    var cs, ds := s.h.callbacks, Delivered(s);
    if Ended(s) && s.h.hadStatusCb {
      assert forall i :: 0 <= i < |cs| - 1 ==> cs[i] == Front(cs)[i];
    }
    assert forall i :: 0 <= i < |ds| ==> cs[i] == ds[i];
  }

  /** OK is reported only by a final-status batch, after a read that met the end of the stream. */
  lemma OkMeansEndOfStream(events: seq<Event>)
    requires Feasible(NOT_STARTED, events)
    ensures var s := Run(NOT_STARTED, events);
            s.h.callbacks != [] && Last(s.h.callbacks).Report? && Last(s.h.callbacks).status.Ok() ==>
              SawEnd(s.h) && s.h.reading == 0 && s.status.Ok()
  {
    hide Run, Deliveries;
    StartsHolding();
    RunKeepsInv(NOT_STARTED, events);
    InvGivesTrace(Run(NOT_STARTED, events));
  }

  /** What the client asserts when a read completes: it was started and no error has happened. */
  lemma OnReadAsserts(events: seq<Event>)
    requires Feasible(NOT_STARTED, events) && Run(NOT_STARTED, events).h.reading > 0
    ensures Run(NOT_STARTED, events).isStarted && Run(NOT_STARTED, events).status.Ok()
  {
    StartsHolding();
    RunKeepsInv(NOT_STARTED, events);
  }

  // ---- Tags ----

  predicate IsRead(b: Batch) {
    b.RecvMsg?
  }

  predicate IsStatus(b: Batch) {
    b.RecvStatus?
  }

  /** The StartBatch calls of each step, in order, with gRPC's answers. */
  function StartAttempts(s: State, initOk: bool, ok: bool): seq<Q.Attempt<Batch>> {
    if s.isStarted then []
    else if !initOk then [Q.Attempt(SendRequest, false)]
    else [Q.Attempt(SendRequest, true)] + [Q.Attempt(RecvMsg, ok)]
  }

  function ReadAttempts(s: State, completion: Completion, verdict: Status, ok: bool): seq<Q.Attempt<Batch>> {
    match completion
    case EndOfStream => [Q.Attempt(RecvStatus, ok)]
    case Got(_) => if s.msgCb && !verdict.Ok() then [] else [Q.Attempt(RecvMsg, ok)]
    case _ => []
  }

  function Attempts(s: State, e: Event): seq<Q.Attempt<Batch>> {
    match e
    case Start(_, _, initOk, ok) => StartAttempts(s, initOk, ok)
    case OnRead(completion, verdict, ok) => ReadAttempts(s, completion, verdict, ok)
    case OnStatus(_, _) => []
  }

  /** What an attempt does to the log and to what is in flight. */
  predicate Tried(s: State, t: State, b: Batch, ok: bool) {
    && t.h.batches == s.h.batches + (if ok then [b] else [])
    && t.h.reading == s.h.reading + (if ok && b.RecvMsg? then 1 else 0)
    && |t.h.tags| == |s.h.tags| + (if ok && b.RecvStatus? then 1 else 0)
  }

  ghost predicate Accounts(s: State, t: State, attempts: seq<Q.Attempt<Batch>>) {
    && t.h.batches == s.h.batches + Q.Taken(attempts)
    && t.h.reading == s.h.reading + Q.Count(attempts, IsRead)
    && |t.h.tags| == |s.h.tags| + Q.Count(attempts, IsStatus)
  }

  lemma QuietAccounts(s: State, t: State)
    requires t.h.batches == s.h.batches && t.h.reading == s.h.reading && |t.h.tags| == |s.h.tags|
    ensures Accounts(s, t, [])
  {
    Q.NothingTaken<Batch>(IsRead);
    Q.NothingTaken<Batch>(IsStatus);
  }

  lemma TriedAccounts(s: State, t: State, b: Batch, ok: bool)
    requires Tried(s, t, b, ok)
    ensures Accounts(s, t, [Q.Attempt(b, ok)])
  {
    Q.TakenNoneOrOne(Q.Attempt(b, ok), IsRead);
    Q.TakenNoneOrOne(Q.Attempt(b, ok), IsStatus);
  }

  lemma StartAccounts(s: State, hasMsgCb: bool, hasStatusCb: bool, initOk: bool, ok: bool)
    ensures Accounts(s, AfterStart(s, hasMsgCb, hasStatusCb, initOk, ok), StartAttempts(s, initOk, ok))
  {
    hide Accounts;
    var u := AfterStart(s, hasMsgCb, hasStatusCb, initOk, ok);
    if s.isStarted {
      QuietAccounts(s, s);
    } else if !initOk {
      TriedAccounts(s, u, SendRequest, false);
    } else {
      var t := Started(s, SendRequest);
      TriedAccounts(s, t, SendRequest, true);
      TriedAccounts(t, u, RecvMsg, ok);
      AccountsConcat(s, t, u, [Q.Attempt(SendRequest, true)], [Q.Attempt(RecvMsg, ok)]);
    }
  }

  lemma AccountsConcat(s: State, t: State, u: State, a: seq<Q.Attempt<Batch>>, b: seq<Q.Attempt<Batch>>)
    requires Accounts(s, t, a) && Accounts(t, u, b)
    ensures Accounts(s, u, a + b)
  {
    hide Q.Taken, Q.Count;
    Q.TakenConcat(a, b, IsRead);
    Q.TakenConcat(a, b, IsStatus);
    assert s.h.batches + Q.Taken(a) + Q.Taken(b) == s.h.batches + (Q.Taken(a) + Q.Taken(b));
  }

  /** What the completion that a step handles takes out of flight. */
  function Completed(s: State, e: Event): State
    requires Enabled(s, e)
  {
    match e
    case Start(_, _, _, _) => s
    case OnRead(_, _, _) => s.(h := s.h.(reading := s.h.reading - 1))
    case OnStatus(_, _) => s.(h := s.h.(tags := s.h.tags[1..]))
  }

  /** A read that has brought a message, from where the read is done. */
  lemma MsgAccounts(s: State, msg: Message, verdict: Status, ok: bool)
    ensures Accounts(s, AfterMsg(s, msg, verdict, ok),
                     if s.msgCb && !verdict.Ok() then [] else [Q.Attempt(RecvMsg, ok)])
  {
    hide Accounts;
    var u := AfterMsg(s, msg, verdict, ok);
    if s.msgCb && !verdict.Ok() {
      QuietAccounts(s, u);
    } else {
      TriedAccounts(s, u, RecvMsg, ok);
    }
  }

  lemma OnReadAccounts(s: State, c: Completion, verdict: Status, ok: bool)
    requires s.h.reading > 0
    ensures Accounts(s.(h := s.h.(reading := s.h.reading - 1)), AfterOnRead(s, c, verdict, ok),
                     ReadAttempts(s, c, verdict, ok))
  {
    hide Accounts, AfterMsg, AfterRecvStatus, AfterError;
    var d := s.(h := s.h.(reading := s.h.reading - 1));
    var t := s.(h := s.h.(reading := s.h.reading - 1, log := s.h.log + [c]));
    match c
    case Got(msg) =>
      MsgAccounts(t, msg, verdict, ok);
      SameAccounts(t, d, AfterMsg(t, msg, verdict, ok), ReadAttempts(s, c, verdict, ok));
    case EndOfStream => EndAccounts(t, d, ok);
    case Failed => ErrorAccounts(t, d, InternalError(ReadFailed));
    case Unparsable(error) => ErrorAccounts(t, d, error);
  }

  lemma SameAccounts(s: State, d: State, u: State, attempts: seq<Q.Attempt<Batch>>)
    requires Accounts(s, u, attempts)
    requires d.h.batches == s.h.batches && d.h.reading == s.h.reading && d.h.tags == s.h.tags
    ensures Accounts(d, u, attempts)
  {
  }

  lemma EndAccounts(s: State, d: State, ok: bool)
    requires d.h.batches == s.h.batches && d.h.reading == s.h.reading && d.h.tags == s.h.tags
    ensures Accounts(d, AfterRecvStatus(s, ok), [Q.Attempt(RecvStatus, ok)])
  {
    hide Accounts;
    TriedAccounts(d, AfterRecvStatus(s, ok), RecvStatus, ok);
  }

  lemma ErrorAccounts(s: State, d: State, error: Status)
    requires d.h.batches == s.h.batches && d.h.reading == s.h.reading && d.h.tags == s.h.tags
    ensures Accounts(d, AfterError(s, error), [])
  {
    hide Accounts;
    QuietAccounts(d, AfterError(s, error));
  }

  /** The batches a step starts are those of its attempts that gRPC took, and no others. */
  lemma StepStartsItsAttempts(s: State, e: Event)
    requires Enabled(s, e)
    ensures Accounts(Completed(s, e), Step(s, e), Attempts(s, e))
  {
    hide Accounts;
    match e
    case Start(hasMsgCb, hasStatusCb, initOk, ok) => StartAccounts(s, hasMsgCb, hasStatusCb, initOk, ok);
    case OnRead(completion, verdict, ok) => OnReadAccounts(s, completion, verdict, ok);
    case OnStatus(_, _) => QuietAccounts(Completed(s, e), Step(s, e));
  }

  /** The reader and its tags. */
  datatype Sys = Sys(s: State, q: Q.Queue<Batch>)

  /** A step of the reader, the handler of tag id if it is a completion; or the completion of the init tag. */
  datatype Move = Do(e: Event, id: nat) | Idle(id: nat)

  predicate HasTag(q: Q.Queue<Batch>, id: nat, p: Batch -> bool) {
    id < |q.tags| && p(q.tags[id])
  }

  function TurnOf(s: State, m: Move): Q.Turn<Batch> {
    match m
    case Do(e, id) => Q.Turn(!e.Start?, Attempts(s, e), !e.Start?, id)
    case Idle(id) => Q.Turn(true, [], true, id)
  }

  predicate CanMove(y: Sys, m: Move) {
    match m
    case Do(e, id) =>
      && Enabled(y.s, e)
      && (e.OnRead? ==> id in y.q.outstanding && HasTag(y.q, id, IsRead))
      && (e.OnStatus? ==> id in y.q.outstanding && HasTag(y.q, id, IsStatus))
    case Idle(id) => id in y.q.outstanding && !HasTag(y.q, id, IsRead) && !HasTag(y.q, id, IsStatus)
  }

  function AfterMove(y: Sys, m: Move): Sys
    requires CanMove(y, m)
  {
    Sys(if m.Do? then Step(y.s, m.e) else y.s, Q.AfterTurn(y.q, TurnOf(y.s, m)))
  }

  ghost predicate SysInv(y: Sys) {
    && Inv(y.s) && Q.Inv(y.q) && Q.Settled(y.q) && y.q.completing == {}
    && y.q.log == y.s.h.batches
    && Q.LiveCount(y.q, IsRead) == y.s.h.reading
    && Q.LiveCount(y.q, IsStatus) == |y.s.h.tags|
  }

  lemma MoveKeepsInv(y: Sys, m: Move)
    requires SysInv(y) && CanMove(y, m)
    ensures SysInv(AfterMove(y, m))
  {
    hide Inv, Q.Inv, Q.AfterTurn, Q.LiveCount, Attempts, Step, Q.Taken, Q.Count;
    Q.TurnFacts(y.q, TurnOf(y.s, m), IsRead);
    Q.TurnFacts(y.q, TurnOf(y.s, m), IsStatus);
    if m.Do? {
      StepKeepsInv(y.s, m.e);
      StepStartsItsAttempts(y.s, m.e);
    } else {
      Q.NothingTaken<Batch>(IsRead);
      Q.NothingTaken<Batch>(IsStatus);
    }
  }

  ghost predicate CanMoves(y: Sys, moves: seq<Move>)
    decreases |moves|
  {
    moves == [] || (CanMove(y, moves[0]) && CanMoves(AfterMove(y, moves[0]), moves[1..]))
  }

  ghost function AfterMoves(y: Sys, moves: seq<Move>): Sys
    requires CanMoves(y, moves)
    decreases |moves|
  {
    if moves == [] then y else AfterMoves(AfterMove(y, moves[0]), moves[1..])
  }

  lemma {:induction false} MovesKeepInv(y: Sys, moves: seq<Move>)
    requires SysInv(y) && CanMoves(y, moves)
    ensures SysInv(AfterMoves(y, moves))
    decreases |moves|
  {
    hide SysInv;
    if moves != [] {
      MoveKeepsInv(y, moves[0]);
      MovesKeepInv(AfterMove(y, moves[0]), moves[1..]);
    }
  }

  /**
   In every run: gRPC took exactly the batches in the log, the live read and
   final-status tags are those in flight, and every tag that is not live, refused
   ones included, was freed exactly once.
   */
  lemma TagsOfEveryRun(moves: seq<Move>)
    requires CanMoves(Sys(NOT_STARTED, Q.Empty()), moves)
    ensures var y := AfterMoves(Sys(NOT_STARTED, Q.Empty()), moves);
            && Q.Settled(y.q) && y.q.log == y.s.h.batches
            && Q.LiveCount(y.q, IsRead) == y.s.h.reading
            && Q.LiveCount(y.q, IsStatus) == |y.s.h.tags|
            && forall id: nat :: id < |y.q.tags| ==> multiset(y.q.freed)[id] == if Q.Live(y.q, id) then 0 else 1
  {
    StartsHolding();
    assert Q.LiveIds(Q.Empty(), IsRead) == {} && Q.LiveIds(Q.Empty(), IsStatus) == {};
    MovesKeepInv(Sys(NOT_STARTED, Q.Empty()), moves);
  }

  // ---- The program ----

  /** ClientReaderAsyncRecvStatusCqTag: the tag of the final-status batch. */
  class RecvStatusTag {
    const reader: AsyncReader
    const id: nat
    var statusCb: bool

    constructor (reader: AsyncReader)
      modifies reader.cq
      ensures this.reader == reader && !statusCb && id == |old(reader.cq.q).tags|
      ensures reader.cq.q == Q.AfterAllocate(old(reader.cq.q), RecvStatus)
    {
      var tag := reader.cq.New(RecvStatus);
      this.reader, id, statusCb := reader, tag, false;
    }

    method SetStatusCb(statusCb: bool)
      modifies this
      ensures this.statusCb == statusCb
    {
      this.statusCb := statusCb;
    }

    method Start(ok: bool) returns (taken: bool)
      requires id in reader.cq.q.starting && id < |reader.cq.q.tags|
      modifies reader, reader.cq
      ensures taken == ok && reader.cq.q == Q.AfterHand(old(reader.cq.q), id, ok)
      ensures reader.Value() ==
              if ok then
                var t := Started(old(reader.Value()), RecvStatus); t.(h := t.h.(tags := t.h.tags + [statusCb]))
              else old(reader.Value())
    {
      taken := reader.cq.Start(id, ok);
      if taken {
        reader.h := reader.h.(batches := reader.h.batches + [RecvStatus], tags := reader.h.tags + [statusCb]);
      }
    }

    method DoComplete(success: bool, final: Status)
      requires Inv(reader.Value()) && reader.h.tags != [] && reader.h.tags[0] == statusCb
      modifies reader
      ensures reader.Value() == AfterOnStatus(old(reader.Value()), success, final)
      ensures Inv(reader.Value())
    {
      hide Deliveries;
      StepKeepsInv(reader.Value(), OnStatus(success, final));
      reader.h := reader.h.(tags := reader.h.tags[1..]);
      if !statusCb {
        return;
      }
      if success {
        reader.Call(Report(final));
        return;
      }
      reader.Call(Report(InternalError(RecvStatusFailed)));
    }
  }

  class AsyncReader {
    var isStarted: bool
    var status: Status
    var msgCb: bool
    var statusCb: bool
    const cq: Q.CompletionQueue<Batch>
    ghost var h: History

    ghost function Value(): State
      reads this
    {
      State(isStarted, status, msgCb, statusCb, h)
    }

    constructor (cq: Q.CompletionQueue<Batch>)
      ensures Value() == NOT_STARTED && this.cq == cq
    {
      this.cq := cq;
      isStarted, status, msgCb, statusCb, h := false, OK, false, false, NOT_STARTED.h;
    }

    method Call(c: Callback)
      modifies this`h
      ensures Value() == Called(old(Value()), c)
    {
      h := h.(callbacks := h.callbacks + [c]);
    }

    method Start(hasMsgCb: bool, hasStatusCb: bool, initOk: bool, ok: bool)
      requires Inv(Value())
      modifies this, cq
      ensures Value() == AfterStart(old(Value()), hasMsgCb, hasStatusCb, initOk, ok)
      ensures Inv(Value())
      ensures cq.q == Q.AfterStarters(old(cq.q), StartAttempts(old(Value()), initOk, ok))
    {
      hide Deliveries, StartAttempts, Q.AfterStarter, Q.AfterStarters;
      StartKeepsInv(Value(), hasMsgCb, hasStatusCb, initOk, ok);
      StartStarters(cq.q, Value(), initOk, ok);
      if isStarted {
        return;
      }
      isStarted := true;
      msgCb := hasMsgCb;
      statusCb := hasStatusCb;
      h := h.(hadMsgCb := hasMsgCb, hadStatusCb := hasStatusCb);
      var inited := SendInit(initOk);
      if inited {
        ReadNext(ok);
      }
    }

    lemma StartStarters(q: Q.Queue<Batch>, s: State, initOk: bool, ok: bool)
      ensures Q.AfterStarters(q, StartAttempts(s, initOk, ok)) ==
              if s.isStarted then q
              else
                var a := Q.AfterStarter(q, Q.Attempt(SendRequest, initOk));
                if initOk then Q.AfterStarter(a, Q.Attempt(RecvMsg, ok)) else a
    {
      var a := Q.Attempt(SendRequest, initOk);
      Q.NoneOrOneStarter(q, a);
      Q.NoneOrOneStarter(Q.AfterStarter(q, a), Q.Attempt(RecvMsg, ok));
      Q.StartersConcat(q, [a], [Q.Attempt(RecvMsg, ok)]);
    }

    method OnRead(completion: Completion, verdict: Status, ok: bool)
      requires Inv(Value()) && Enabled(Value(), Event.OnRead(completion, verdict, ok))
      modifies this, cq
      ensures Value() == AfterOnRead(old(Value()), completion, verdict, ok)
      ensures Inv(Value())
      ensures cq.q == Q.AfterStarters(old(cq.q), ReadAttempts(old(Value()), completion, verdict, ok))
    {
      hide Deliveries, ReadAttempts, Q.AfterStarter, Q.AfterStarters;
      OnReadKeepsInv(Value(), completion, verdict, ok);
      ReadStarters(cq.q, Value(), completion, verdict, ok);
      assert isStarted && status.Ok();
      h := h.(reading := h.reading - 1, log := h.log + [completion]);
      match completion {
        case Failed =>
          status := InternalError(ReadFailed);
          CallStatusCb();
        case EndOfStream =>
          RecvFinalStatus(ok);
        case Unparsable(error) =>
          status := error;
          CallStatusCb();
        case Got(msg) =>
          status := OK;
          HandleMsg(msg, verdict, ok);
      }
    }

    lemma ReadStarters(q: Q.Queue<Batch>, s: State, completion: Completion, verdict: Status, ok: bool)
      ensures Q.AfterStarters(q, ReadAttempts(s, completion, verdict, ok)) ==
              if completion.EndOfStream? then Q.AfterStarter(q, Q.Attempt(RecvStatus, ok))
              else if completion.Got? && !(s.msgCb && !verdict.Ok()) then Q.AfterStarter(q, Q.Attempt(RecvMsg, ok))
              else q
    {
      Q.NoneOrOneStarter(q, Q.Attempt(RecvStatus, ok));
      Q.NoneOrOneStarter(q, Q.Attempt(RecvMsg, ok));
    }

    /** The part of OnRead after a message has been parsed. */
    method HandleMsg(msg: Message, verdict: Status, ok: bool)
      requires status == OK
      modifies this, cq
      ensures Value() == AfterMsg(old(Value()), msg, verdict, ok)
      ensures cq.q == if old(msgCb) && !verdict.Ok() then old(cq.q)
                      else Q.AfterStarter(old(cq.q), Q.Attempt(RecvMsg, ok))
    {
      hide Q.AfterStarter;
      if msgCb {
        Call(Msg(msg));
        status := verdict;
        if !status.Ok() {
          CallStatusCb();
          return;
        }
      }
      ReadNext(ok);
    }

    method SendInit(ok: bool) returns (inited: bool)
      requires status.Ok()
      modifies this, cq
      ensures inited == ok
      ensures Value() ==
              if ok then Started(old(Value()), SendRequest)
              else AfterError(old(Value()), InternalError(ReaderInitFailed))
      ensures cq.q == Q.AfterStarter(old(cq.q), Q.Attempt(SendRequest, ok))
    {
      var tag := cq.New(SendRequest);
      inited := cq.Start(tag, ok);
      if inited {
        h := h.(batches := h.batches + [SendRequest]);
        return;
      }
      cq.Delete(tag);
      status := InternalError(ReaderInitFailed);
      CallStatusCb();
    }

    method ReadNext(ok: bool)
      requires status.Ok()
      modifies this, cq
      ensures Value() == AfterReadNext(old(Value()), ok)
      ensures cq.q == Q.AfterStarter(old(cq.q), Q.Attempt(RecvMsg, ok))
    {
      var tag := cq.New(RecvMsg);
      var started := cq.Start(tag, ok);
      if started {
        h := h.(batches := h.batches + [RecvMsg], reading := h.reading + 1);
        return;
      }
      cq.Delete(tag);
      status := InternalError(ReadStartFailed);
      CallStatusCb();
    }

    /** The reader keeps its callback; the tag has a copy, or the callback has been called with an error. */
    method RecvFinalStatus(ok: bool)
      modifies this, cq
      ensures Value() == AfterRecvStatus(old(Value()), ok)
      ensures statusCb == old(statusCb) && status == old(status)
      ensures h.tags == if ok then old(h.tags) + [statusCb] else old(h.tags)
      ensures h.callbacks == old(h.callbacks) +
                             if !ok && statusCb then [Report(InternalError(RecvStatusFailed))] else []
      ensures cq.q == Q.AfterStarter(old(cq.q), Q.Attempt(RecvStatus, ok))
    {
      var tag := new RecvStatusTag(this);
      tag.SetStatusCb(statusCb);
      var taken := tag.Start(ok);
      if taken {
        return;
      }
      cq.Delete(tag.id);
      if statusCb {
        Call(Report(InternalError(RecvStatusFailed)));
      }
    }

    method CallStatusCb()
      modifies this
      ensures Value() == AfterCallStatusCb(old(Value()))
    {
      if !statusCb {
        return;
      }
      Call(Report(status));
      statusCb := false;
    }
  }
}
