/**
 What a bidirectional stream tells its user: the status it reports, whether a
 message was accepted, and which messages it delivers, said in terms of the
 calls and completions and not of the steps that bring it about.
 */
module BidiOutcomes {
  import opened Common
  import opened BidiStream

  // ---- Errors and reports ----

  function ErrorIf(failed: bool, details: Details): Option<Status> {
    if failed then Some(InternalError(details)) else None
  }

  function MetadataError(starts: Starts): Option<Status> {
    if !starts.sendMd then Some(InternalError(SendInitMdFailed)) else ErrorIf(!starts.recvMd, RecvInitMdFailed)
  }

  /** The error of initialising the stream, if this is the first call. */
  function InitError(s: State, starts: Starts): Option<Status> {
    if s.inited then None else MetadataError(starts)
  }

  /** The error that a step brings to a stream that is OK: of everything that goes wrong in it, the first. */
  function ErrorOf(s: State, e: Event): Option<Status> {
    match e
    case Write(_, starts) =>
      if InitError(s, starts).Some? then InitError(s, starts)
      else ErrorIf(!s.writingClosing && s.queue == [] && !starts.op, WriteFailed)
    case CloseWriting(ok) => ErrorIf(!s.writingClosing && s.queue == [] && !ok, CloseFailed)
    case ReadEach(_, starts) =>
      if s.readingStarted then None
      else if InitError(s, starts).Some? then InitError(s, starts)
      else ErrorIf(!starts.op, ReadStartFailed)
    case SetErrorStatus(error) => Some(error)
    case OnSent(success, ok) =>
      if !success then Some(InternalError(SendFailed))
      else if |s.queue| > 1 then ErrorIf(!ok, WriteFailed)
      else ErrorIf(s.writingClosing && !ok, CloseFailed)
    case OnRead(ReadFailed, _) => Some(InternalError(Details.ReadFailed))
    case OnRead(EndOfStream, _) => None
    case OnRead(Unparsable(error), _) => Some(error)
    case OnRead(Got(_), ok) => ErrorIf(!s.msgCb && !ok, ReadStartFailed)
    case CallbackReturns(verdict, ok) =>
      if !verdict.Ok() then Some(verdict) else ErrorIf(!ok, ReadStartFailed)
  }

  /** The completion that ends the second of the two directions: the last message, or the last read. */
  predicate EndsStream(s: State, e: Event) {
    match e
    case OnSent(success, _) => success && |s.queue| == 1 && s.writingClosing && s.readingEnded
    case OnRead(EndOfStream, _) => s.writingEnded
    case _ => false
  }

  /** What a pending status callback is told in a step. */
  function ReportOf(s: State, e: Event): Option<Status> {
    if ErrorOf(s, e).Some? then ErrorOf(s, e) else if EndsStream(s, e) then Some(OK) else None
  }

  /** From s the stream met an error, or it ended, or neither; and a pending callback was told. */
  predicate Meets(s: State, t: State, error: Option<Status>, ends: bool) {
    && t.status == (if error.Some? then error.value else s.status)
    && t.h.fired == s.h.fired + (if s.statusCb && (error.Some? || ends) then [t.status] else [])
    && (error.None? && !ends ==> t.statusCb == s.statusCb)
  }

  lemma MeetsThen(s: State, t: State, u: State, error: Option<Status>, ends: bool)
    requires Meets(s, t, None, false) && Meets(t, u, error, ends)
    ensures Meets(s, u, error, ends)
  {
  }

  lemma ErrorMeets(s: State, error: Status)
    requires !error.Ok()
    ensures Meets(s, AfterEndOnErrorStatus(s, error), Some(error), false)
    ensures Keeps(s, AfterEndOnErrorStatus(s, error))
  {
    hide Quiet, Follows;
  }

  /** Nothing was accepted or delivered. */
  predicate Silent(s: State, t: State) {
    t.msgCb == s.msgCb && t.h.accepted == s.h.accepted && t.h.delivered == s.h.delivered
  }

  /** What starting a batch or ending on an error leaves alone. */
  predicate Keeps(s: State, t: State) {
    && Silent(s, t) && t.queue == s.queue && t.writingClosing == s.writingClosing
    && t.readingStarted == s.readingStarted && t.inCallback == s.inCallback
    && (t.status.Ok() ==> t.readingEnded == s.readingEnded && t.writingEnded == s.writingEnded)
  }

  lemma StartedMeets(s: State, b: Batch)
    ensures Meets(s, Started(s, b), None, false) && Keeps(s, Started(s, b)) && Started(s, b).status == s.status
  {
    hide Quiet, Follows, Tried;
  }

  lemma StartInitMeets(s: State, starts: Starts)
    requires s.status.Ok()
    ensures Meets(s, AfterStartInit(s, starts), MetadataError(starts), false) && Keeps(s, AfterStartInit(s, starts))
  {
    hide AfterEndOnErrorStatus, Started, Quiet, Follows, Tried, Meets, Keeps;
    var a := Started(s, SendInitMd);
    StartedMeets(s, SendInitMd);
    StartedMeets(a, RecvInitMd);
    ErrorMeets(s, InternalError(SendInitMdFailed));
    ErrorMeets(a, InternalError(RecvInitMdFailed));
    var error := InternalError(RecvInitMdFailed);
    KeepsThen(s, a, Started(a, RecvInitMd));
    KeepsThen(s, a, AfterEndOnErrorStatus(a, error));
    MeetsThen(s, a, Started(a, RecvInitMd), None, false);
    MeetsThen(s, a, AfterEndOnErrorStatus(a, error), Some(error), false);
  }

  lemma KeepsThen(s: State, t: State, u: State)
    requires Keeps(s, t) && Keeps(t, u) && (t.status.Ok() || !u.status.Ok())
    ensures Keeps(s, u)
  {
  }

  lemma InitMeets(s: State, starts: Starts)
    requires s.status.Ok()
    ensures Meets(s, AfterInitIfNot(s, starts), InitError(s, starts), false)
    ensures Keeps(s, AfterInitIfNot(s, starts))
  {
    hide AfterStartInit, Quiet, Follows, Tried;
    if !s.inited {
      var t := s.(inited := true);
      assert Meets(s, t, None, false) && Keeps(s, t);
      assert AfterInitIfNot(s, starts) == AfterStartInit(t, starts);
      hide Meets, Keeps;
      StartInitMeets(t, starts);
      MeetsThen(s, t, AfterStartInit(t, starts), InitError(s, starts), false);
      KeepsThen(s, t, AfterStartInit(t, starts));
    }
  }

  lemma SendNextMeets(s: State, ok: bool)
    requires s.queue != []
    ensures Meets(s, AfterSendNext(s, ok), ErrorIf(!ok, WriteFailed), false) && Keeps(s, AfterSendNext(s, ok))
  {
    hide AfterEndOnErrorStatus, Quiet, Follows, Tried;
    ErrorMeets(s, InternalError(WriteFailed));
  }

  lemma ReadNextMeets(s: State, ok: bool)
    ensures Meets(s, AfterReadNext(s, ok), ErrorIf(!ok, ReadStartFailed), false) && Keeps(s, AfterReadNext(s, ok))
  {
    hide AfterEndOnErrorStatus, Quiet, Follows, Tried;
    ErrorMeets(s, InternalError(ReadStartFailed));
  }

  lemma EndWritingMeets(s: State, how: Ending, ok: bool)
    ensures Meets(s, AfterEndWriting(s, how, ok), ErrorIf(!ok, CloseFailed), false)
    ensures Silent(s, AfterEndWriting(s, how, ok))
    ensures ok ==> AfterEndWriting(s, how, ok).readingEnded == s.readingEnded
  {
    hide AfterEndOnErrorStatus, Quiet, Follows, Tried;
    var t := s.(hasSentClose := true, writingEnded := true, h := s.h.(endings := s.h.endings + [how]));
    ErrorMeets(t, InternalError(CloseFailed));
  }

  lemma WriteMeets(s: State, msg: Message, starts: Starts)
    requires Inv(s) && s.status.Ok()
    ensures var (t, taken) := AfterWrite(s, msg, starts);
            && Meets(s, t, ErrorOf(s, Write(msg, starts)), false)
            && (taken <==> InitError(s, starts).None? && !s.writingClosing && (s.queue != [] || starts.op))
            && t.h.accepted == s.h.accepted + (if taken then [msg] else [])
            && t.msgCb == s.msgCb && t.h.delivered == s.h.delivered
  {
    InitMeets(s, starts);
    var t := AfterInitIfNot(s, starts);
    assert t.status.Ok() && !t.writingClosing ==> !t.writingEnded;
    hide AfterInitIfNot, AfterSendNext, Quiet, Follows, Tried, Inv;
    if t.status.Ok() && !t.writingClosing {
      var u := AfterPush(t, msg, starts.op).0;
      var pushed := t.(queue := t.queue + [msg]);
      if t.queue == [] {
        SendNextMeets(pushed, false);
        SendNextMeets(pushed.(h := pushed.h.(accepted := pushed.h.accepted + [msg])), true);
      }
      assert Meets(t, u, ErrorIf(t.queue == [] && !starts.op, WriteFailed), false);
    }
  }

  lemma CloseWritingMeets(s: State, ok: bool)
    requires s.status.Ok()
    ensures Meets(s, AfterCloseWriting(s, ok), ErrorOf(s, CloseWriting(ok)), false)
    ensures Silent(s, AfterCloseWriting(s, ok))
  {
    hide AfterEndWriting, Quiet, Follows, Tried;
    EndWritingMeets(s.(writingClosing := true), ClosedByCloseWriting, ok);
  }

  lemma ReadEachMeets(s: State, hasCb: bool, starts: Starts)
    requires s.status.Ok()
    ensures var t := AfterReadEach(s, hasCb, starts);
            && Meets(s, t, ErrorOf(s, ReadEach(hasCb, starts)), false)
            && t.msgCb == (if SetsCallback(s, ReadEach(hasCb, starts)) then hasCb else s.msgCb)
            && t.h.accepted == s.h.accepted && t.h.delivered == s.h.delivered
  {
    hide AfterInitIfNot, AfterReadNext, Quiet, Follows, Tried;
    if !s.readingStarted {
      var r := s.(readingStarted := true);
      var t := AfterInitIfNot(r, starts);
      InitMeets(r, starts);
      ReadNextMeets(t.(msgCb := hasCb), starts.op);
      assert Meets(s, r, None, false);
    }
  }

  lemma LastSentMeets(s: State, ok: bool)
    ensures Meets(s, AfterLastSent(s, ok), ErrorIf(!ok, CloseFailed), s.readingEnded) && Silent(s, AfterLastSent(s, ok))
  {
    hide AfterEndWriting, Quiet, Follows, Tried;
    EndWritingMeets(s, ClosedByOnSent, ok);
    if !ok {
      EndWritingForgets(s, ClosedByOnSent);
    }
  }

  /** A failed half-close has used up the status callback. */
  lemma EndWritingForgets(s: State, how: Ending)
    ensures !AfterEndWriting(s, how, false).statusCb
  {
    hide Quiet, Follows, Tried;
  }

  lemma OnSentMeets(s: State, success: bool, ok: bool)
    requires s.status.Ok() && s.queue != [] && s.h.sending > 0
    ensures Meets(s, AfterOnSent(s, success, ok), ErrorOf(s, OnSent(success, ok)), EndsStream(s, OnSent(success, ok)))
    ensures Silent(s, AfterOnSent(s, success, ok))
  {
    hide AfterEndOnErrorStatus, AfterSendNext, AfterLastSent, Quiet, Follows, Tried;
    var t := SendDone(s, success);
    ErrorMeets(t, InternalError(SendFailed));
    LastSentMeets(t, ok);
    if t.queue != [] {
      SendNextMeets(t, ok);
    }
  }

  lemma NoMessageMeets(s: State, c: Completion)
    requires !c.Got? && (c.Unparsable? ==> !c.error.Ok())
    ensures Meets(s, AfterNoMessage(s, c), ErrorOf(s, OnRead(c, true)), EndsStream(s, OnRead(c, true)))
    ensures Silent(s, AfterNoMessage(s, c)) && AfterNoMessage(s, c).inCallback == s.inCallback
  {
    hide AfterEndOnErrorStatus, Quiet, Follows, Tried;
    ErrorMeets(s, InternalError(Details.ReadFailed));
    if c.Unparsable? {
      ErrorMeets(s, c.error);
    }
  }

  lemma DeliverMeets(s: State, msg: Message, ok: bool)
    requires s.h.reading > 0
    ensures var t := AfterDeliver(s, msg, ok);
            && Meets(s, t, ErrorIf(!s.msgCb && !ok, ReadStartFailed), false)
            && t.h.delivered == s.h.delivered + (if s.msgCb then [msg] else [])
            && t.msgCb == s.msgCb && t.h.accepted == s.h.accepted && t.inCallback == (s.msgCb || s.inCallback)
  {
    hide AfterReadNext, Quiet, Follows, Tried;
    ReadNextMeets(ReadDone(s), ok);
  }

  lemma OnReadMeets(s: State, c: Completion, ok: bool)
    requires s.status.Ok() && s.h.reading > 0 && (c.Unparsable? ==> !c.error.Ok())
    ensures Meets(s, AfterOnRead(s, c, ok), ErrorOf(s, OnRead(c, ok)), EndsStream(s, OnRead(c, ok)))
    ensures var t := AfterOnRead(s, c, ok);
            && t.h.delivered == s.h.delivered + (if c.Got? && s.msgCb then [c.msg] else [])
            && t.msgCb == s.msgCb && t.h.accepted == s.h.accepted
            && t.inCallback == (s.inCallback || (c.Got? && s.msgCb))
  {
    hide AfterDeliver, AfterNoMessage, Quiet, Follows, Tried;
    var l := Logged(s, c);
    if c.Got? {
      DeliverMeets(l, c.msg, ok);
    } else {
      NoMessageMeets(ReadDone(l), c);
    }
  }

  lemma ReturnMeets(s: State, verdict: Status, ok: bool)
    requires s.status.Ok() && s.h.reading > 0
    ensures Meets(s, AfterCallbackReturns(s, verdict, ok), ErrorOf(s, CallbackReturns(verdict, ok)), false)
    ensures Silent(s, AfterCallbackReturns(s, verdict, ok)) && !AfterCallbackReturns(s, verdict, ok).inCallback
  {
    hide AfterEndOnErrorStatus, AfterReadNext, Quiet, Follows, Tried;
    var t := ReadDone(s).(inCallback := false);
    ReadNextMeets(t, ok);
    if !verdict.Ok() {
      ErrorMeets(t, verdict);
    }
  }

  /**
   Each step of a stream that is OK: what its status becomes, and what the status
   callback is told. The error is reported as it is, not as the status before it.
   */
  lemma StepReports(s: State, e: Event)
    requires Inv(s) && Enabled(s, e) && s.status.Ok()
    ensures var t := Step(s, e);
            && t.status == (if ErrorOf(s, e).Some? then ErrorOf(s, e).value else s.status)
            && t.h.fired == s.h.fired +
                            (if s.statusCb && (ErrorOf(s, e).Some? || EndsStream(s, e)) then [t.status] else [])
  {
    hide Inv, Quiet, Follows, Tried, AfterWrite, AfterCloseWriting, AfterReadEach, AfterEndOnErrorStatus, AfterOnSent;
    hide AfterOnRead, AfterCallbackReturns;
    match e
    case Write(msg, starts) => WriteMeets(s, msg, starts);
    case CloseWriting(ok) => CloseWritingMeets(s, ok);
    case ReadEach(hasCb, starts) => ReadEachMeets(s, hasCb, starts);
    case SetErrorStatus(error) =>
      ErrorMeets(s, error);
    case OnSent(success, ok) => OnSentMeets(s, success, ok);
    case OnRead(c, ok) => OnReadMeets(s, c, ok);
    case CallbackReturns(verdict, ok) => ReturnMeets(s, verdict, ok);
  }

  /** A failed stream keeps its report; only SetErrorStatus replaces its status. */
  lemma FailedStepReports(s: State, e: Event)
    requires Inv(s) && Enabled(s, e) && !s.status.Ok()
    ensures Step(s, e).h.fired == s.h.fired
    ensures Step(s, e).status == if e.SetErrorStatus? then e.error else s.status
  {
    match e
    case OnSent(_, _) => assert !s.statusCb;
    case OnRead(_, _) => assert !s.statusCb;
    case _ =>
  }

  /** The first report that a run calls for. */
  ghost function FirstReport(s: State, events: seq<Event>): Option<Status>
    requires Feasible(s, events)
    decreases |events|
  {
    if events == [] then None
    else if ReportOf(s, events[0]).Some? then ReportOf(s, events[0])
    else FirstReport(Step(s, events[0]), events[1..])
  }

  lemma {:induction false} NothingMoreIsReported(s: State, events: seq<Event>)
    requires Inv(s) && Feasible(s, events) && !s.statusCb
    ensures Run(s, events).h.fired == s.h.fired
    decreases |events|
  {
    hide Inv, Step, ErrorOf;
    if events != [] {
      var t := Step(s, events[0]);
      StepKeepsInv(s, events[0]);
      if s.status.Ok() {
        StepReports(s, events[0]);
      } else {
        FailedStepReports(s, events[0]);
      }
      StaysSpent(s, events[0]);
      NothingMoreIsReported(t, events[1..]);
    }
  }

  lemma StaysSpent(s: State, e: Event)
    requires Inv(s) && Enabled(s, e) && !s.statusCb
    ensures !Step(s, e).statusCb
  {
    StepKeepsInv(s, e);
  }

  /** From a stream whose callback is pending: exactly the first report called for is made. */
  lemma {:induction false} FirstReportIsMade(s: State, events: seq<Event>)
    requires Inv(s) && Feasible(s, events) && s.statusCb && s.status == OK
    ensures var r := FirstReport(s, events);
            Run(s, events).h.fired == s.h.fired + (if r.Some? then [r.value] else [])
    decreases |events|
  {
    hide Inv, Step, ErrorOf, EndsStream;
    if events != [] {
      var e := events[0];
      var t := Step(s, e);
      StepKeepsInv(s, e);
      StepReports(s, e);
      PendingFacts(s);
      PendingFacts(t);
      if ReportOf(s, e).Some? {
        NothingMoreIsReported(t, events[1..]);
      } else {
        FirstReportIsMade(t, events[1..]);
      }
    }
  }

  lemma PendingFacts(s: State)
    requires Inv(s)
    ensures s.statusCb <==> s.h.hadCb && s.h.fired == []
  {
    hide Scan;
  }

  /**
   The one report of a stream, in every run: of its errors and its normal end
   whichever came first, and it says which.
   */
  lemma ReportOfEveryRun(hasCb: bool, events: seq<Event>)
    requires Feasible(Init(hasCb), events)
    ensures var r := FirstReport(Init(hasCb), events);
            Run(Init(hasCb), events).h.fired == if hasCb && r.Some? then [r.value] else []
  {
    InitHolds(hasCb);
    if hasCb {
      FirstReportIsMade(Init(hasCb), events);
    } else {
      NothingMoreIsReported(Init(hasCb), events);
    }
  }

  // ---- What is accepted and delivered ----

  /** Write answers whether the message was taken: true exactly if it is now queued behind those taken before. */
  lemma WriteAnswers(s: State, msg: Message, starts: Starts)
    requires Inv(s)
    ensures var (t, taken) := AfterWrite(s, msg, starts);
            && (taken <==> s.status.Ok() && InitError(s, starts).None? && !s.writingClosing &&
                           (s.queue != [] || starts.op))
            && t.h.accepted == s.h.accepted + (if taken then [msg] else [])
  {
    if s.status.Ok() {
      WriteMeets(s, msg, starts);
    }
  }

  /** The step in which a message callback is set: the first ReadEach of a stream that then is still OK for it. */
  predicate SetsCallback(s: State, e: Event) {
    e.ReadEach? && !s.readingStarted && s.status.Ok() && InitError(s, e.starts).None?
  }

  /** The message that a step hands to the message callback. */
  function DeliveryOf(s: State, e: Event): seq<Message> {
    if e.OnRead? && s.status.Ok() && s.msgCb && e.completion.Got? then [e.completion.msg] else []
  }

  /** A step delivers the message of the read it completes and no other, and only Write accepts. */
  lemma StepDelivers(s: State, e: Event)
    requires Inv(s) && Enabled(s, e)
    ensures var t := Step(s, e);
            && t.h.delivered == s.h.delivered + DeliveryOf(s, e)
            && t.msgCb == (if SetsCallback(s, e) then e.hasCb else s.msgCb)
            && (!e.Write? ==> t.h.accepted == s.h.accepted)
  {
    if s.status.Ok() {
      hide Inv, Quiet, Follows, Tried, AfterWrite, AfterCloseWriting, AfterReadEach, AfterEndOnErrorStatus, AfterOnSent;
      hide AfterOnRead, AfterCallbackReturns;
      match e
      case Write(msg, starts) => WriteMeets(s, msg, starts);
      case CloseWriting(ok) => CloseWritingMeets(s, ok);
      case ReadEach(hasCb, starts) => ReadEachMeets(s, hasCb, starts);
      case SetErrorStatus(error) => ErrorMeets(s, error);
      case OnSent(success, ok) => OnSentMeets(s, success, ok);
      case OnRead(c, ok) => OnReadMeets(s, c, ok);
      case CallbackReturns(verdict, ok) => ReturnMeets(s, verdict, ok);
    } else {
      FailedStepDelivers(s, e);
    }
  }

  lemma FailedStepDelivers(s: State, e: Event)
    requires Inv(s) && Enabled(s, e) && !s.status.Ok()
    ensures Silent(s, Step(s, e))
  {
  }

  ghost function Deliveries(s: State, events: seq<Event>): seq<Message>
    requires Feasible(s, events)
    decreases |events|
  {
    if events == [] then [] else DeliveryOf(s, events[0]) + Deliveries(Step(s, events[0]), events[1..])
  }

  /** In every run the callback got exactly the messages of the reads completed while it was set, in that order. */
  lemma {:induction false} DeliveriesOfEveryRun(s: State, events: seq<Event>)
    requires Inv(s) && Feasible(s, events)
    ensures Run(s, events).h.delivered == s.h.delivered + Deliveries(s, events)
    decreases |events|
  {
    hide Inv, Step, DeliveryOf;
    if events == [] {
      assert s.h.delivered + [] == s.h.delivered;
    } else {
      var t := Step(s, events[0]);
      StepKeepsInv(s, events[0]);
      StepDelivers(s, events[0]);
      DeliveriesOfEveryRun(t, events[1..]);
      var now, later := DeliveryOf(s, events[0]), Deliveries(t, events[1..]);
      assert s.h.delivered + now + later == s.h.delivered + (now + later);
    }
  }

  /** The first ReadEach decides for the rest of the run whether messages are delivered. */
  lemma {:induction false} CallbackIsOfFirstReadEach(s: State, events: seq<Event>)
    requires Inv(s) && Feasible(s, events) && s.readingStarted
    ensures Run(s, events).msgCb == s.msgCb
    decreases |events|
  {
    hide Inv;
    if events != [] {
      StepKeepsInv(s, events[0]);
      StepDelivers(s, events[0]);
      CallbackIsOfFirstReadEach(Step(s, events[0]), events[1..]);
    }
  }
}
