/**
 What the client's response stream tells its user: which messages, and which
 status in the end, said in terms of the calls and completions.
 */
module ClientReadOutcomes {
  import opened Common
  import opened ClientReading

  function ErrorIf(failed: bool, details: Details): Option<Status> {
    if failed then Some(InternalError(details)) else None
  }

  /** The status a step concludes the stream with, if it does. */
  function VerdictOf(s: State, e: Event): Option<Status> {
    match e
    case Start(_, _, initOk, ok) =>
      if s.isStarted then None
      else if !initOk then Some(InternalError(ReaderInitFailed))
      else ErrorIf(!ok, ReadStartFailed)
    case OnRead(Failed, _, _) => Some(InternalError(ReadFailed))
    case OnRead(EndOfStream, _, ok) => ErrorIf(!ok, RecvStatusFailed)
    case OnRead(Unparsable(error), _, _) => Some(error)
    case OnRead(Got(_), verdict, ok) =>
      if s.msgCb && !verdict.Ok() then Some(verdict) else ErrorIf(!ok, ReadStartFailed)
    case OnStatus(success, final) => Some(if success then final else InternalError(RecvStatusFailed))
  }

  /** The callbacks the user has given when the step is over. */
  predicate HasMsgCb(s: State, e: Event) {
    if e.Start? && !s.isStarted then e.hasMsgCb else s.h.hadMsgCb
  }

  predicate HasStatusCb(s: State, e: Event) {
    if e.Start? && !s.isStarted then e.hasStatusCb else s.h.hadStatusCb
  }

  /** The callbacks a step makes: the message it received, then the status it concludes with. */
  function CallbacksOf(s: State, e: Event): seq<Callback> {
    (if e.OnRead? && e.completion.Got? && HasMsgCb(s, e) then [Msg(e.completion.msg)] else []) +
    (if VerdictOf(s, e).Some? && HasStatusCb(s, e) then [Report(VerdictOf(s, e).value)] else [])
  }

  /** t is s after the callbacks, and the stream is concluded if there was a verdict. */
  predicate Calls(s: State, t: State, e: Event) {
    && t.h.callbacks == s.h.callbacks + CallbacksOf(s, e)
    && (t.h.hadMsgCb <==> HasMsgCb(s, e)) && (t.h.hadStatusCb <==> HasStatusCb(s, e))
    && (VerdictOf(s, e).Some? <==> Ended(t) && !Ended(s))
  }

  lemma StartCalls(s: State, e: Event)
    requires Inv(s) && e.Start?
    ensures Calls(s, AfterStart(s, e.hasMsgCb, e.hasStatusCb, e.initOk, e.ok), e)
  {
    hide Deliveries, Trace;
  }

  lemma ReadCalls(s: State, e: Event)
    requires Inv(s) && e.OnRead? && Enabled(s, e)
    ensures Calls(s, AfterOnRead(s, e.completion, e.verdict, e.ok), e)
  {
    hide Deliveries, Trace, LogInv;
    match e.completion
    case Failed =>
    case EndOfStream =>
    case Unparsable(_) =>
    case Got(_) =>
  }

  lemma StatusCalls(s: State, e: Event)
    requires Inv(s) && e.OnStatus? && Enabled(s, e)
    ensures Calls(s, AfterOnStatus(s, e.success, e.final), e)
  {
    hide Deliveries, Trace;
  }

  /** Each step makes exactly these callbacks, and concludes the stream exactly with a verdict. */
  lemma StepCalls(s: State, e: Event)
    requires Inv(s) && Enabled(s, e)
    ensures Calls(s, Step(s, e), e)
  {
    hide Inv, Calls, AfterStart, AfterOnRead, AfterOnStatus;
    match e
    case Start(_, _, _, _) => StartCalls(s, e);
    case OnRead(_, _, _) => ReadCalls(s, e);
    case OnStatus(_, _) => StatusCalls(s, e);
  }

  ghost function AllCallbacks(s: State, events: seq<Event>): seq<Callback>
    requires Feasible(s, events)
    decreases |events|
  {
    if events == [] then [] else CallbacksOf(s, events[0]) + AllCallbacks(Step(s, events[0]), events[1..])
  }

  /** The verdict of a run; there is at most one. */
  ghost function FirstVerdict(s: State, events: seq<Event>): Option<Status>
    requires Feasible(s, events)
    decreases |events|
  {
    if events == [] then None
    else if VerdictOf(s, events[0]).Some? then VerdictOf(s, events[0])
    else FirstVerdict(Step(s, events[0]), events[1..])
  }

  lemma {:induction false} NothingAfterTheEnd(s: State, events: seq<Event>)
    requires Inv(s) && Feasible(s, events) && Ended(s)
    ensures Run(s, events) == s
    decreases |events|
  {
    if events != [] {
      EndedStep(s, events[0]);
      NothingAfterTheEnd(s, events[1..]);
    }
  }

  lemma EndedStep(s: State, e: Event)
    requires Inv(s) && Enabled(s, e) && Ended(s)
    ensures Step(s, e) == s
  {
  }

  lemma {:induction false} CallbacksOfRun(s: State, events: seq<Event>)
    requires Inv(s) && Feasible(s, events) && !Ended(s)
    ensures var t := Run(s, events);
            && t.h.callbacks == s.h.callbacks + AllCallbacks(s, events)
            && (Ended(t) <==> FirstVerdict(s, events).Some?)
            && (Ended(t) && t.h.hadStatusCb ==>
                  t.h.callbacks != [] && Last(t.h.callbacks) == Report(FirstVerdict(s, events).value))
    decreases |events|
  {
    hide Inv, Step, VerdictOf, Ended;
    if events == [] {
      assert s.h.callbacks + [] == s.h.callbacks;
    } else {
      var e, rest := events[0], events[1..];
      var t := Step(s, e);
      StepKeepsInv(s, e);
      StepCalls(s, e);
      if Ended(t) {
        NothingAfterTheEnd(t, rest);
        NoCallbacksAfterTheEnd(t, rest);
        assert CallbacksOf(s, e) + [] == CallbacksOf(s, e);
      } else {
        CallbacksOfRun(t, rest);
        assert s.h.callbacks + CallbacksOf(s, e) + AllCallbacks(t, rest) ==
               s.h.callbacks + (CallbacksOf(s, e) + AllCallbacks(t, rest));
      }
    }
  }

  lemma {:induction false} NoCallbacksAfterTheEnd(s: State, events: seq<Event>)
    requires Inv(s) && Feasible(s, events) && Ended(s)
    ensures AllCallbacks(s, events) == []
    decreases |events|
  {
    if events != [] {
      EndedStep(s, events[0]);
      assert CallbacksOf(s, events[0]) == [];
      NoCallbacksAfterTheEnd(s, events[1..]);
    }
  }

  /**
   In every run the callbacks are those its steps call for; the stream is over
   exactly after a verdict, and the status callback, if given, is told that verdict.
   */
  lemma ReportOfEveryRun(events: seq<Event>)
    requires Feasible(NOT_STARTED, events)
    ensures var s := Run(NOT_STARTED, events);
            var v := FirstVerdict(NOT_STARTED, events);
            && s.h.callbacks == AllCallbacks(NOT_STARTED, events)
            && (Ended(s) <==> v.Some?)
            && (Ended(s) && s.h.hadStatusCb ==> s.h.callbacks != [] && Last(s.h.callbacks) == Report(v.value))
  {
    StartsHolding();
    CallbacksOfRun(NOT_STARTED, events);
    assert [] + AllCallbacks(NOT_STARTED, events) == AllCallbacks(NOT_STARTED, events);
  }

  // ---- The batches ----

  /** The request, n reads, and the final status if it was asked for. */
  function Chain(n: nat, asked: bool): seq<Batch> {
    [SendRequest] + seq(n, _ => RecvMsg) + (if asked then [RecvStatus] else [])
  }

  /** Every read that was started has completed or is in flight; the final status is asked for after the end. */
  ghost predicate BatchesOk(s: State) {
    var n := |s.h.log| + s.h.reading;
    if s.h.batches == [] then n == 0 && s.h.tags == []
    else
      && s.h.batches == Chain(n, RecvStatus in s.h.batches)
      && (RecvStatus in s.h.batches ==> SawEnd(s.h))
      && (s.h.tags != [] ==> RecvStatus in s.h.batches)
  }

  lemma ChainFacts(n: nat)
    ensures RecvStatus !in Chain(n, false) && RecvStatus in Chain(n, true) && Chain(n, false) != []
    ensures Chain(n, false) + [RecvMsg] == Chain(n + 1, false)
    ensures Chain(n, false) + [RecvStatus] == Chain(n, true)
    ensures Chain(0, false) == [SendRequest]
  {
    assert Chain(n, true)[n + 1] == RecvStatus;
  }

  /** The request has been started, then as many reads as have completed, and nothing else. */
  predicate AfterReads(s: State) {
    s.h.reading == 0 && s.h.tags == [] && s.h.batches == Chain(|s.h.log|, false)
  }

  lemma ReadNextBatches(s: State, ok: bool)
    requires AfterReads(s)
    ensures BatchesOk(AfterReadNext(s, ok))
  {
    hide Chain;
    ChainFacts(|s.h.log|);
    ChainFacts(|s.h.log| + 1);
  }

  lemma StartBatches(s: State, e: Event)
    requires Inv(s) && BatchesOk(s) && e.Start?
    ensures BatchesOk(AfterStart(s, e.hasMsgCb, e.hasStatusCb, e.initOk, e.ok))
  {
    hide Deliveries, Trace, Chain, AfterReadNext;
    ChainFacts(0);
    if !s.isStarted && e.initOk {
      var t := s.(isStarted := true, msgCb := e.hasMsgCb, statusCb := e.hasStatusCb,
                  h := s.h.(hadMsgCb := e.hasMsgCb, hadStatusCb := e.hasStatusCb));
      ReadNextBatches(Started(t, SendRequest), e.ok);
    }
  }

  lemma MsgBatches(s: State, msg: Message, verdict: Status, ok: bool)
    requires AfterReads(s)
    ensures BatchesOk(AfterMsg(s, msg, verdict, ok))
  {
    hide Chain, AfterReadNext;
    ChainFacts(|s.h.log|);
    var t := s.(status := OK);
    ReadNextBatches(t, ok);
    ReadNextBatches(Called(t, Msg(msg)).(status := verdict), ok);
  }

  lemma ReadBatches(s: State, e: Event)
    requires Inv(s) && BatchesOk(s) && e.OnRead? && Enabled(s, e)
    ensures BatchesOk(AfterOnRead(s, e.completion, e.verdict, e.ok))
  {
    hide Deliveries, Trace, Chain, AfterMsg;
    ChainFacts(|s.h.log| + s.h.reading);
    var t := s.(h := s.h.(reading := s.h.reading - 1, log := s.h.log + [e.completion]));
    assert AfterReads(t);
    match e.completion
    case Failed =>
    case EndOfStream =>
    case Unparsable(_) =>
    case Got(msg) => MsgBatches(t, msg, e.verdict, e.ok);
  }

  lemma StepKeepsBatches(s: State, e: Event)
    requires Inv(s) && Enabled(s, e) && BatchesOk(s)
    ensures BatchesOk(Step(s, e))
  {
    hide Inv, BatchesOk, AfterStart, AfterOnRead, AfterOnStatus;
    match e
    case Start(_, _, _, _) => StartBatches(s, e);
    case OnRead(_, _, _) => ReadBatches(s, e);
    case OnStatus(_, _) => StatusBatches(s, e);
  }

  lemma StatusBatches(s: State, e: Event)
    requires BatchesOk(s) && e.OnStatus? && Enabled(s, e)
    ensures BatchesOk(AfterOnStatus(s, e.success, e.final))
  {
    hide Chain;
  }

  lemma {:induction false} BatchesOfRun(s: State, events: seq<Event>)
    requires Inv(s) && Feasible(s, events) && BatchesOk(s)
    ensures BatchesOk(Run(s, events))
    decreases |events|
  {
    hide Inv, Step, BatchesOk;
    if events != [] {
      StepKeepsInv(s, events[0]);
      StepKeepsBatches(s, events[0]);
      BatchesOfRun(Step(s, events[0]), events[1..]);
    }
  }

  /** In every run the batches are the request, the reads that completed or are in flight, and the final status. */
  lemma BatchesOfEveryRun(events: seq<Event>)
    requires Feasible(NOT_STARTED, events)
    ensures BatchesOk(Run(NOT_STARTED, events))
  {
    StartsHolding();
    BatchesOfRun(NOT_STARTED, events);
  }
}
