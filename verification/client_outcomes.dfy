/**
 What the client's request stream tells its user: which status and which
 response message the close callback gets, and whether a message was accepted,
 said in terms of the calls and completions.
 */
module ClientOutcomes {
  import opened Common
  import opened ClientWriter

  function ErrorIf(failed: bool, details: Details): Option<Status> {
    if failed then Some(InternalError(details)) else None
  }

  /** What a step makes of an OK status: an error, or in the end the status of the whole call. */
  function VerdictOf(s: State, e: Event): Option<Status> {
    match e
    case Public(Write(_, ok, _)) => ErrorIf(!s.isClosing && s.queue == [] && !ok, WriteFailed)
    case Public(Close(_, ok, _)) => ErrorIf(!s.isClosing && s.queue == [] && !ok, CloseFailed)
    case OnSent(success, ok, _) =>
      if !success then Some(InternalError(SendFailed))
      else if |s.queue| > 1 then ErrorIf(!ok, WriteFailed)
      else ErrorIf(s.isClosing && !ok, CloseFailed)
    case OnClosed(received, response, _, _) => if !received.Ok() then Some(received) else Some(response)
  }

  /** The step after which there is nothing to wait for: a close of a failed stream, or the verdict on a closing one. */
  predicate Concludes(s: State, e: Event) {
    match e
    case Public(Write(_, _, _)) => false
    case Public(Close(_, _, _)) => !s.isClosing && (!s.status.Ok() || VerdictOf(s, e).Some?)
    case _ => s.isClosing && s.status.Ok() && VerdictOf(s, e).Some?
  }

  /** The response comes with the status of a call that ended well; any other report has none. */
  function ResponseOf(e: Event): Message {
    if e.OnClosed? && e.received.Ok() then e.msg else ""
  }

  /** The callback that a step may call: the one it sets, or the one that was set before. */
  predicate HasCallback(s: State, e: Event) {
    if e.Public? && e.call.Close? && !s.isClosing then e.call.hasCb else s.closeCb
  }

  /** The status after a step. */
  function StatusAfter(s: State, e: Event): Status {
    if s.status.Ok() && VerdictOf(s, e).Some? then VerdictOf(s, e).value else s.status
  }

  function ReportsOf(s: State, e: Event): seq<Report> {
    if Concludes(s, e) && HasCallback(s, e) then [Report(StatusAfter(s, e), ResponseOf(e))] else []
  }

  /** Each step: the status it leaves, and the reports it makes, whatever the callback calls. */
  lemma StepReports(s: State, e: Event)
    requires Inv(s) && Enabled(s, e)
    ensures Step(s, e).status == StatusAfter(s, e)
    ensures Step(s, e).h.reports == s.h.reports + ReportsOf(s, e)
  {
    hide PhaseOf, MsgsOf, AfterCalls;
    match e
    case Public(Write(msg, ok, inner)) => WriteReports(s, msg, ok, inner);
    case Public(Close(hasCb, ok, inner)) => CloseReports(s, hasCb, ok, inner);
    case OnSent(success, ok, inner) => SentReports(s, success, ok, inner);
    case OnClosed(received, response, msg, inner) =>
      var t := s.(h := s.h.(closing := s.h.closing - 1));
      CallbackIsHarmless(t.(status := received), "", inner);
      CallbackIsHarmless(t.(status := response), msg, inner);
  }

  lemma WriteReports(s: State, msg: Message, ok: bool, inner: seq<Call>)
    requires Inv(s)
    ensures var t := AfterWrite(s, msg, ok, inner).0;
            t.status == StatusAfter(s, Public(Write(msg, ok, inner))) && t.h.reports == s.h.reports
  {
    hide PhaseOf, MsgsOf, AfterCalls;
    if s.status.Ok() && !s.isClosing && s.queue == [] && !ok {
      var t := s.(queue := s.queue + [msg], status := InternalError(WriteFailed));
      assert AfterWrite(s, msg, ok, inner).0 == AfterTryToCallCloseCb(t, inner) == t;
    }
  }

  lemma CloseReports(s: State, hasCb: bool, ok: bool, inner: seq<Call>)
    requires Inv(s)
    ensures var e := Public(Close(hasCb, ok, inner));
            var t := AfterClose(s, hasCb, ok, inner);
            t.status == StatusAfter(s, e) && t.h.reports == s.h.reports + ReportsOf(s, e)
  {
    hide PhaseOf, MsgsOf, AfterCalls;
    if !s.isClosing {
      var t := s.(isClosing := true, closeCb := hasCb, h := s.h.(asked := hasCb));
      CallbackIsHarmless(t, "", inner);
      CallbackIsHarmless(t.(hasSentClose := true, status := InternalError(CloseFailed)), "", inner);
    }
  }

  lemma SentReports(s: State, success: bool, ok: bool, inner: seq<Call>)
    requires Inv(s) && s.h.sending > 0
    ensures var e := OnSent(success, ok, inner);
            var t := AfterOnSent(s, success, ok, inner);
            t.status == StatusAfter(s, e) && t.h.reports == s.h.reports + ReportsOf(s, e)
  {
    hide PhaseOf, MsgsOf, AfterCalls;
    var t := s.(queue := s.queue[1..],
                h := s.h.(sending := s.h.sending - 1,
                          sentOk := if success then s.h.sentOk + [s.queue[0]] else s.h.sentOk));
    var u := AfterOnSent(s, success, ok, inner);
    if !success {
      CallbackIsHarmless(t.(status := InternalError(SendFailed)), "", inner);
      assert u == AfterTryToCallCloseCb(t.(status := InternalError(SendFailed)), inner);
    } else if t.queue != [] {
      CallbackIsHarmless(t.(status := InternalError(WriteFailed)), "", inner);
      assert u == AfterSendNext(t, ok, inner);
      assert !ok ==> u == AfterTryToCallCloseCb(t.(status := InternalError(WriteFailed)), inner);
    } else if t.isClosing {
      CallbackIsHarmless(t.(hasSentClose := true, status := InternalError(CloseFailed)), "", inner);
      assert u == AfterSendClose(t, ok, inner);
    }
  }

  // ---- Whole runs ----

  ghost function AllReports(s: State, events: seq<Event>): seq<Report>
    requires Feasible(s, events)
    decreases |events|
  {
    if events == [] then [] else ReportsOf(s, events[0]) + AllReports(Step(s, events[0]), events[1..])
  }

  /** The first verdict of a run; nothing comes after it that could change it. */
  ghost function FirstVerdict(s: State, events: seq<Event>): Option<Status>
    requires Feasible(s, events)
    decreases |events|
  {
    if events == [] then None
    else if VerdictOf(s, events[0]).Some? then VerdictOf(s, events[0])
    else FirstVerdict(Step(s, events[0]), events[1..])
  }

  /** There is nothing in flight any more and the stream takes no calls. */
  predicate Over(s: State) {
    !s.status.Ok() || (s.hasSentClose && s.h.closing == 0)
  }

  lemma OverStaysOver(s: State, e: Event)
    requires Inv(s) && Enabled(s, e) && Over(s)
    ensures Over(Step(s, e)) && Step(s, e).status == s.status
  {
    hide PhaseOf, MsgsOf, AfterCalls;
    StepKeepsInv(s, e);
    StepReports(s, e);
    match e
    case Public(Write(msg, ok, inner)) => assert AfterWrite(s, msg, ok, inner).0 == s;
    case Public(Close(hasCb, ok, inner)) => assert s.isClosing ==> AfterClose(s, hasCb, ok, inner) == s;
    case OnSent(_, _, _) => assert false;
    case OnClosed(_, _, _, _) => assert false;
  }

  lemma {:induction false} StatusOfRun(s: State, events: seq<Event>)
    requires Inv(s) && Feasible(s, events)
    ensures Over(s) ==> Run(s, events).status == s.status
    ensures !Over(s) ==>
              var v := FirstVerdict(s, events); Run(s, events).status == if v.Some? then v.value else s.status
    decreases |events|
  {
    hide Inv, Step, VerdictOf, Over;
    if events != [] {
      var t := Step(s, events[0]);
      StepKeepsInv(s, events[0]);
      StatusOfRun(t, events[1..]);
      if Over(s) {
        OverStaysOver(s, events[0]);
      } else {
        VerdictEnds(s, events[0]);
      }
    }
  }

  /** A verdict ends the stream, and a stream that is not over is OK and has no verdict yet. */
  lemma VerdictEnds(s: State, e: Event)
    requires Inv(s) && Enabled(s, e) && !Over(s)
    ensures VerdictOf(s, e).Some? <==> Over(Step(s, e))
    ensures Step(s, e).status == if VerdictOf(s, e).Some? then VerdictOf(s, e).value else s.status
  {
    hide PhaseOf, MsgsOf, AfterCalls;
    StepReports(s, e);
    StepKeepsInv(s, e);
    match e
    case Public(Write(msg, ok, inner)) => assert Step(s, e) == AfterWrite(s, msg, ok, inner).0;
    case Public(Close(hasCb, ok, inner)) => assert Step(s, e) == AfterClose(s, hasCb, ok, inner);
    case OnSent(success, ok, inner) =>
    case OnClosed(received, response, msg, inner) =>
      var t := s.(h := s.h.(closing := s.h.closing - 1));
      CallbackIsHarmless(t.(status := response), msg, inner);
  }

  /** What a report said is the status of the stream from then on. */
  ghost predicate ReportIsStatus(s: State) {
    s.h.reports != [] ==> Over(s) && s.h.reports[0].status == s.status
  }

  lemma {:induction false} ReportsOfRun(s: State, events: seq<Event>)
    requires Inv(s) && Feasible(s, events) && ReportIsStatus(s)
    ensures Run(s, events).h.reports == s.h.reports + AllReports(s, events) && ReportIsStatus(Run(s, events))
    decreases |events|
  {
    if events == [] {
      assert s.h.reports + [] == s.h.reports;
    } else {
      var t := Step(s, events[0]);
      StepKeepsInv(s, events[0]);
      StepReports(s, events[0]);
      ReportConcludes(s, events[0]);
      hide Inv, Step, ReportsOf, ReportIsStatus;
      ReportsOfRun(t, events[1..]);
      var now, later := ReportsOf(s, events[0]), AllReports(t, events[1..]);
      assert s.h.reports + now + later == s.h.reports + (now + later);
    }
  }

  lemma ReportConcludes(s: State, e: Event)
    requires Inv(s) && Enabled(s, e) && ReportIsStatus(s)
    ensures ReportIsStatus(Step(s, e))
  {
    hide PhaseOf, MsgsOf, AfterCalls, Step;
    StepKeepsInv(s, e);
    StepReports(s, e);
    if Over(s) {
      OverStaysOver(s, e);
    } else {
      VerdictEnds(s, e);
    }
  }

  /**
   The status of the stream is the first error, or what the call ended with; and
   the close callback is told that status, with the response of the call that
   ended well, whenever a step concludes a stream that has a callback.
   */
  lemma ReportOfEveryRun(ok: bool, events: seq<Event>)
    requires Feasible(Init(ok), events)
    ensures var s := Run(Init(ok), events);
            var v := if ok then FirstVerdict(Init(ok), events) else Some(InternalError(StreamInitFailed));
            && s.status == (if v.Some? then v.value else OK)
            && s.h.reports == AllReports(Init(ok), events)
            && (s.h.reports != [] ==> s.h.reports[0].status == s.status)
  {
    InitHolds(ok);
    StatusOfRun(Init(ok), events);
    ReportsOfRun(Init(ok), events);
    assert [] + AllReports(Init(ok), events) == AllReports(Init(ok), events);
  }

  /** Write answers whether the message was taken, and then it is the last one accepted. */
  lemma WriteAnswers(s: State, msg: Message, ok: bool, inner: seq<Call>)
    requires Inv(s)
    ensures var (t, taken) := AfterWrite(s, msg, ok, inner);
            && (taken <==> s.status.Ok() && !s.isClosing && (s.queue != [] || ok))
            && t.h.accepted == s.h.accepted + (if taken then [msg] else [])
  {
    hide PhaseOf, MsgsOf, AfterCalls;
    var t := s.(queue := s.queue + [msg]);
    if s.status.Ok() && !s.isClosing && s.queue == [] && !ok {
      assert AfterWrite(s, msg, ok, inner).0 == AfterTryToCallCloseCb(t.(status := InternalError(WriteFailed)), inner);
    }
  }
}
