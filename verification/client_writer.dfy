/**
 The client's request stream (ClientAsyncWriterImpl): messages are sent one at
 a time, Close sends one closing batch after the last of them, and the close
 callback reports the end. The mutex is recursive, so the callback may call
 Write and Close again; those calls run inside the step that fires it.
 */
module ClientWriter {
  import opened Common
  import Q = CompletionQueues

  datatype Batch = SendInitMd | SendMsg(msg: Message) | SendClose

  /**
   A call of a public method. ok: gRPC takes the batch the call starts;
   inner: the calls the close callback makes if this call fires it.
   */
  datatype Call =
    | Write(msg: Message, ok: bool, inner: seq<Call>)
    | Close(hasCb: bool, ok: bool, inner: seq<Call>)

  datatype Event =
    | Public(call: Call)
    | OnSent(success: bool, ok: bool, inner: seq<Call>)
    | OnClosed(received: Status, response: Status, msg: Message, inner: seq<Call>)

  /** One invocation of the close callback. */
  datatype Report = Report(status: Status, msg: Message)

  datatype History = History(
    asked: bool,             // the first Close came with a callback
    accepted: seq<Message>,  // messages for which Write returned true
    batches: seq<Batch>,     // batches that were started
    sentOk: seq<Message>,    // messages whose batch completed successfully
    sending: nat,            // message batches in flight
    closing: nat,            // closing batches in flight
    reports: seq<Report>)

  datatype State = State(
    status: Status,
    isClosing: bool,
    closeCb: bool,
    hasSentClose: bool,
    queue: seq<Message>,
    h: History)

  // ---- The steps ----

  function Init(ok: bool): State {
    State(if ok then OK else InternalError(StreamInitFailed), false, false, false, [],
          History(false, [], if ok then [SendInitMd] else [], [], 0, 0, []))
  }

  function AfterCalls(s: State, calls: seq<Call>): State
    decreases calls, 0
  {
    if calls == [] then s else AfterCalls(AfterCall(s, calls[0]), calls[1..])
  }

  /** The callback runs its own calls while it is still set, and is reset afterwards. */
  function AfterCallCloseCb(s: State, msg: Message, inner: seq<Call>): State
    decreases inner, 1
  {
    if !s.closeCb then s
    else AfterCalls(s.(h := s.h.(reports := s.h.reports + [Report(s.status, msg)])), inner).(closeCb := false)
  }

  function AfterTryToCallCloseCb(s: State, inner: seq<Call>): State
    decreases inner, 2
  {
    if s.isClosing then AfterCallCloseCb(s, "", inner) else s
  }

  function AfterSendNext(s: State, ok: bool, inner: seq<Call>): State
    requires s.queue != []
    decreases inner, 3
  {
    if ok then
      s.(h := s.h.(batches := s.h.batches + [SendMsg(s.queue[0])], sending := s.h.sending + 1))
    else AfterTryToCallCloseCb(s.(status := InternalError(WriteFailed)), inner)
  }

  function AfterSendClose(s: State, ok: bool, inner: seq<Call>): State
    decreases inner, 3
  {
    var t := s.(hasSentClose := true);
    if ok then t.(h := t.h.(batches := t.h.batches + [SendClose], closing := t.h.closing + 1))
    else AfterCallCloseCb(t.(status := InternalError(CloseFailed)), "", inner)
  }

  function AfterWrite(s: State, msg: Message, ok: bool, inner: seq<Call>): (State, bool)
    decreases inner, 4
  {
    if !s.status.Ok() || s.isClosing then (s, false)
    else
      var t := s.(queue := s.queue + [msg]);
      var taken := t.(h := t.h.(accepted := t.h.accepted + [msg]));
      if s.queue != [] then (taken, true)
      else if ok then (AfterSendNext(taken, true, inner), true)
      else (AfterSendNext(t, false, inner), false)
  }

  function AfterClose(s: State, hasCb: bool, ok: bool, inner: seq<Call>): State
    decreases inner, 4
  {
    if s.isClosing then s
    else
      var t := s.(isClosing := true, closeCb := hasCb, h := s.h.(asked := hasCb));
      if !t.status.Ok() then AfterCallCloseCb(t, "", inner)
      else if t.queue == [] then AfterSendClose(t, ok, inner)
      else t
  }

  function AfterCall(s: State, call: Call): State
    decreases call, 5
  {
    match call
    case Write(msg, ok, inner) => AfterWrite(s, msg, ok, inner).0
    case Close(hasCb, ok, inner) => AfterClose(s, hasCb, ok, inner)
  }

  function AfterOnSent(s: State, success: bool, ok: bool, inner: seq<Call>): State
    requires s.queue != [] && s.h.sending > 0
  {
    var sentOk := if success then s.h.sentOk + [s.queue[0]] else s.h.sentOk;
    var t := s.(queue := s.queue[1..], h := s.h.(sending := s.h.sending - 1, sentOk := sentOk));
    if !t.status.Ok() then t
    else if !success then AfterTryToCallCloseCb(t.(status := InternalError(SendFailed)), inner)
    else if t.queue != [] then AfterSendNext(t, ok, inner)
    else if t.isClosing then AfterSendClose(t, ok, inner)
    else t
  }

  /** received: the call's final status; response: whether its one message could be parsed. */
  function AfterOnClosed(s: State, received: Status, response: Status, msg: Message, inner: seq<Call>): State
    requires s.h.closing > 0
  {
    var t := s.(h := s.h.(closing := s.h.closing - 1));
    if !t.status.Ok() then t
    else if !received.Ok() then AfterCallCloseCb(t.(status := received), "", inner)
    else AfterCallCloseCb(t.(status := response), msg, inner)
  }

  predicate Enabled(s: State, e: Event) {
    match e
    case Public(_) => true
    case OnSent(_, _, _) => s.h.sending > 0 && s.queue != []
    case OnClosed(_, _, _, _) => s.h.closing > 0
  }

  function Step(s: State, e: Event): State
    requires Enabled(s, e)
  {
    match e
    case Public(call) => AfterCall(s, call)
    case OnSent(success, ok, inner) => AfterOnSent(s, success, ok, inner)
    case OnClosed(received, response, msg, inner) => AfterOnClosed(s, received, response, msg, inner)
  }

  // ---- Re-entrance ----

  /** Once closing, no call changes anything, however deeply calls and callbacks nest. */
  lemma {:induction false} CallsAfterCloseAreInert(s: State, calls: seq<Call>)
    requires s.isClosing
    ensures AfterCalls(s, calls) == s
    decreases |calls|
  {
    if calls != [] {
      match calls[0] {
        case Write(msg, ok, inner) => assert AfterWrite(s, msg, ok, inner).0 == s;
        case Close(hasCb, ok, inner) => assert AfterClose(s, hasCb, ok, inner) == s;
      }
      assert AfterCall(s, calls[0]) == s;
      CallsAfterCloseAreInert(s, calls[1..]);
    }
  }

  /** So what the callback does inside a step does not matter. */
  lemma CallbackIsHarmless(s: State, msg: Message, inner: seq<Call>)
    requires s.closeCb ==> s.isClosing
    ensures AfterCallCloseCb(s, msg, inner) ==
            (if s.closeCb then s.(closeCb := false, h := s.h.(reports := s.h.reports + [Report(s.status, msg)])) else s)
  {
    if s.closeCb {
      CallsAfterCloseAreInert(s.(h := s.h.(reports := s.h.reports + [Report(s.status, msg)])), inner);
    }
  }

  // ---- The batch order ----

  datatype Phase = Nothing | Streaming | Finished | Broken

  function NextPhase(p: Phase, b: Batch): Phase {
    match (p, b)
    case (Nothing, SendInitMd) => Streaming
    case (Streaming, SendMsg(_)) => Streaming
    case (Streaming, SendClose) => Finished
    case _ => Broken
  }

  /** Reference recogniser: init metadata, messages, one closing batch. */
  function PhaseOf(bs: seq<Batch>): Phase {
    if bs == [] then Nothing else NextPhase(PhaseOf(Front(bs)), Last(bs))
  }

  function MsgsOf(bs: seq<Batch>): seq<Message> {
    if bs == [] then [] else MsgsOf(Front(bs)) + (if Last(bs).SendMsg? then [Last(bs).msg] else [])
  }

  /** The same order said with positions. */
  ghost predicate IsRequestPrefix(bs: seq<Batch>) {
    forall i :: 0 <= i < |bs| ==> (bs[i].SendInitMd? <==> i == 0) && (bs[i].SendClose? ==> i == |bs| - 1)
  }

  lemma LogStep(bs: seq<Batch>, b: Batch)
    ensures PhaseOf(bs + [b]) == NextPhase(PhaseOf(bs), b)
    ensures MsgsOf(bs + [b]) == MsgsOf(bs) + (if b.SendMsg? then [b.msg] else [])
  {
    assert Front(bs + [b]) == bs;
  }

  lemma {:induction false} PhaseIsOrder(bs: seq<Batch>)
    ensures PhaseOf(bs) != Broken <==> IsRequestPrefix(bs)
    ensures PhaseOf(bs) == Nothing ==> bs == []
    ensures PhaseOf(bs) == Streaming ==> bs != [] && !Last(bs).SendClose?
    ensures PhaseOf(bs) == Finished ==> bs != [] && Last(bs).SendClose?
  {
    if bs != [] {
      var n := |bs| - 1;
      PhaseIsOrder(Front(bs));
      assert forall i :: 0 <= i < n ==> bs[i] == Front(bs)[i];
      if IsRequestPrefix(bs) {
        assert IsRequestPrefix(Front(bs));
        assert bs[n] == Last(bs);
        if n > 0 {
          assert bs[n - 1] == Last(Front(bs));
        }
      } else if PhaseOf(Front(bs)) == Streaming || PhaseOf(Front(bs)) == Nothing {
        assert IsRequestPrefix(Front(bs));
        assert n > 0 ==> !Last(Front(bs)).SendClose?;
      }
    }
  }

  // ---- The invariant ----

  ghost predicate SendingInv(s: State) {
    var msgs := MsgsOf(s.h.batches);
    && s.h.sending <= 1
    && (s.status.Ok() ==> (s.h.sending == 1 <==> s.queue != []))
    && (s.h.sending == 1 ==> s.status.Ok())
    && s.h.sentOk <= msgs <= s.h.accepted
    && (s.status.Ok() ==> s.h.accepted == s.h.sentOk + s.queue)
    && (s.status.Ok() ==> msgs == s.h.sentOk + (if s.queue == [] then [] else [s.queue[0]]))
  }

  ghost predicate ClosingInv(s: State) {
    var p := PhaseOf(s.h.batches);
    && p != Broken
    && s.h.closing <= 1
    && (s.h.closing == 1 ==> s.status.Ok() && p == Finished)
    && (s.hasSentClose ==> s.isClosing)
    && (p == Finished ==> s.hasSentClose && s.h.sentOk == s.h.accepted)
    && (s.status.Ok() ==> (s.hasSentClose <==> s.isClosing && s.queue == []))
    && (s.status.Ok() ==> p == (if s.hasSentClose then Finished else Streaming))
  }

  ghost predicate CallbackInv(s: State) {
    && |s.h.reports| <= 1
    && (s.closeCb <==> s.h.asked && s.h.reports == [])
    && (s.h.reports != [] ==> s.h.asked)
    && (s.h.asked ==> s.isClosing)
    && (!s.status.Ok() ==> !s.closeCb)
    && (s.status.Ok() && s.hasSentClose && s.h.closing == 0 ==> !s.closeCb)
    && (s.h.reports != [] && s.h.reports[0].status.Ok() ==>
        PhaseOf(s.h.batches) == Finished && s.h.closing == 0)
    && (s.status.Ok() && s.h.reports != [] ==> s.hasSentClose && s.h.closing == 0)
  }

  ghost predicate Inv(s: State) {
    SendingInv(s) && ClosingInv(s) && CallbackInv(s)
  }

  lemma InitHolds(ok: bool)
    ensures Inv(Init(ok))
  {
    LogStep([], SendInitMd);
    assert [] + [SendInitMd] == [SendInitMd];
  }

  lemma SendNextGivesInv(s: State, ok: bool, inner: seq<Call>)
    requires s.queue != [] && s.status.Ok() && s.h.sending == 0 && s.h.closing == 0
    requires s.h.sentOk == MsgsOf(s.h.batches) && s.h.sentOk <= s.h.accepted
    requires ok ==> s.h.accepted == s.h.sentOk + s.queue
    requires PhaseOf(s.h.batches) == Streaming && !s.hasSentClose && CallbackInv(s)
    ensures Inv(AfterSendNext(s, ok, inner))
  {
    hide PhaseOf, MsgsOf, AfterCalls;
    LogStep(s.h.batches, SendMsg(s.queue[0]));
    CallbackIsHarmless(s.(status := InternalError(WriteFailed)), "", inner);
  }

  lemma SendCloseGivesInv(s: State, ok: bool, inner: seq<Call>)
    requires s.queue == [] && s.status.Ok() && s.h.sending == 0 && s.h.closing == 0
    requires s.h.sentOk == MsgsOf(s.h.batches) == s.h.accepted
    requires PhaseOf(s.h.batches) == Streaming && s.isClosing && !s.hasSentClose && CallbackInv(s)
    ensures Inv(AfterSendClose(s, ok, inner))
  {
    hide PhaseOf, MsgsOf, AfterCalls;
    LogStep(s.h.batches, SendClose);
    CallbackIsHarmless(s.(hasSentClose := true, status := InternalError(CloseFailed)), "", inner);
  }

  lemma WriteKeepsInv(s: State, msg: Message, ok: bool, inner: seq<Call>)
    requires Inv(s)
    ensures Inv(AfterWrite(s, msg, ok, inner).0)
  {
    hide PhaseOf, MsgsOf, AfterCalls;
    if s.status.Ok() && !s.isClosing {
      var t := s.(queue := s.queue + [msg]);
      var taken := t.(h := t.h.(accepted := t.h.accepted + [msg]));
      assert s.h.sentOk + s.queue + [msg] == s.h.sentOk + (s.queue + [msg]);
      if s.queue == [] {
        SendNextGivesInv(if ok then taken else t, ok, inner);
      }
    }
  }

  lemma CloseKeepsInv(s: State, hasCb: bool, ok: bool, inner: seq<Call>)
    requires Inv(s)
    ensures Inv(AfterClose(s, hasCb, ok, inner))
  {
    hide PhaseOf, MsgsOf, AfterCalls;
    if !s.isClosing {
      var t := s.(isClosing := true, closeCb := hasCb, h := s.h.(asked := hasCb));
      if !t.status.Ok() {
        CallbackIsHarmless(t, "", inner);
      } else if t.queue == [] {
        SendCloseGivesInv(t, ok, inner);
      }
    }
  }

  lemma OnSentKeepsInv(s: State, success: bool, ok: bool, inner: seq<Call>)
    requires Inv(s) && s.h.sending > 0
    ensures Inv(AfterOnSent(s, success, ok, inner))
  {
    hide PhaseOf, MsgsOf, AfterCalls;
    var sentOk := if success then s.h.sentOk + [s.queue[0]] else s.h.sentOk;
    var t := s.(queue := s.queue[1..], h := s.h.(sending := s.h.sending - 1, sentOk := sentOk));
    assert s.queue == [s.queue[0]] + s.queue[1..];
    if !success {
      CallbackIsHarmless(t.(status := InternalError(SendFailed)), "", inner);
    } else if t.queue != [] {
      SendNextGivesInv(t, ok, inner);
    } else if t.isClosing {
      SendCloseGivesInv(t, ok, inner);
    }
  }

  lemma OnClosedKeepsInv(s: State, received: Status, response: Status, msg: Message, inner: seq<Call>)
    requires Inv(s) && s.h.closing > 0
    ensures Inv(AfterOnClosed(s, received, response, msg, inner))
  {
    hide PhaseOf, MsgsOf, AfterCalls;
    var t := s.(h := s.h.(closing := s.h.closing - 1));
    CallbackIsHarmless(t.(status := received), "", inner);
    CallbackIsHarmless(t.(status := response), msg, inner);
  }

  lemma StepKeepsInv(s: State, e: Event)
    requires Inv(s) && Enabled(s, e)
    ensures Inv(Step(s, e))
  {
    hide PhaseOf, MsgsOf, AfterCalls;
    match e
    case Public(Write(msg, ok, inner)) => WriteKeepsInv(s, msg, ok, inner);
    case Public(Close(hasCb, ok, inner)) => CloseKeepsInv(s, hasCb, ok, inner);
    case OnSent(success, ok, inner) => OnSentKeepsInv(s, success, ok, inner);
    case OnClosed(received, response, msg, inner) => OnClosedKeepsInv(s, received, response, msg, inner);
  }

  // ---- What holds in every run ----

  ghost predicate Feasible(s: State, events: seq<Event>)
    decreases |events|
  {
    events == [] || (Enabled(s, events[0]) && Feasible(Step(s, events[0]), events[1..]))
  }

  ghost function Run(s: State, events: seq<Event>): State
    requires Feasible(s, events)
    decreases |events|
  {
    if events == [] then s else Run(Step(s, events[0]), events[1..])
  }

  lemma {:induction false} RunKeepsInv(s: State, events: seq<Event>)
    requires Inv(s) && Feasible(s, events)
    ensures Inv(Run(s, events))
    decreases |events|
  {
    if events != [] {
      StepKeepsInv(s, events[0]);
      RunKeepsInv(Step(s, events[0]), events[1..]);
    }
  }

  /**
   The close callback, whatever fails and whatever it calls back: at most one
   report, exactly one once nothing is in flight, and OK only if every accepted
   message was sent successfully before the one closing batch.
   */
  lemma CloseCallbackOfEveryRun(ok: bool, events: seq<Event>)
    requires Feasible(Init(ok), events)
    ensures var s := Run(Init(ok), events);
            && |s.h.reports| <= 1
            && (s.h.reports != [] ==> s.h.asked)
            && (s.h.asked && s.h.sending == 0 && s.h.closing == 0 ==> |s.h.reports| == 1)
            && (s.h.reports != [] && s.h.reports[0].status.Ok() ==>
                && s.h.sentOk == MsgsOf(s.h.batches) == s.h.accepted
                && s.h.batches != [] && Last(s.h.batches).SendClose? && s.h.closing == 0)
  {
    InitHolds(ok);
    RunKeepsInv(Init(ok), events);
    PhaseIsOrder(Run(Init(ok), events).h.batches);
  }

  /** Batches go out in order: init metadata, accepted messages one at a time, one closing batch. */
  lemma BatchOrderOfEveryRun(ok: bool, events: seq<Event>)
    requires Feasible(Init(ok), events)
    ensures var s := Run(Init(ok), events);
            && IsRequestPrefix(s.h.batches)
            && s.h.sending + s.h.closing <= 1
            && s.h.sentOk <= MsgsOf(s.h.batches) <= s.h.accepted
            && (s.status.Ok() ==> s.h.accepted == s.h.sentOk + s.queue)
            && (s.h.batches != [] && Last(s.h.batches).SendClose? ==> s.h.sentOk == s.h.accepted)
  {
    InitHolds(ok);
    RunKeepsInv(Init(ok), events);
    PhaseIsOrder(Run(Init(ok), events).h.batches);
  }

  /** After the first Close, or an error, nothing more is accepted. */
  lemma {:induction false} CloseEndsAccepting(s: State, events: seq<Event>)
    requires Inv(s) && Feasible(s, events) && (s.isClosing || !s.status.Ok())
    ensures Run(s, events).h.accepted == s.h.accepted
    ensures s.isClosing ==> Run(s, events).h.asked == s.h.asked
    decreases |events|
  {
    if events != [] {
      StepEndsAccepting(s, events[0]);
      StepKeepsInv(s, events[0]);
      CloseEndsAccepting(Step(s, events[0]), events[1..]);
    }
  }

  lemma StepEndsAccepting(s: State, e: Event)
    requires Inv(s) && Enabled(s, e) && (s.isClosing || !s.status.Ok())
    ensures var t := Step(s, e);
            && t.h.accepted == s.h.accepted && (t.isClosing || !t.status.Ok())
            && (s.isClosing ==> t.isClosing && t.h.asked == s.h.asked)
  {
    hide PhaseOf, MsgsOf, AfterCalls;
    match e
    case Public(Write(msg, ok, inner)) =>
      assert AfterWrite(s, msg, ok, inner).0 == s;
    case Public(Close(hasCb, ok, inner)) =>
      var t := s.(isClosing := true, closeCb := hasCb, h := s.h.(asked := hasCb));
      CallbackIsHarmless(t, "", inner);
      assert Step(s, e) == AfterClose(s, hasCb, ok, inner);
    case OnSent(success, ok, inner) =>
      var t := s.(queue := s.queue[1..],
                  h := s.h.(sending := s.h.sending - 1,
                            sentOk := if success then s.h.sentOk + [s.queue[0]] else s.h.sentOk));
      if !success {
        CallbackIsHarmless(t.(status := InternalError(SendFailed)), "", inner);
        assert Step(s, e) == AfterTryToCallCloseCb(t.(status := InternalError(SendFailed)), inner);
      } else if t.queue != [] {
        CallbackIsHarmless(t.(status := InternalError(WriteFailed)), "", inner);
        assert Step(s, e) == AfterSendNext(t, ok, inner);
        assert !ok ==> Step(s, e) == AfterTryToCallCloseCb(t.(status := InternalError(WriteFailed)), inner);
      } else if t.isClosing {
        CallbackIsHarmless(t.(hasSentClose := true, status := InternalError(CloseFailed)), "", inner);
        assert Step(s, e) == AfterSendClose(t, ok, inner);
      }
    case OnClosed(received, response, msg, inner) =>
      var t := s.(h := s.h.(closing := s.h.closing - 1));
      CallbackIsHarmless(t.(status := received), "", inner);
      CallbackIsHarmless(t.(status := response), msg, inner);
  }

  // ---- Tags ----

  predicate IsMsg(b: Batch) {
    b.SendMsg?
  }

  predicate IsClose(b: Batch) {
    b.SendClose?
  }

  /** The StartBatch calls of each step, with gRPC's answers; what the callback calls starts nothing. */
  function WriteAttempts(s: State, msg: Message, ok: bool): seq<Q.Attempt<Batch>> {
    if !s.status.Ok() || s.isClosing || s.queue != [] then [] else [Q.Attempt(SendMsg(msg), ok)]
  }

  function CloseAttempts(s: State, ok: bool): seq<Q.Attempt<Batch>> {
    if s.isClosing || !s.status.Ok() || s.queue != [] then [] else [Q.Attempt(SendClose, ok)]
  }

  function SentAttempts(s: State, success: bool, ok: bool): seq<Q.Attempt<Batch>>
    requires s.queue != []
  {
    if !s.status.Ok() || !success then []
    else if s.queue[1..] != [] then [Q.Attempt(SendMsg(s.queue[1..][0]), ok)]
    else if s.isClosing then [Q.Attempt(SendClose, ok)]
    else []
  }

  function Attempts(s: State, e: Event): seq<Q.Attempt<Batch>>
    requires Enabled(s, e)
  {
    match e
    case Public(Write(msg, ok, _)) => WriteAttempts(s, msg, ok)
    case Public(Close(_, ok, _)) => CloseAttempts(s, ok)
    case OnSent(success, ok, _) => SentAttempts(s, success, ok)
    case OnClosed(_, _, _, _) => []
  }

  /** t has in its log what the attempts started, and counts it as in flight. */
  ghost predicate Accounts(s: State, t: State, attempts: seq<Q.Attempt<Batch>>) {
    && t.h.batches == s.h.batches + Q.Taken(attempts)
    && t.h.sending == s.h.sending + Q.Count(attempts, IsMsg)
    && t.h.closing == s.h.closing + Q.Count(attempts, IsClose)
  }

  lemma QuietAccounts(s: State, t: State)
    requires t.h.batches == s.h.batches && t.h.sending == s.h.sending && t.h.closing == s.h.closing
    ensures Accounts(s, t, [])
  {
    Q.NothingTaken<Batch>(IsMsg);
    Q.NothingTaken<Batch>(IsClose);
  }

  lemma TriedAccounts(s: State, t: State, b: Batch, ok: bool)
    requires t.h.batches == s.h.batches + (if ok then [b] else [])
    requires t.h.sending == s.h.sending + (if ok && b.SendMsg? then 1 else 0)
    requires t.h.closing == s.h.closing + (if ok && b.SendClose? then 1 else 0)
    ensures Accounts(s, t, [Q.Attempt(b, ok)])
  {
    Q.TakenNoneOrOne(Q.Attempt(b, ok), IsMsg);
    Q.TakenNoneOrOne(Q.Attempt(b, ok), IsClose);
  }

  lemma SendNextAccounts(s: State, ok: bool, inner: seq<Call>)
    requires s.queue != [] && (s.closeCb ==> s.isClosing)
    ensures Accounts(s, AfterSendNext(s, ok, inner), [Q.Attempt(SendMsg(s.queue[0]), ok)])
  {
    hide AfterCalls, Accounts;
    var t := s.(status := InternalError(WriteFailed));
    CallbackIsHarmless(t, "", inner);
    if !ok {
      assert AfterSendNext(s, ok, inner) == AfterTryToCallCloseCb(t, inner);
      assert AfterTryToCallCloseCb(t, inner) == if t.isClosing then AfterCallCloseCb(t, "", inner) else t;
    }
    TriedAccounts(s, AfterSendNext(s, ok, inner), SendMsg(s.queue[0]), ok);
  }

  lemma SendCloseAccounts(s: State, ok: bool, inner: seq<Call>)
    requires s.isClosing
    ensures Accounts(s, AfterSendClose(s, ok, inner), [Q.Attempt(SendClose, ok)])
  {
    hide AfterCalls, Accounts;
    CallbackIsHarmless(s.(hasSentClose := true, status := InternalError(CloseFailed)), "", inner);
    TriedAccounts(s, AfterSendClose(s, ok, inner), SendClose, ok);
  }

  lemma SameLogAccounts(s: State, s1: State, t: State, attempts: seq<Q.Attempt<Batch>>)
    requires Accounts(s1, t, attempts)
    requires s1.h.batches == s.h.batches && s1.h.sending == s.h.sending && s1.h.closing == s.h.closing
    ensures Accounts(s, t, attempts)
  {
  }

  /** What the completion that a step handles takes out of flight. */
  function Completed(s: State, e: Event): State
    requires Enabled(s, e)
  {
    match e
    case Public(_) => s
    case OnSent(_, _, _) => s.(h := s.h.(sending := s.h.sending - 1))
    case OnClosed(_, _, _, _) => s.(h := s.h.(closing := s.h.closing - 1))
  }

  lemma WriteAccounts(s: State, msg: Message, ok: bool, inner: seq<Call>)
    requires s.closeCb ==> s.isClosing
    ensures Accounts(s, AfterWrite(s, msg, ok, inner).0, WriteAttempts(s, msg, ok))
  {
    hide AfterCalls, Accounts, AfterSendNext;
    var t := s.(queue := s.queue + [msg]);
    var taken := t.(h := t.h.(accepted := t.h.accepted + [msg]));
    var from := if ok then taken else t;
    var u := AfterWrite(s, msg, ok, inner).0;
    if !s.status.Ok() || s.isClosing || s.queue != [] {
      QuietAccounts(s, u);
    } else {
      SendNextAccounts(from, ok, inner);
      SameLogAccounts(s, from, u, WriteAttempts(s, msg, ok));
    }
  }

  lemma CloseAccounts(s: State, hasCb: bool, ok: bool, inner: seq<Call>)
    ensures Accounts(s, AfterClose(s, hasCb, ok, inner), CloseAttempts(s, ok))
  {
    hide AfterCalls, Accounts, AfterSendClose;
    var t := s.(isClosing := true, closeCb := hasCb, h := s.h.(asked := hasCb));
    var u := AfterClose(s, hasCb, ok, inner);
    if s.isClosing || !s.status.Ok() || s.queue != [] {
      CallbackIsHarmless(t, "", inner);
      QuietAccounts(s, u);
    } else {
      SendCloseAccounts(t, ok, inner);
      SameLogAccounts(s, t, u, CloseAttempts(s, ok));
    }
  }

  lemma OnSentAccounts(s: State, success: bool, ok: bool, inner: seq<Call>)
    requires s.queue != [] && s.h.sending > 0 && (s.closeCb ==> s.isClosing)
    ensures Accounts(s.(h := s.h.(sending := s.h.sending - 1)), AfterOnSent(s, success, ok, inner),
                     SentAttempts(s, success, ok))
  {
    hide AfterCalls, Accounts, AfterSendClose, AfterSendNext;
    var d := s.(h := s.h.(sending := s.h.sending - 1));
    var sentOk := if success then s.h.sentOk + [s.queue[0]] else s.h.sentOk;
    var t := s.(queue := s.queue[1..], h := s.h.(sending := s.h.sending - 1, sentOk := sentOk));
    var u := AfterOnSent(s, success, ok, inner);
    if !s.status.Ok() {
      QuietAccounts(d, u);
    } else if !success {
      CallbackIsHarmless(t.(status := InternalError(SendFailed)), "", inner);
      QuietAccounts(d, u);
    } else if t.queue != [] {
      SendNextAccounts(t, ok, inner);
      SameLogAccounts(d, t, u, SentAttempts(s, success, ok));
    } else if t.isClosing {
      SendCloseAccounts(t, ok, inner);
      SameLogAccounts(d, t, u, SentAttempts(s, success, ok));
    } else {
      QuietAccounts(d, u);
    }
  }

  lemma OnClosedAccounts(s: State, received: Status, response: Status, msg: Message, inner: seq<Call>)
    requires s.h.closing > 0 && (s.closeCb ==> s.isClosing)
    ensures Accounts(s.(h := s.h.(closing := s.h.closing - 1)), AfterOnClosed(s, received, response, msg, inner), [])
  {
    hide AfterCalls, Accounts;
    var t := s.(h := s.h.(closing := s.h.closing - 1));
    CallbackIsHarmless(t.(status := received), "", inner);
    CallbackIsHarmless(t.(status := response), msg, inner);
    QuietAccounts(t, AfterOnClosed(s, received, response, msg, inner));
  }

  /** The batches a step starts are those of its attempts that gRPC took, and no others. */
  lemma StepStartsItsAttempts(s: State, e: Event)
    requires Inv(s) && Enabled(s, e)
    ensures Accounts(Completed(s, e), Step(s, e), Attempts(s, e))
  {
    assert s.closeCb ==> s.isClosing;
    hide Accounts, Inv, AfterCalls;
    match e
    case Public(Write(msg, ok, inner)) => WriteAccounts(s, msg, ok, inner);
    case Public(Close(hasCb, ok, inner)) => CloseAccounts(s, hasCb, ok, inner);
    case OnSent(success, ok, inner) => OnSentAccounts(s, success, ok, inner);
    case OnClosed(received, response, msg, inner) => OnClosedAccounts(s, received, response, msg, inner);
  }

  /** The stream and its tags. */
  datatype Sys = Sys(s: State, q: Q.Queue<Batch>)

  /** A step of the stream, the handler of tag id if it is a completion; or the completion of the init tag. */
  datatype Move = Do(e: Event, id: nat) | Idle(id: nat)

  predicate HasTag(q: Q.Queue<Batch>, id: nat, p: Batch -> bool) {
    id < |q.tags| && p(q.tags[id])
  }

  function TurnOf(s: State, m: Move): Q.Turn<Batch>
    requires m.Do? ==> Enabled(s, m.e)
  {
    match m
    case Do(e, id) => Q.Turn(!e.Public?, Attempts(s, e), !e.Public?, id)
    case Idle(id) => Q.Turn(true, [], true, id)
  }

  predicate CanMove(y: Sys, m: Move) {
    match m
    case Do(e, id) =>
      && Enabled(y.s, e)
      && (e.OnSent? ==> id in y.q.outstanding && HasTag(y.q, id, IsMsg))
      && (e.OnClosed? ==> id in y.q.outstanding && HasTag(y.q, id, IsClose))
    case Idle(id) => id in y.q.outstanding && !HasTag(y.q, id, IsMsg) && !HasTag(y.q, id, IsClose)
  }

  function AfterMove(y: Sys, m: Move): Sys
    requires CanMove(y, m)
  {
    Sys(if m.Do? then Step(y.s, m.e) else y.s, Q.AfterTurn(y.q, TurnOf(y.s, m)))
  }

  ghost predicate SysInv(y: Sys) {
    && Inv(y.s) && Q.Inv(y.q) && Q.Settled(y.q) && y.q.completing == {}
    && y.q.log == y.s.h.batches
    && Q.LiveCount(y.q, IsMsg) == y.s.h.sending
    && Q.LiveCount(y.q, IsClose) == y.s.h.closing
  }

  lemma MoveKeepsInv(y: Sys, m: Move)
    requires SysInv(y) && CanMove(y, m)
    ensures SysInv(AfterMove(y, m))
  {
    hide Inv, Q.Inv, Q.AfterTurn, Q.LiveCount, Attempts, Step, Q.Taken, Q.Count;
    Q.TurnFacts(y.q, TurnOf(y.s, m), IsMsg);
    Q.TurnFacts(y.q, TurnOf(y.s, m), IsClose);
    if m.Do? {
      StepKeepsInv(y.s, m.e);
      StepStartsItsAttempts(y.s, m.e);
    } else {
      Q.NothingTaken<Batch>(IsMsg);
      Q.NothingTaken<Batch>(IsClose);
    }
  }

  ghost predicate CanMoves(y: Sys, moves: seq<Move>)
    decreases |moves|
  {
    moves == [] || (CanMove(y, moves[0]) && CanMoves(AfterMove(y, moves[0]), moves[1..]))
  }

  ghost function AfterMoves(y: Sys, moves: seq<Move>): Sys
    requires CanMoves(y, moves)
    decreases |moves|
  {
    if moves == [] then y else AfterMoves(AfterMove(y, moves[0]), moves[1..])
  }

  lemma {:induction false} MovesKeepInv(y: Sys, moves: seq<Move>)
    requires SysInv(y) && CanMoves(y, moves)
    ensures SysInv(AfterMoves(y, moves))
    decreases |moves|
  {
    hide SysInv;
    if moves != [] {
      MoveKeepsInv(y, moves[0]);
      MovesKeepInv(AfterMove(y, moves[0]), moves[1..]);
    }
  }

  /** The constructor has tried to start the init batch. */
  function Begin(ok: bool): Sys {
    Sys(Init(ok), Q.AfterStarter(Q.Empty(), Q.Attempt(SendInitMd, ok)))
  }

  lemma BeginHolds(ok: bool)
    ensures SysInv(Begin(ok))
  {
    InitHolds(ok);
    hide Inv;
    var a := Q.Attempt(SendInitMd, ok);
    assert Q.LiveIds(Q.Empty(), IsMsg) == {} && Q.LiveIds(Q.Empty(), IsClose) == {};
    Q.StartersFacts(Q.Empty(), [a], IsMsg);
    Q.StartersFacts(Q.Empty(), [a], IsClose);
    Q.TakenNoneOrOne(a, IsMsg);
    Q.TakenNoneOrOne(a, IsClose);
    Q.NoneOrOneStarter(Q.Empty(), a);
  }

  /**
   In every run, whatever the close callback calls: gRPC took exactly the batches
   in the log, the live message and closing tags are those in flight, and every
   tag that is not live, refused ones included, was freed exactly once.
   */
  lemma TagsOfEveryRun(ok: bool, moves: seq<Move>)
    requires CanMoves(Begin(ok), moves)
    ensures var y := AfterMoves(Begin(ok), moves);
            && Q.Settled(y.q) && y.q.log == y.s.h.batches
            && Q.LiveCount(y.q, IsMsg) == y.s.h.sending
            && Q.LiveCount(y.q, IsClose) == y.s.h.closing
            && forall id: nat :: id < |y.q.tags| ==> multiset(y.q.freed)[id] == if Q.Live(y.q, id) then 0 else 1
  {
    BeginHolds(ok);
    MovesKeepInv(Begin(ok), moves);
  }

  /** A completed message is always in the queue: the environment is not restricted by that assert. */
  lemma OnSentFindsMessage(s: State, success: bool, ok: bool, inner: seq<Call>)
    requires Inv(s) && s.h.sending > 0
    ensures Enabled(s, OnSent(success, ok, inner))
  {
  }

  // ---- The program ----

  class AsyncWriter {
    var status: Status
    var isClosing: bool
    var closeCb: bool
    var hasSentClose: bool
    var queue: seq<Message>
    const cq: Q.CompletionQueue<Batch>
    ghost var h: History

    ghost function Value(): State
      reads this
    {
      State(status, isClosing, closeCb, hasSentClose, queue, h)
    }

    constructor (ok: bool, cq: Q.CompletionQueue<Batch>)
      modifies cq
      ensures Value() == Init(ok) && this.cq == cq
      ensures cq.q == Q.AfterStarter(old(cq.q), Q.Attempt(SendInitMd, ok))
    {
      this.cq := cq;
      status, isClosing, closeCb, hasSentClose, queue := OK, false, false, false, [];
      h := Init(ok).h;
      new;
      var tag := cq.New(SendInitMd);
      var started := cq.Start(tag, ok);
      if started {
        return;
      }
      cq.Delete(tag);
      status := InternalError(StreamInitFailed);
      assert !isClosing;
    }

    method Write(msg: Message, ok: bool, inner: seq<Call>) returns (accepted: bool)
      requires isClosing || Inv(Value())
      modifies this, cq
      ensures (Value(), accepted) == AfterWrite(old(Value()), msg, ok, inner)
      ensures old(Inv(Value())) ==> Inv(Value())
      ensures cq.q == Q.AfterStarters(old(cq.q), WriteAttempts(old(Value()), msg, ok))
      decreases inner, 4
    {
      hide PhaseOf, MsgsOf, AfterCalls, Q.AfterStarter;
      if Inv(Value()) {
        WriteKeepsInv(Value(), msg, ok, inner);
      }
      Q.NoneOrOneStarter(cq.q, Q.Attempt(SendMsg(msg), ok));
      hide Q.AfterStarters;
      if !status.Ok() {
        return false;
      }
      if isClosing {
        return false;
      }
      var isSending := queue != [];
      queue := queue + [msg];
      if isSending {
        h := h.(accepted := h.accepted + [msg]);
        return true;
      }
      if ok {
        h := h.(accepted := h.accepted + [msg]);
      }
      accepted := SendNext(ok, inner);
    }

    method Close(hasCb: bool, ok: bool, inner: seq<Call>)
      requires isClosing || Inv(Value())
      modifies this, cq
      ensures Value() == AfterClose(old(Value()), hasCb, ok, inner)
      ensures old(Inv(Value())) ==> Inv(Value())
      ensures cq.q == Q.AfterStarters(old(cq.q), CloseAttempts(old(Value()), ok))
      decreases inner, 4
    {
      hide PhaseOf, MsgsOf, AfterCalls, Q.AfterStarter;
      if Inv(Value()) {
        CloseKeepsInv(Value(), hasCb, ok, inner);
      }
      Q.NoneOrOneStarter(cq.q, Q.Attempt(SendClose, ok));
      hide Q.AfterStarters;
      if isClosing {
        return;
      }
      isClosing := true;
      closeCb := hasCb;
      h := h.(asked := hasCb);
      if !status.Ok() {
        CallCloseCb("", inner);
        return;
      }
      if queue == [] {
        SendHalfClose(ok, inner);
      }
    }

    method OnSent(success: bool, ok: bool, inner: seq<Call>)
      requires Inv(Value()) && h.sending > 0
      modifies this, cq
      ensures old(queue) != [] && Value() == AfterOnSent(old(Value()), success, ok, inner)
      ensures Inv(Value())
      ensures cq.q == Q.AfterStarters(old(cq.q), SentAttempts(old(Value()), success, ok))
    {
      hide PhaseOf, MsgsOf, AfterCalls, SentAttempts, Q.AfterStarter, Q.AfterStarters;
      OnSentKeepsInv(Value(), success, ok, inner);
      assert queue != [];
      SentStarters(cq.q, Value(), success, ok);
      h := h.(sending := h.sending - 1, sentOk := if success then h.sentOk + [queue[0]] else h.sentOk);
      queue := queue[1..];
      if !status.Ok() {
        assert false;  // an error leaves no batch in flight
      }
      if !success {
        status := InternalError(SendFailed);
        TryToCallCloseCb(inner);
        return;
      }
      if queue != [] {
        var _ := SendNext(ok, inner);
        return;
      }
      if isClosing {
        SendHalfClose(ok, inner);
      }
    }

    lemma SentStarters(q: Q.Queue<Batch>, s: State, success: bool, ok: bool)
      requires s.queue != []
      ensures Q.AfterStarters(q, SentAttempts(s, success, ok)) ==
              if !s.status.Ok() || !success then q
              else if s.queue[1..] != [] then Q.AfterStarter(q, Q.Attempt(SendMsg(s.queue[1..][0]), ok))
              else if s.isClosing then Q.AfterStarter(q, Q.Attempt(SendClose, ok))
              else q
    {
      if SentAttempts(s, success, ok) != [] {
        Q.NoneOrOneStarter(q, SentAttempts(s, success, ok)[0]);
      }
    }

    method OnClosed(received: Status, response: Status, msg: Message, inner: seq<Call>)
      requires Inv(Value()) && h.closing > 0
      modifies this, cq
      ensures Value() == AfterOnClosed(old(Value()), received, response, msg, inner)
      ensures Inv(Value()) && cq.q == old(cq.q)
      ensures h.reports == old(h.reports) +
                           if !old(closeCb) then []
                           else if received.Ok() then [Report(response, msg)]
                           else [Report(received, "")]
    {
      hide PhaseOf, MsgsOf, AfterCalls;
      OnClosedKeepsInv(Value(), received, response, msg, inner);
      ghost var t := Value().(h := h.(closing := h.closing - 1));
      CallbackIsHarmless(t.(status := received), "", inner);
      CallbackIsHarmless(t.(status := response), msg, inner);
      h := h.(closing := h.closing - 1);
      if !status.Ok() {
        assert false;  // an error leaves no batch in flight
      }
      if !received.Ok() {
        status := received;
        CallCloseCb("", inner);
        return;
      }
      status := response;
      CallCloseCb(msg, inner);
    }

    /** Only the callback makes these calls, so the writer is already closing, and they start nothing. */
    method RunCalls(calls: seq<Call>)
      requires isClosing
      modifies this, cq
      ensures Value() == AfterCalls(old(Value()), calls) == old(Value())
      ensures cq.q == old(cq.q)
      decreases calls, 0
    {
      CallsAfterCloseAreInert(Value(), calls);
      if calls == [] {
        return;
      }
      CallsAfterCloseAreInert(Value(), calls[..1]);
      assert AfterCalls(AfterCall(Value(), calls[0]), calls[..1][1..]) == Value();
      match calls[0] {
        case Write(msg, ok, inner) =>
          var _ := Write(msg, ok, inner);
        case Close(hasCb, ok, inner) =>
          Close(hasCb, ok, inner);
      }
      RunCalls(calls[1..]);
    }

    method CallCloseCb(msg: Message, inner: seq<Call>)
      requires closeCb ==> isClosing
      modifies this, cq
      ensures Value() == AfterCallCloseCb(old(Value()), msg, inner)
      ensures cq.q == old(cq.q)
      decreases inner, 1
    {
      if !closeCb {
        return;
      }
      h := h.(reports := h.reports + [Report(status, msg)]);
      RunCalls(inner);
      closeCb := false;
    }

    method TryToCallCloseCb(inner: seq<Call>)
      requires !status.Ok()
      modifies this, cq
      ensures Value() == AfterTryToCallCloseCb(old(Value()), inner)
      ensures cq.q == old(cq.q)
      decreases inner, 2
    {
      if isClosing {
        CallCloseCb("", inner);
      }
    }

    method SendNext(ok: bool, inner: seq<Call>) returns (started: bool)
      requires queue != [] && status.Ok()
      modifies this, cq
      ensures Value() == AfterSendNext(old(Value()), ok, inner) && started == ok
      ensures cq.q == Q.AfterStarter(old(cq.q), Q.Attempt(SendMsg(old(queue[0])), ok))
      decreases inner, 3
    {
      var tag := cq.New(SendMsg(queue[0]));
      started := cq.Start(tag, ok);
      if started {
        h := h.(batches := h.batches + [SendMsg(queue[0])], sending := h.sending + 1);
        return;
      }
      cq.Delete(tag);
      status := InternalError(WriteFailed);
      TryToCallCloseCb(inner);
    }

    method SendHalfClose(ok: bool, inner: seq<Call>)
      requires isClosing && !hasSentClose && status.Ok()
      modifies this, cq
      ensures Value() == AfterSendClose(old(Value()), ok, inner)
      ensures cq.q == Q.AfterStarter(old(cq.q), Q.Attempt(SendClose, ok))
      decreases inner, 3
    {
      hasSentClose := true;
      var tag := cq.New(SendClose);
      var started := cq.Start(tag, ok);
      if started {
        h := h.(batches := h.batches + [SendClose], closing := h.closing + 1);
        return;
      }
      cq.Delete(tag);
      status := InternalError(CloseFailed);
      CallCloseCb("", inner);
    }
  }
}
