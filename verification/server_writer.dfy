/**
 The server's response stream (ServerWriterImpl): one message batch at a time
 is handed to gRPC, the rest wait in a queue, and closing sends the status
 after the last message.

 Each method that takes the mutex once is one atomic step. Methods that take
 it several times (Write, SyncWrite, SyncClose) are interleaved step by step
 in the module WriterThreads.
 */
module ServerWriter {
  import opened Common
  import Q = CompletionQueues

  datatype Batch =
    | MsgBatch(initMd: bool, msg: Message)
    | StatusBatch(initMd: bool, status: Status)

  /** What has happened so far; the program itself keeps none of this. */
  datatype History = History(
    accepted: seq<Message>,  // messages for which AsyncWrite returned true
    batches: seq<Batch>,     // batches that were started
    inFlight: nat,           // message batches started and not completed
    startFailed: bool)

  datatype State = State(
    closed: bool,
    sendInitMd: bool,
    isSending: bool,
    highQueueSize: nat,
    queue: seq<Message>,
    closeStatus: Option<Status>,
    h: History)

  /** ok says whether the batch the step starts, if any, is taken by gRPC. */
  datatype Event =
    | AsyncWrite(msg: Message, ok: bool)
    | AsyncClose(status: Status, ok: bool)
    | SetHighQueueSize(size: nat)
    | Sent(ok: bool)

  // ---- The steps ----

  function Init(highQueueSize: nat): State {
    State(false, true, false, highQueueSize, [], None, History([], [], 0, false))
  }

  function AfterSendMsg(s: State, msg: Message, ok: bool): State {
    if ok then
      s.(isSending := true, sendInitMd := false,
         h := s.h.(batches := s.h.batches + [MsgBatch(s.sendInitMd, msg)], inFlight := s.h.inFlight + 1))
    else s.(isSending := true, closed := true, queue := [], h := s.h.(startFailed := true))
  }

  function AfterSendStatus(s: State, ok: bool): State
    requires s.closeStatus.Some?
  {
    if ok then
      s.(closed := true,
         h := s.h.(batches := s.h.batches + [StatusBatch(s.sendInitMd, s.closeStatus.value)]))
    else s.(closed := true, h := s.h.(startFailed := true))
  }

  function AfterAsyncWrite(s: State, msg: Message, ok: bool): (State, bool) {
    if s.closed || s.closeStatus.Some? then (s, false)
    else
      var t := s.(h := s.h.(accepted := s.h.accepted + [msg]));
      if s.isSending then (t.(queue := s.queue + [msg]), true)
      else if ok then (AfterSendMsg(t, msg, true), true)
      else (AfterSendMsg(s, msg, false), false)
  }

  function AfterAsyncClose(s: State, status: Status, ok: bool): State {
    if s.closed || s.closeStatus.Some? then s
    else
      var t := s.(closeStatus := Some(status));
      if s.isSending then t else AfterSendStatus(t, ok)
  }

  /**
   The completion of a message batch. When the next message fails to start,
   SendMsg has emptied the queue and nothing is left to pop.
   */
  function AfterTryToWriteNext(s: State, ok: bool): State
    requires s.h.inFlight > 0
  {
    var t := s.(h := s.h.(inFlight := s.h.inFlight - 1));
    if t.closed then t
    else
      var u := t.(isSending := false);
      if u.queue != [] then AfterSendMsg(u.(queue := u.queue[1..]), u.queue[0], ok)
      else if u.closeStatus.Some? then AfterSendStatus(u, ok)
      else u
  }

  predicate Enabled(s: State, e: Event) {
    e.Sent? ==> s.h.inFlight > 0
  }

  function Step(s: State, e: Event): State
    requires Enabled(s, e)
  {
    match e
    case AsyncWrite(msg, ok) => AfterAsyncWrite(s, msg, ok).0
    case AsyncClose(status, ok) => AfterAsyncClose(s, status, ok)
    case SetHighQueueSize(size) => s.(highQueueSize := size)
    case Sent(ok) => AfterTryToWriteNext(s, ok)
  }

  // ---- The response grammar ----

  datatype Phase = Nothing | Streaming | Finished | Broken

  /**
   Reference recogniser of the Responses rule of gRPC over HTTP/2: either
   headers and messages followed by trailers, or headers and trailers alone.
   */
  function NextPhase(p: Phase, b: Batch): Phase {
    match (p, b)
    case (Nothing, MsgBatch(true, _)) => Streaming
    case (Streaming, MsgBatch(false, _)) => Streaming
    case (Nothing, StatusBatch(true, _)) => Finished
    case (Streaming, StatusBatch(false, _)) => Finished
    case _ => Broken
  }

  function PhaseOf(bs: seq<Batch>): Phase {
    if bs == [] then Nothing else NextPhase(PhaseOf(Front(bs)), Last(bs))
  }

  /** The messages among the started batches, in order. */
  function MsgsOf(bs: seq<Batch>): seq<Message> {
    if bs == [] then [] else MsgsOf(Front(bs)) + (if Last(bs).MsgBatch? then [Last(bs).msg] else [])
  }

  /** The same grammar said with positions: init metadata exactly once, in front; the status last. */
  ghost predicate IsResponsePrefix(bs: seq<Batch>) {
    forall i :: 0 <= i < |bs| ==> (bs[i].initMd <==> i == 0) && (bs[i].StatusBatch? ==> i == |bs| - 1)
  }

  lemma LogStep(bs: seq<Batch>, b: Batch)
    ensures PhaseOf(bs + [b]) == NextPhase(PhaseOf(bs), b)
    ensures MsgsOf(bs + [b]) == MsgsOf(bs) + (if b.MsgBatch? then [b.msg] else [])
  {
    assert Front(bs + [b]) == bs;
  }

  lemma {:induction false} PhaseIsGrammar(bs: seq<Batch>)
    ensures PhaseOf(bs) != Broken <==> IsResponsePrefix(bs)
    ensures PhaseOf(bs) == Finished ==> bs != [] && Last(bs).StatusBatch?
    ensures PhaseOf(bs) == Streaming ==> bs != [] && Last(bs).MsgBatch?
    ensures PhaseOf(bs) == Nothing ==> bs == []
  {
    if bs != [] {
      var n := |bs| - 1;
      PhaseIsGrammar(Front(bs));
      assert forall i :: 0 <= i < n ==> bs[i] == Front(bs)[i];
      if IsResponsePrefix(bs) {
        assert IsResponsePrefix(Front(bs));
        assert bs[n] == Last(bs);
        if n > 0 {
          assert bs[n - 1] == Last(Front(bs));
        }
      } else if PhaseOf(Front(bs)) == Streaming || PhaseOf(Front(bs)) == Nothing {
        assert IsResponsePrefix(Front(bs));
        assert n > 0 ==> Last(Front(bs)).MsgBatch?;
      }
    }
  }

  // ---- The invariant ----

  ghost predicate SendingInv(s: State) {
    && s.h.inFlight <= 1
    && (s.closed ==> s.h.inFlight == 0 && s.queue == [])
    && (!s.closed ==> (s.h.inFlight == 1 <==> s.isSending))
    && (!s.isSending ==> s.queue == [])
    && (!s.closed && s.closeStatus.Some? ==> s.isSending)
  }

  ghost predicate PhaseInv(s: State) {
    var p := PhaseOf(s.h.batches);
    && p != Broken
    && (p == Finished <==> s.closed && !s.h.startFailed)
    && (p == Finished ==> s.closeStatus.Some? && Last(s.h.batches).StatusBatch? &&
                          Last(s.h.batches).status == s.closeStatus.value)
    && (p == Nothing ==> s.sendInitMd && s.h.batches == [])
    && (p == Streaming ==> !s.sendInitMd)
    && (p == Finished ==> s.h.batches != [])
    && (s.h.startFailed ==> s.closed)
  }

  ghost predicate ConservationInv(s: State) {
    var msgs := MsgsOf(s.h.batches);
    && msgs <= s.h.accepted
    && (!s.h.startFailed ==> s.h.accepted == msgs + s.queue)
  }

  ghost predicate Inv(s: State) {
    SendingInv(s) && PhaseInv(s) && ConservationInv(s)
  }

  lemma InitHolds(highQueueSize: nat)
    ensures Inv(Init(highQueueSize))
  {
  }

  lemma SendMsgKeepsLog(s: State, msg: Message)
    requires PhaseInv(s) && !s.closed
    ensures PhaseInv(AfterSendMsg(s, msg, true))
    ensures MsgsOf(AfterSendMsg(s, msg, true).h.batches) == MsgsOf(s.h.batches) + [msg]
  {
    LogStep(s.h.batches, MsgBatch(s.sendInitMd, msg));
  }

  lemma SendStatusKeepsInv(s: State, ok: bool)
    requires Inv(s.(closeStatus := None)) && s.closeStatus.Some? && !s.closed && !s.isSending
    ensures Inv(AfterSendStatus(s, ok))
  {
    LogStep(s.h.batches, StatusBatch(s.sendInitMd, s.closeStatus.value));
  }

  lemma AsyncWriteKeepsInv(s: State, msg: Message, ok: bool)
    requires Inv(s)
    ensures Inv(AfterAsyncWrite(s, msg, ok).0)
  {
    hide PhaseOf, MsgsOf;
    if !s.closed {
      SendMsgKeepsLog(s.(h := s.h.(accepted := s.h.accepted + [msg])), msg);
    }
  }

  lemma AsyncCloseKeepsInv(s: State, status: Status, ok: bool)
    requires Inv(s)
    ensures Inv(AfterAsyncClose(s, status, ok))
  {
    hide PhaseOf, MsgsOf;
    if !s.closed && s.closeStatus.None? && !s.isSending {
      assert s.(closeStatus := Some(status)).(closeStatus := None) == s;
      SendStatusKeepsInv(s.(closeStatus := Some(status)), ok);
    }
  }

  lemma TryToWriteNextKeepsInv(s: State, ok: bool)
    requires Inv(s) && s.h.inFlight > 0
    ensures Inv(AfterTryToWriteNext(s, ok))
  {
    hide PhaseOf, MsgsOf;
    var t := s.(isSending := false, h := s.h.(inFlight := s.h.inFlight - 1));
    if t.queue != [] {
      SendMsgKeepsLog(t.(queue := t.queue[1..]), t.queue[0]);
      assert t.queue == [t.queue[0]] + t.queue[1..];
    } else if t.closeStatus.Some? {
      SendStatusKeepsInv(t, ok);
    }
  }

  lemma StepKeepsInv(s: State, e: Event)
    requires Inv(s) && Enabled(s, e)
    ensures Inv(Step(s, e))
  {
    hide PhaseOf, MsgsOf;
    match e
    case AsyncWrite(msg, ok) => AsyncWriteKeepsInv(s, msg, ok);
    case AsyncClose(status, ok) => AsyncCloseKeepsInv(s, status, ok);
    case SetHighQueueSize(size) =>
    case Sent(ok) => TryToWriteNextKeepsInv(s, ok);
  }

  // ---- What holds in every run ----

  ghost predicate Feasible(s: State, events: seq<Event>)
    decreases |events|
  {
    events == [] || (Enabled(s, events[0]) && Feasible(Step(s, events[0]), events[1..]))
  }

  ghost function Run(s: State, events: seq<Event>): State
    requires Feasible(s, events)
    decreases |events|
  {
    if events == [] then s else Run(Step(s, events[0]), events[1..])
  }

  lemma {:induction false} RunKeepsInv(s: State, events: seq<Event>)
    requires Inv(s) && Feasible(s, events)
    ensures Inv(Run(s, events))
    decreases |events|
  {
    if events != [] {
      StepKeepsInv(s, events[0]);
      RunKeepsInv(Step(s, events[0]), events[1..]);
    }
  }

  /** Every run's batches follow the grammar, and are complete exactly when the stream closed cleanly. */
  lemma WireGrammarOfEveryRun(high: nat, events: seq<Event>)
    requires Feasible(Init(high), events)
    ensures var s := Run(Init(high), events);
            && IsResponsePrefix(s.h.batches)
            && s.h.inFlight <= 1
            && (s.closed && !s.h.startFailed <==> s.h.batches != [] && Last(s.h.batches).StatusBatch?)
            && (s.closed ==> s.h.inFlight == 0)
  {
    InitHolds(high);
    RunKeepsInv(Init(high), events);
    PhaseIsGrammar(Run(Init(high), events).h.batches);
  }

  /** Nothing is lost, duplicated or reordered unless a start fails; then the rest is dropped. */
  lemma ConservationOfEveryRun(high: nat, events: seq<Event>)
    requires Feasible(Init(high), events)
    ensures var s := Run(Init(high), events);
            && (!s.h.startFailed ==> s.h.accepted == MsgsOf(s.h.batches) + s.queue)
            && (s.h.startFailed ==> s.closed && MsgsOf(s.h.batches) <= s.h.accepted)
            && (s.closed || !s.isSending ==> s.queue == [])
  {
    InitHolds(high);
    RunKeepsInv(Init(high), events);
  }

  /** One step starts at most one batch, none once closed, and a status only with nothing in flight. */
  lemma OneBatchAtATime(s: State, e: Event)
    requires Inv(s) && Enabled(s, e)
    ensures var t := Step(s, e);
            && (s.closed ==> t.h.batches == s.h.batches)
            && (t.h.batches == s.h.batches ||
                exists b :: t.h.batches == s.h.batches + [b] &&
                            t.h.inFlight == (if b.MsgBatch? then 1 else 0))
  {
    var t := Step(s, e);
    if t.h.batches != s.h.batches {
      assert t.h.batches == s.h.batches + [Last(t.h.batches)];
    }
  }

  // ---- Closing ----

  ghost predicate Closing(s: State) {
    s.closed || s.closeStatus.Some?
  }

  /** Completions still to come before the stream can be closed. */
  function Pending(s: State): nat {
    |s.queue| + s.h.inFlight
  }

  lemma ClosingStep(s: State, e: Event)
    requires Inv(s) && Closing(s) && Enabled(s, e)
    ensures var t := Step(s, e);
            && Closing(t)
            && t.h.accepted == s.h.accepted
            && |t.queue| <= |s.queue|
            && (if e.Sent? then Pending(t) < Pending(s) else Pending(t) == Pending(s))
  {
    hide PhaseOf, MsgsOf;
  }

  function Completions(events: seq<Event>): nat {
    if events == [] then 0 else (if events[0].Sent? then 1 else 0) + Completions(events[1..])
  }

  /**
   After the first close no message is accepted, the queue only shrinks, every
   completion makes progress, and the stream is closed exactly when nothing is
   in flight: so at most |queue| + 1 completions after the close.
   */
  lemma {:induction false} CloseDrains(s: State, events: seq<Event>)
    requires Inv(s) && Closing(s) && Feasible(s, events)
    ensures var t := Run(s, events);
            && t.h.accepted == s.h.accepted
            && |t.queue| <= |s.queue|
            && Completions(events) + Pending(t) <= Pending(s) <= |s.queue| + 1
            && (t.closed <==> t.h.inFlight == 0)
            && (Completions(events) >= Pending(s) ==> t.closed)
            && (t.closed && !t.h.startFailed ==>
                MsgsOf(t.h.batches) == s.h.accepted && t.h.batches != [] && Last(t.h.batches).StatusBatch?)
    decreases |events|
  {
    if events != [] {
      ClosingStep(s, events[0]);
      StepKeepsInv(s, events[0]);
      CloseDrains(Step(s, events[0]), events[1..]);
    }
  }

  // ---- What the caller and the client are told ----

  /** AsyncWrite answers whether the message was taken: not when the stream is closing or the start is refused. */
  lemma AsyncWriteAnswers(s: State, msg: Message, ok: bool)
    ensures var (t, taken) := AfterAsyncWrite(s, msg, ok);
            && (taken <==> !Closing(s) && (s.isSending || ok))
            && t.h.accepted == s.h.accepted + (if taken then [msg] else [])
  {
    assert s.h.accepted + [] == s.h.accepted;
  }

  /** The status the first close asked for is settled. */
  lemma ClosingKeepsStatus(s: State, e: Event)
    requires Enabled(s, e) && Closing(s)
    ensures Step(s, e).closeStatus == s.closeStatus && Closing(Step(s, e))
  {
  }

  lemma {:induction false} StatusIsSettled(s: State, events: seq<Event>)
    requires Feasible(s, events) && Closing(s)
    ensures Run(s, events).closeStatus == s.closeStatus && Closing(Run(s, events))
    decreases |events|
  {
    if events != [] {
      ClosingKeepsStatus(s, events[0]);
      StatusIsSettled(Step(s, events[0]), events[1..]);
    }
  }

  /**
   The client gets the status that the first close gave, however long it had to
   wait behind messages and whatever was called in between: in every run that
   ends closed without a refused start it is in the last batch.
   */
  lemma CloseStatusOfEveryRun(s: State, status: Status, ok: bool, events: seq<Event>)
    requires Inv(s) && !Closing(s) && Feasible(AfterAsyncClose(s, status, ok), events)
    ensures var t := Run(AfterAsyncClose(s, status, ok), events);
            && t.closeStatus == Some(status)
            && (t.closed && !t.h.startFailed ==>
                  t.h.batches != [] && Last(t.h.batches).StatusBatch? && Last(t.h.batches).status == status)
  {
    var c := AfterAsyncClose(s, status, ok);
    AsyncCloseKeepsInv(s, status, ok);
    StatusIsSettled(c, events);
    RunKeepsInv(c, events);
  }

  /**
   A start counts as failed, and what waits is dropped, exactly in a step that
   tries a batch and is refused; a refused step starts nothing.
   */
  lemma OnlyRefusalsFail(s: State, e: Event)
    requires Inv(s) && Enabled(s, e) && !s.h.startFailed
    ensures Step(s, e).h.startFailed <==>
            match e
            case AsyncWrite(_, ok) => !ok && !Closing(s) && !s.isSending
            case AsyncClose(_, ok) => !ok && !Closing(s) && !s.isSending
            case SetHighQueueSize(_) => false
            case Sent(ok) => !ok && (s.queue != [] || Closing(s))
    ensures Step(s, e).h.startFailed ==>
              Step(s, e).closed && Step(s, e).queue == [] && Step(s, e).h.batches == s.h.batches
  {
    hide PhaseOf, MsgsOf;
  }

  /** The mark is the one set last; SendMsg always ends with what TryToWriteNext asserts next. */
  lemma MarkAndSending(s: State, e: Event, msg: Message, ok: bool)
    requires Enabled(s, e)
    ensures Step(s, e).highQueueSize == if e.SetHighQueueSize? then e.size else s.highQueueSize
    ensures AfterSendMsg(s, msg, ok).isSending
  {
  }

  /**
   The pop in TryToWriteNext (server_writer_impl.cpp:100) finds a message in
   the queue that SendMsg leaves behind exactly when the batch was started.
   */
  lemma PopFindsMessageIff(s: State, ok: bool)
    requires Inv(s) && s.h.inFlight > 0 && s.queue != []
    ensures AfterSendMsg(s.(isSending := false), s.queue[0], ok).queue != [] <==> ok
  {
  }

  /** From the start: the second of two messages fails to start, and SendMsg has left nothing to pop. */
  lemma PopCanFindNothing(high: nat)
    ensures var events := [AsyncWrite("a", true), AsyncWrite("b", true)];
            Feasible(Init(high), events) &&
            var s := Run(Init(high), events);
            && s.queue == ["b"] && s.h.inFlight == 1
            && AfterSendMsg(s.(isSending := false), s.queue[0], false).queue == []
  {
    var a, b := AsyncWrite("a", true), AsyncWrite("b", true);
    var s1 := Step(Init(high), a);
    var s2 := Step(s1, b);
    assert [a, b][1..] == [b] && [b][1..] == [];
    assert Feasible(s2, []);
    assert Feasible(s1, [b]) && Run(s1, [b]) == s2;
    assert Feasible(Init(high), [a, b]) && Run(Init(high), [a, b]) == s2;
  }

  // ---- Tags ----

  predicate IsMsg(b: Batch) {
    b.MsgBatch?
  }

  /** What follows a completed message: the next one, or the status if the stream is closing. */
  function NextAttempts(s: State, ok: bool): seq<Q.Attempt<Batch>> {
    if s.closed then []
    else if s.queue != [] then [Q.Attempt(MsgBatch(s.sendInitMd, s.queue[0]), ok)]
    else if s.closeStatus.Some? then [Q.Attempt(StatusBatch(s.sendInitMd, s.closeStatus.value), ok)]
    else []
  }

  /** The StartBatch calls of each step, with gRPC's answers. */
  function Attempts(s: State, e: Event): seq<Q.Attempt<Batch>> {
    var idle := !s.closed && s.closeStatus.None? && !s.isSending;
    match e
    case AsyncWrite(msg, ok) => if idle then [Q.Attempt(MsgBatch(s.sendInitMd, msg), ok)] else []
    case AsyncClose(status, ok) => if idle then [Q.Attempt(StatusBatch(s.sendInitMd, status), ok)] else []
    case SetHighQueueSize(_) => []
    case Sent(ok) => NextAttempts(s, ok)
  }

  /** The batches a step starts are those of its attempts that gRPC took, and no others. */
  lemma StepStartsItsAttempts(s: State, e: Event)
    requires Enabled(s, e)
    ensures var t := Step(s, e);
            && t.h.batches == s.h.batches + Q.Taken(Attempts(s, e))
            && t.h.inFlight == s.h.inFlight + Q.Count(Attempts(s, e), IsMsg) - (if e.Sent? then 1 else 0)
  {
    assert s.h.batches + [] == s.h.batches;
    if Attempts(s, e) != [] {
      Q.TakenNoneOrOne(Attempts(s, e)[0], IsMsg);
    }
  }

  /** The stream and its tags. */
  datatype Sys = Sys(s: State, q: Q.Queue<Batch>)

  /** A step of the stream, the handler of tag id if it is Sent; or the completion of a status tag. */
  datatype Move = Do(e: Event, id: nat) | Idle(id: nat)

  predicate IsMsgTag(q: Q.Queue<Batch>, id: nat) {
    id < |q.tags| && q.tags[id].MsgBatch?
  }

  function TurnOf(s: State, m: Move): Q.Turn<Batch> {
    match m
    case Do(e, id) => Q.Turn(e.Sent?, Attempts(s, e), e.Sent?, id)
    case Idle(id) => Q.Turn(true, [], true, id)
  }

  predicate CanMove(y: Sys, m: Move) {
    match m
    case Do(e, id) => Enabled(y.s, e) && (e.Sent? ==> id in y.q.outstanding && IsMsgTag(y.q, id))
    case Idle(id) => id in y.q.outstanding && !IsMsgTag(y.q, id)
  }

  function AfterMove(y: Sys, m: Move): Sys
    requires CanMove(y, m)
  {
    Sys(if m.Do? then Step(y.s, m.e) else y.s, Q.AfterTurn(y.q, TurnOf(y.s, m)))
  }

  ghost predicate SysInv(y: Sys) {
    && Inv(y.s) && Q.Inv(y.q) && Q.Settled(y.q) && y.q.completing == {}
    && y.q.log == y.s.h.batches && Q.LiveCount(y.q, IsMsg) == y.s.h.inFlight
  }

  lemma MoveKeepsInv(y: Sys, m: Move)
    requires SysInv(y) && CanMove(y, m)
    ensures SysInv(AfterMove(y, m))
  {
    hide Inv, Q.Inv, Q.AfterTurn, Q.LiveCount, Attempts, Step, Q.Taken, Q.Count;
    Q.TurnFacts(y.q, TurnOf(y.s, m), IsMsg);
    if m.Do? {
      StepKeepsInv(y.s, m.e);
      StepStartsItsAttempts(y.s, m.e);
    } else {
      Q.NothingTaken<Batch>(IsMsg);
    }
  }

  ghost predicate CanMoves(y: Sys, moves: seq<Move>)
    decreases |moves|
  {
    moves == [] || (CanMove(y, moves[0]) && CanMoves(AfterMove(y, moves[0]), moves[1..]))
  }

  ghost function AfterMoves(y: Sys, moves: seq<Move>): Sys
    requires CanMoves(y, moves)
    decreases |moves|
  {
    if moves == [] then y else AfterMoves(AfterMove(y, moves[0]), moves[1..])
  }

  lemma {:induction false} MovesKeepInv(y: Sys, moves: seq<Move>)
    requires SysInv(y) && CanMoves(y, moves)
    ensures SysInv(AfterMoves(y, moves))
    decreases |moves|
  {
    hide SysInv;
    if moves != [] {
      MoveKeepsInv(y, moves[0]);
      MovesKeepInv(AfterMove(y, moves[0]), moves[1..]);
    }
  }

  /**
   In every run: gRPC took exactly the batches in the log, the live message tags
   are those in flight, and every tag that is not live, refused ones included,
   was freed exactly once.
   */
  lemma TagsOfEveryRun(high: nat, moves: seq<Move>)
    requires CanMoves(Sys(Init(high), Q.Empty()), moves)
    ensures var y := AfterMoves(Sys(Init(high), Q.Empty()), moves);
            && Q.Settled(y.q) && y.q.log == y.s.h.batches
            && Q.LiveCount(y.q, IsMsg) == y.s.h.inFlight
            && forall id: nat :: id < |y.q.tags| ==> multiset(y.q.freed)[id] == if Q.Live(y.q, id) then 0 else 1
  {
    InitHolds(high);
    assert Q.LiveIds(Q.Empty(), IsMsg) == {};
    MovesKeepInv(Sys(Init(high), Q.Empty()), moves);
  }

  // ---- The program ----

  class Writer {
    var closed: bool
    var sendInitMd: bool
    var isSending: bool
    var highQueueSize: nat
    var queue: seq<Message>
    var closeStatus: Option<Status>
    const cq: Q.CompletionQueue<Batch>
    ghost var h: History

    ghost function Value(): State
      reads this
    {
      State(closed, sendInitMd, isSending, highQueueSize, queue, closeStatus, h)
    }

    constructor (high: nat, cq: Q.CompletionQueue<Batch>)
      ensures Value() == Init(high) && this.cq == cq
    {
      this.cq := cq;
      closed, sendInitMd, isSending := false, true, false;
      highQueueSize, queue, closeStatus := high, [], None;
      h := History([], [], 0, false);
    }

    /** The test Write makes before it chooses between SyncWrite and AsyncWrite. */
    method QueueIsHigh() returns (isHigh: bool)
      ensures isHigh <==> |queue| >= highQueueSize
    {
      isHigh := |queue| >= highQueueSize;
    }

    method AsyncWrite(msg: Message, ok: bool) returns (accepted: bool)
      requires Inv(Value())
      modifies this, cq
      ensures (Value(), accepted) == AfterAsyncWrite(old(Value()), msg, ok)
      ensures Inv(Value())
      ensures cq.q == Q.AfterStarters(old(cq.q), Attempts(old(Value()), Event.AsyncWrite(msg, ok)))
    {
      hide PhaseOf, MsgsOf, Q.AfterStarter;
      AsyncWriteKeepsInv(Value(), msg, ok);
      Q.NoneOrOneStarter(cq.q, Q.Attempt(MsgBatch(sendInitMd, msg), ok));
      hide Q.AfterStarters;
      if closed || closeStatus.Some? {
        return false;
      }
      if isSending {
        h := h.(accepted := h.accepted + [msg]);
        queue := queue + [msg];
        return true;
      }
      assert queue == [];
      if ok {
        h := h.(accepted := h.accepted + [msg]);
      }
      accepted := SendMsg(msg, ok);
    }

    /**
     Write up to the loop of SyncWrite, when no other thread comes between its
     critical sections: the caller goes on to wait if the queue was high. So the
     queue grows past the mark only by a caller that waits.
     */
    method Write(msg: Message, ok: bool) returns (accepted: bool, waits: bool)
      requires Inv(Value())
      modifies this, cq
      ensures (Value(), accepted) == AfterAsyncWrite(old(Value()), msg, ok) && Inv(Value())
      ensures waits <==> accepted && |old(queue)| >= highQueueSize
      ensures |queue| > |old(queue)| && |queue| > highQueueSize ==> waits
      ensures cq.q == Q.AfterStarters(old(cq.q), Attempts(old(Value()), Event.AsyncWrite(msg, ok)))
    {
      hide Inv, Attempts, Q.AfterStarters;
      var isHigh := QueueIsHigh();
      accepted := AsyncWrite(msg, ok);
      waits := isHigh && accepted;
    }

    method SetHighQueueSize(size: nat)
      requires Inv(Value())
      modifies this`highQueueSize
      ensures Value() == old(Value()).(highQueueSize := size) && Inv(Value())
    {
      highQueueSize := size;
    }

    method AsyncClose(status: Status, ok: bool)
      requires Inv(Value())
      modifies this, cq
      ensures Value() == AfterAsyncClose(old(Value()), status, ok)
      ensures Inv(Value())
      ensures closeStatus == if old(Closing(Value())) then old(closeStatus) else Some(status)
      ensures cq.q == Q.AfterStarters(old(cq.q), Attempts(old(Value()), Event.AsyncClose(status, ok)))
    {
      hide PhaseOf, MsgsOf, Q.AfterStarter;
      AsyncCloseKeepsInv(Value(), status, ok);
      Q.NoneOrOneStarter(cq.q, Q.Attempt(StatusBatch(sendInitMd, status), ok));
      hide Q.AfterStarters;
      if closed || closeStatus.Some? {
        return;
      }
      closeStatus := Some(status);
      if isSending {
        return;
      }
      assert queue == [];
      SendStatus(ok);
    }

    method TryToWriteNext(ok: bool)
      requires Inv(Value()) && h.inFlight > 0
      modifies this, cq
      ensures Value() == AfterTryToWriteNext(old(Value()), ok)
      ensures Inv(Value())
      ensures cq.q == Q.AfterStarters(old(cq.q), NextAttempts(old(Value()), ok))
    {
      hide PhaseOf, MsgsOf, NextAttempts, Q.AfterStarter, Q.AfterStarters;
      TryToWriteNextKeepsInv(Value(), ok);
      NextStarters(cq.q, Value(), ok);
      h := h.(inFlight := h.inFlight - 1);
      if closed {
        return;
      }
      isSending := false;
      if queue != [] {
        var _ := SendMsg(queue[0], ok);
        if queue != [] {
          queue := queue[1..];
        }
        assert isSending;
        return;
      }
      if closeStatus.Some? {
        SendStatus(ok);
        return;
      }
      assert !isSending;
    }

    lemma NextStarters(q: Q.Queue<Batch>, s: State, ok: bool)
      ensures Q.AfterStarters(q, NextAttempts(s, ok)) ==
              if s.closed then q
              else if s.queue != [] then Q.AfterStarter(q, Q.Attempt(MsgBatch(s.sendInitMd, s.queue[0]), ok))
              else if s.closeStatus.Some? then
                Q.AfterStarter(q, Q.Attempt(StatusBatch(s.sendInitMd, s.closeStatus.value), ok))
              else q
    {
      if NextAttempts(s, ok) != [] {
        Q.NoneOrOneStarter(q, NextAttempts(s, ok)[0]);
      }
    }

    method SendStatus(ok: bool)
      requires !closed && closeStatus.Some? && queue == []
      modifies this, cq
      ensures Value() == AfterSendStatus(old(Value()), ok)
      ensures cq.q == Q.AfterStarter(old(cq.q), Q.Attempt(StatusBatch(old(sendInitMd), old(closeStatus.value)), ok))
    {
      closed := true;
      var batch := StatusBatch(sendInitMd, closeStatus.value);
      var tag := cq.New(batch);
      var started := cq.Start(tag, ok);
      if started {
        h := h.(batches := h.batches + [batch]);
        return;
      }
      h := h.(startFailed := true);
      cq.Delete(tag);
    }

    method SendMsg(msg: Message, ok: bool) returns (started: bool)
      requires !closed && !isSending
      modifies this, cq
      ensures Value() == AfterSendMsg(old(Value()), msg, ok) && started == ok
      ensures cq.q == Q.AfterStarter(old(cq.q), Q.Attempt(MsgBatch(old(sendInitMd), msg), ok))
    {
      isSending := true;
      var batch := MsgBatch(sendInitMd, msg);
      var tag := cq.New(batch);
      started := cq.Start(tag, ok);
      if started {
        h := h.(batches := h.batches + [batch], inFlight := h.inFlight + 1);
        sendInitMd := false;
        return;
      }
      cq.Delete(tag);
      closed := true;
      h := h.(startFailed := true);
      queue := [];
    }
  }
}
