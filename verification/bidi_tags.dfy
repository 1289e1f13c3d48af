/**
 The completion-queue tags of one bidirectional stream: which of them are live
 after every step, and that each is freed exactly once.
 */
module BidiTags {
  import opened Common
  import opened BidiStream
  import Q = CompletionQueues

  /** The stream and its tags. */
  datatype Sys = Sys(s: State, q: Q.Queue<Batch>)

  /** A step of the stream, in the handler of tag id if it is a completion; or the completion of a tag without one. */
  datatype Move = Do(e: Event, id: nat) | Idle(id: nat)

  predicate HasTag(q: Q.Queue<Batch>, id: nat, p: Batch -> bool) {
    id < |q.tags| && p(q.tags[id])
  }

  /** OnRead stays inside its handler while the message callback runs. */
  predicate Begins(e: Event) {
    e.OnSent? || e.OnRead?
  }

  predicate Ends(s: State, e: Event) {
    e.OnSent? || e.CallbackReturns? || (e.OnRead? && !(s.status.Ok() && e.completion.Got? && s.msgCb))
  }

  function TurnOf(s: State, m: Move): Q.Turn<Batch>
    requires m.Do? ==> Enabled(s, m.e)
  {
    match m
    case Do(e, id) => Q.Turn(Begins(e), Attempts(s, e), Ends(s, e), id)
    case Idle(id) => Q.Turn(true, [], true, id)
  }

  predicate CanMove(y: Sys, m: Move) {
    match m
    case Do(e, id) =>
      && Enabled(y.s, e)
      && (e.OnSent? ==> id in y.q.outstanding && HasTag(y.q, id, IsMsg))
      && (e.OnRead? ==> id in y.q.outstanding && HasTag(y.q, id, IsRead))
      && (e.CallbackReturns? ==> id in y.q.completing)
    case Idle(id) => id in y.q.outstanding && !HasTag(y.q, id, IsMsg) && !HasTag(y.q, id, IsRead)
  }

  function AfterMove(y: Sys, m: Move): Sys
    requires CanMove(y, m)
  {
    Sys(if m.Do? then Step(y.s, m.e) else y.s, Q.AfterTurn(y.q, TurnOf(y.s, m)))
  }

  /** The tags that gRPC took are the batches of the stream, and the live ones are those it counts. */
  ghost predicate SysInv(y: Sys) {
    && Inv(y.s) && Q.Inv(y.q) && Q.Settled(y.q)
    && y.q.log == y.s.h.batches
    && Q.LiveCount(y.q, IsMsg) == y.s.h.sending
    && Q.LiveCount(y.q, IsRead) == y.s.h.reading
    && |y.q.completing| == (if y.s.inCallback then 1 else 0)
    && forall id <- y.q.completing :: HasTag(y.q, id, IsRead)
  }

  function Begin(hasCb: bool): Sys {
    Sys(Init(hasCb), Q.Empty())
  }

  lemma BeginHolds(hasCb: bool)
    ensures SysInv(Begin(hasCb))
  {
    assert Q.LiveIds(Q.Empty(), IsMsg) == {} && Q.LiveIds(Q.Empty(), IsRead) == {};
  }

  lemma CallbackPhase(s: State, e: Event)
    requires Enabled(s, e)
    ensures Step(s, e).inCallback <==> (s.inCallback || Begins(e)) && !Ends(s, e)
  {
    hide Follows, AfterWrite, AfterCloseWriting, AfterReadEach, AfterSetErrorStatus, SendDone, ReadDone, Logged;
    hide AfterEndOnErrorStatus, AfterSendNext, AfterLastSent, AfterNoMessage, AfterReadNext;
    match e
    case OnRead(c, ok) => ReadPhase(s, c, ok);
    case _ =>
  }

  lemma ReadPhase(s: State, c: Completion, ok: bool)
    requires s.h.reading > 0 && !s.inCallback
    ensures AfterOnRead(s, c, ok).inCallback <==> s.status.Ok() && c.Got? && s.msgCb
  {
    hide Follows, ReadDone, AfterNoMessage, AfterReadNext, Logged, Tried;
    var l := Logged(s, c);
    var d := ReadDone(l);
    if !s.status.Ok() {
      assert AfterOnRead(s, c, ok) == d;
    } else if !c.Got? {
      assert AfterOnRead(s, c, ok) == AfterNoMessage(d, c);
    } else {
      assert l.msgCb == s.msgCb by {
        LogKeepsCb(s, c);
      }
      if !s.msgCb {
        assert AfterOnRead(s, c, ok) == AfterDeliver(l, c.msg, ok) == AfterReadNext(d, ok);
      }
    }
  }

  lemma LogKeepsCb(s: State, c: Completion)
    ensures Logged(s, c).msgCb == s.msgCb
  {
  }

  lemma DoKeepsInv(y: Sys, e: Event, id: nat)
    requires SysInv(y) && CanMove(y, Do(e, id))
    ensures SysInv(AfterMove(y, Do(e, id)))
  {
    hide Inv, Q.Inv, Q.AfterTurn, Q.LiveCount, Attempts, Step;
    var turn := TurnOf(y.s, Do(e, id));
    StepKeepsInv(y.s, e);
    StepStartsItsAttempts(y.s, e);
    CallbackPhase(y.s, e);
    Q.TurnFacts(y.q, turn, IsMsg);
    Q.TurnFacts(y.q, turn, IsRead);
    Q.OutstandingIsNotCompleting(y.q);
  }

  lemma IdleKeepsInv(y: Sys, id: nat)
    requires SysInv(y) && CanMove(y, Idle(id))
    ensures SysInv(AfterMove(y, Idle(id)))
  {
    hide Inv, Q.Inv, Q.AfterTurn, Q.LiveCount;
    var turn := TurnOf(y.s, Idle(id));
    Q.TurnFacts(y.q, turn, IsMsg);
    Q.TurnFacts(y.q, turn, IsRead);
    Q.OutstandingIsNotCompleting(y.q);
  }

  lemma MoveKeepsInv(y: Sys, m: Move)
    requires SysInv(y) && CanMove(y, m)
    ensures SysInv(AfterMove(y, m))
  {
    match m
    case Do(e, id) => DoKeepsInv(y, e, id);
    case Idle(id) => IdleKeepsInv(y, id);
  }

  ghost predicate Feasible(y: Sys, moves: seq<Move>)
    decreases |moves|
  {
    moves == [] || (CanMove(y, moves[0]) && Feasible(AfterMove(y, moves[0]), moves[1..]))
  }

  ghost function Run(y: Sys, moves: seq<Move>): Sys
    requires Feasible(y, moves)
    decreases |moves|
  {
    if moves == [] then y else Run(AfterMove(y, moves[0]), moves[1..])
  }

  lemma {:induction false} RunKeepsInv(y: Sys, moves: seq<Move>)
    requires SysInv(y) && Feasible(y, moves)
    ensures SysInv(Run(y, moves))
    decreases |moves|
  {
    hide SysInv;
    if moves != [] {
      MoveKeepsInv(y, moves[0]);
      RunKeepsInv(AfterMove(y, moves[0]), moves[1..]);
    }
  }

  /**
   In every run: no starter is left with a refused tag; gRPC took exactly the
   batches in the log; the live message and read tags are those the stream
   counts as in flight; and every other tag of those two kinds, and every tag
   that gRPC refused, was freed exactly once.
   */
  lemma TagsOfEveryRun(hasCb: bool, moves: seq<Move>)
    requires Feasible(Begin(hasCb), moves)
    ensures var y := Run(Begin(hasCb), moves);
            && Q.Settled(y.q)
            && y.q.log == y.s.h.batches
            && Q.LiveCount(y.q, IsMsg) == y.s.h.sending
            && Q.LiveCount(y.q, IsRead) == y.s.h.reading
            && forall id: nat :: id < |y.q.tags| ==> multiset(y.q.freed)[id] == if Q.Live(y.q, id) then 0 else 1
  {
    BeginHolds(hasCb);
    RunKeepsInv(Begin(hasCb), moves);
  }

  /** A message tag in flight means that OnSent can happen: it is never held back. */
  lemma MessageTagCanComplete(y: Sys, id: nat, success: bool, ok: bool)
    requires SysInv(y) && !y.s.inCallback && id in y.q.outstanding && HasTag(y.q, id, IsMsg)
    ensures Enabled(y.s, OnSent(success, ok))
  {
    assert id in Q.LiveIds(y.q, IsMsg);
    OnSentFindsMessage(y.s, success, ok);
  }
}
