/**
 Ownership of completion-queue tags. A starter allocates a tag and hands it to
 gRPC with a batch; a tag that gRPC refuses stays with the starter, who has to
 delete it, and one that gRPC takes is deleted by the pump after its handler has
 run. Several threads may start batches and pump at once, so these steps
 interleave freely. T is what a tag carries.
 */
module CompletionQueues {

  /** Tags are numbered in the order they are allocated. */
  datatype Queue<T> = Queue(
    tags: seq<T>,           // all that were ever allocated
    starting: set<nat>,     // allocated, not yet handed to gRPC
    refused: set<nat>,      // refused by gRPC, still owned by their starter
    outstanding: set<nat>,  // in flight
    completing: set<nat>,   // their handler is running
    taken: set<nat>,        // all that gRPC ever took
    log: seq<T>,            // what those carry, in the order they were taken
    handled: seq<nat>,      // handlers run, in order
    freed: seq<nat>)        // tags freed, in order

  datatype Event<T> =
    | Allocate(tag: T)
    | Hand(id: nat, ok: bool)
    | Delete(id: nat)  // a starter deletes its refused tag
    | Take(id: nat)    // the pump gets the tag back and runs its handler
    | Free(id: nat)    // the handler is done and the pump deletes the tag

  function Empty<T>(): Queue<T> {
    Queue([], {}, {}, {}, {}, {}, [], [], [])
  }

  // ---- The steps ----

  function AfterAllocate<T>(q: Queue<T>, t: T): Queue<T> {
    q.(tags := q.tags + [t], starting := q.starting + {|q.tags|})
  }

  function AfterHand<T>(q: Queue<T>, id: nat, ok: bool): Queue<T>
    requires id < |q.tags|
  {
    q.(starting := q.starting - {id},
       refused := if ok then q.refused else q.refused + {id},
       outstanding := if ok then q.outstanding + {id} else q.outstanding,
       taken := if ok then q.taken + {id} else q.taken,
       log := if ok then q.log + [q.tags[id]] else q.log)
  }

  function AfterDelete<T>(q: Queue<T>, id: nat): Queue<T> {
    q.(refused := q.refused - {id}, freed := q.freed + [id])
  }

  function AfterTake<T>(q: Queue<T>, id: nat): Queue<T> {
    q.(outstanding := q.outstanding - {id}, completing := q.completing + {id}, handled := q.handled + [id])
  }

  function AfterFree<T>(q: Queue<T>, id: nat): Queue<T> {
    q.(completing := q.completing - {id}, freed := q.freed + [id])
  }

  /** Only the owner of a tag touches it. */
  predicate Enabled<T>(q: Queue<T>, e: Event<T>) {
    match e
    case Allocate(_) => true
    case Hand(id, _) => id in q.starting && id < |q.tags|
    case Delete(id) => id in q.refused
    case Take(id) => id in q.outstanding
    case Free(id) => id in q.completing
  }

  function Step<T>(q: Queue<T>, e: Event<T>): Queue<T>
    requires Enabled(q, e)
  {
    match e
    case Allocate(t) => AfterAllocate(q, t)
    case Hand(id, ok) => AfterHand(q, id, ok)
    case Delete(id) => AfterDelete(q, id)
    case Take(id) => AfterTake(q, id)
    case Free(id) => AfterFree(q, id)
  }

  // ---- Who owns what ----

  predicate Live<T>(q: Queue<T>, id: nat) {
    id in q.starting || id in q.refused || id in q.outstanding || id in q.completing
  }

  /** A tag has one owner: a starter, before or after gRPC refused it, gRPC, or the pump. */
  ghost predicate Places<T>(q: Queue<T>) {
    && (forall id <- q.starting :: id < |q.tags| && id !in q.refused && id !in q.taken)
    && (forall id <- q.refused :: id < |q.tags| && id !in q.taken)
    && (forall id <- q.outstanding :: id !in q.completing && id in q.taken)
    && (forall id <- q.completing :: id in q.taken)
    && (forall id <- q.taken :: id < |q.tags|)
  }

  ghost predicate FreedOnce<T>(q: Queue<T>) {
    forall id: nat :: multiset(q.freed)[id] == if id < |q.tags| && !Live(q, id) then 1 else 0
  }

  ghost predicate HandledOnce<T>(q: Queue<T>) {
    forall id: nat :: multiset(q.handled)[id] == if id in q.taken && id !in q.outstanding then 1 else 0
  }

  ghost predicate Inv<T>(q: Queue<T>) {
    Places(q) && FreedOnce(q) && HandledOnce(q)
  }

  lemma StepKeepsPlaces<T>(q: Queue<T>, e: Event<T>)
    requires Places(q) && Enabled(q, e)
    ensures Places(Step(q, e))
  {
  }

  lemma StepKeepsFreedOnce<T>(q: Queue<T>, e: Event<T>)
    requires Places(q) && FreedOnce(q) && Enabled(q, e)
    ensures FreedOnce(Step(q, e))
  {
  }

  lemma StepKeepsHandledOnce<T>(q: Queue<T>, e: Event<T>)
    requires Places(q) && HandledOnce(q) && Enabled(q, e)
    ensures HandledOnce(Step(q, e))
  {
  }

  lemma StepKeepsInv<T>(q: Queue<T>, e: Event<T>)
    requires Inv(q) && Enabled(q, e)
    ensures Inv(Step(q, e))
  {
    hide Places, FreedOnce, HandledOnce;
    StepKeepsPlaces(q, e);
    StepKeepsFreedOnce(q, e);
    StepKeepsHandledOnce(q, e);
  }

  ghost predicate Feasible<T>(q: Queue<T>, events: seq<Event<T>>)
    decreases |events|
  {
    events == [] || (Enabled(q, events[0]) && Feasible(Step(q, events[0]), events[1..]))
  }

  ghost function Run<T>(q: Queue<T>, events: seq<Event<T>>): Queue<T>
    requires Feasible(q, events)
    decreases |events|
  {
    if events == [] then q else Run(Step(q, events[0]), events[1..])
  }

  lemma {:induction false} RunKeepsInv<T>(q: Queue<T>, events: seq<Event<T>>)
    requires Inv(q) && Feasible(q, events)
    ensures Inv(Run(q, events))
    decreases |events|
  {
    if events != [] {
      hide Inv;
      StepKeepsInv(q, events[0]);
      RunKeepsInv(Step(q, events[0]), events[1..]);
    }
  }

  /**
   In every interleaving: a tag that was allocated has been freed exactly once,
   or it is live and has not been freed; its handler has run exactly once if
   gRPC took it and gave it back, and never otherwise; and no step touches a
   tag that has been freed.
   */
  lemma OwnershipOfEveryRun<T>(events: seq<Event<T>>, e: Event<T>)
    requires Feasible(Empty(), events)
    ensures var q := Run(Empty<T>(), events);
            && (forall id: nat :: id < |q.tags| ==> multiset(q.freed)[id] == if Live(q, id) then 0 else 1)
            && (forall id: nat :: Live(q, id) ==> id < |q.tags|)
            && (forall id: nat :: multiset(q.handled)[id] == if id in q.taken && id !in q.outstanding then 1 else 0)
            && (Enabled(q, e) && !e.Allocate? ==> e.id !in q.freed)
  {
    RunKeepsInv(Empty<T>(), events);
    var q := Run(Empty<T>(), events);
    assert forall id: nat :: id in q.freed <==> multiset(q.freed)[id] > 0;
  }

  /** 0 .. n - 1, each once. */
  function Ids(n: nat): seq<nat> {
    if n == 0 then [] else Ids(n - 1) + [n - 1]
  }

  lemma {:induction false} IdsOnce(n: nat)
    ensures forall id :: multiset(Ids(n))[id] == if 0 <= id < n then 1 else 0
  {
    if n > 0 {
      IdsOnce(n - 1);
    }
  }

  /** Once no tag is with a starter, in flight or being completed, every tag was freed once. */
  lemma NothingLeaks<T>(events: seq<Event<T>>)
    requires Feasible(Empty(), events) && forall id: nat :: !Live(Run(Empty<T>(), events), id)
    ensures var q := Run(Empty<T>(), events); multiset(q.freed) == multiset(Ids(|q.tags|))
  {
    RunKeepsInv(Empty<T>(), events);
    IdsOnce(|Run(Empty<T>(), events).tags|);
  }

  // ---- Starters ----

  /** One call of StartBatch: the tag handed over and gRPC's answer. */
  datatype Attempt<T> = Attempt(tag: T, ok: bool)

  /** What the attempts that gRPC took carry. */
  function Taken<T>(attempts: seq<Attempt<T>>): seq<T> {
    if attempts == [] then []
    else (if attempts[0].ok then [attempts[0].tag] else []) + Taken(attempts[1..])
  }

  /** How many of them carry something of a kind. */
  function Count<T>(attempts: seq<Attempt<T>>, p: T -> bool): nat {
    if attempts == [] then 0
    else (if attempts[0].ok && p(attempts[0].tag) then 1 else 0) + Count(attempts[1..], p)
  }

  lemma {:induction false} TakenConcat<T>(a: seq<Attempt<T>>, b: seq<Attempt<T>>, p: T -> bool)
    ensures Taken(a + b) == Taken(a) + Taken(b)
    ensures Count(a + b, p) == Count(a, p) + Count(b, p)
    decreases |a|
  {
    if a == [] {
      assert a + b == b;
    } else {
      assert (a + b)[0] == a[0] && (a + b)[1..] == a[1..] + b;
      TakenConcat(a[1..], b, p);
    }
  }

  lemma NothingTaken<T>(p: T -> bool)
    ensures Taken<T>([]) == [] && Count([], p) == 0
    ensures forall log: seq<T> :: log + Taken([]) == log
  {
  }

  lemma TakenNoneOrOne<T>(a: Attempt<T>, p: T -> bool)
    ensures Taken<T>([]) == [] && Count([], p) == 0
    ensures Taken([a]) == (if a.ok then [a.tag] else [])
    ensures Count([a], p) == if a.ok && p(a.tag) then 1 else 0
  {
    assert [a][1..] == [];
  }

  /** new Tag, Start, and delete if it was refused. */
  function AfterStarter<T>(q: Queue<T>, a: Attempt<T>): Queue<T> {
    var id := |q.tags|;
    var r := AfterHand(AfterAllocate(q, a.tag), id, a.ok);
    if a.ok then r else AfterDelete(r, id)
  }

  function AfterStarters<T>(q: Queue<T>, attempts: seq<Attempt<T>>): Queue<T>
    decreases |attempts|
  {
    if attempts == [] then q else AfterStarters(AfterStarter(q, attempts[0]), attempts[1..])
  }

  /** The ids of the live tags of a kind. */
  ghost function LiveIds<T>(q: Queue<T>, p: T -> bool): set<nat> {
    set id | id in q.starting + q.refused + q.outstanding + q.completing && id < |q.tags| && p(q.tags[id])
  }

  ghost function LiveCount<T>(q: Queue<T>, p: T -> bool): nat {
    |LiveIds(q, p)|
  }

  /** No starter holds a tag. */
  predicate Settled<T>(q: Queue<T>) {
    q.starting == {} && q.refused == {}
  }

  lemma StarterLives<T>(q: Queue<T>, a: Attempt<T>, p: T -> bool)
    requires Places(q)
    ensures |q.tags| !in LiveIds(q, p)
    ensures LiveIds(AfterStarter(q, a), p) == LiveIds(q, p) + (if a.ok && p(a.tag) then {|q.tags|} else {})
  {
    var id := |q.tags|;
    assert id !in q.starting && id !in q.refused && id !in q.taken;
    assert id !in q.outstanding && id !in q.completing;
  }

  lemma StarterFacts<T>(q: Queue<T>, a: Attempt<T>, p: T -> bool)
    requires Inv(q)
    ensures var r := AfterStarter(q, a);
            && r.starting == q.starting && r.refused == q.refused && r.completing == q.completing
            && q.outstanding <= r.outstanding && q.tags <= r.tags
            && r.log == q.log + Taken([a])
            && LiveCount(r, p) == LiveCount(q, p) + Count([a], p)
  {
    hide FreedOnce, HandledOnce, LiveIds;
    StarterLives(q, a, p);
    assert |q.tags| !in q.starting && |q.tags| !in q.refused;
    assert [a][1..] == [];
  }

  lemma StarterIsARun<T>(q: Queue<T>, a: Attempt<T>) returns (events: seq<Event<T>>)
    ensures Feasible(q, events) && Run(q, events) == AfterStarter(q, a)
  {
    var id := |q.tags|;
    var r := AfterAllocate(q, a.tag);
    OneEvent(q, Allocate(a.tag));
    OneEvent(r, Hand(id, a.ok));
    RunConcat(q, [Allocate(a.tag)], [Hand(id, a.ok)]);
    events := [Allocate(a.tag)] + [Hand(id, a.ok)];
    if !a.ok {
      OneEvent(AfterHand(r, id, false), Delete(id));
      RunConcat(q, events, [Delete(id)]);
      events := events + [Delete(id)];
    }
  }

  lemma {:induction false} StartersFacts<T>(q: Queue<T>, attempts: seq<Attempt<T>>, p: T -> bool)
    requires Inv(q)
    ensures var r := AfterStarters(q, attempts);
            && Inv(r)
            && r.starting == q.starting && r.refused == q.refused && r.completing == q.completing
            && q.outstanding <= r.outstanding && q.tags <= r.tags
            && r.log == q.log + Taken(attempts)
            && LiveCount(r, p) == LiveCount(q, p) + Count(attempts, p)
    decreases |attempts|
  {
    hide Inv, AfterStarter, LiveCount, Taken, Count;
    TakenCons(attempts, p);
    if attempts == [] {
      assert q.log + [] == q.log;
    } else {
      var a, rest := attempts[0], attempts[1..];
      var m := AfterStarter(q, a);
      StarterKeepsInv(q, a);
      StarterFacts(q, a, p);
      StartersFacts(m, rest, p);
      var r := AfterStarters(m, rest);
      assert AfterStarters(q, attempts) == r;
      assert q.log + Taken([a]) + Taken(rest) == q.log + (Taken([a]) + Taken(rest));
    }
  }

  lemma StarterKeepsInv<T>(q: Queue<T>, a: Attempt<T>)
    requires Inv(q)
    ensures Inv(AfterStarter(q, a))
  {
    hide Inv, AfterStarter;
    var events := StarterIsARun(q, a);
    RunKeepsInv(q, events);
  }

  lemma TakenCons<T>(attempts: seq<Attempt<T>>, p: T -> bool)
    ensures attempts == [] ==> Taken(attempts) == [] && Count(attempts, p) == 0
    ensures attempts != [] ==>
              && Taken(attempts) == Taken([attempts[0]]) + Taken(attempts[1..])
              && Count(attempts, p) == Count([attempts[0]], p) + Count(attempts[1..], p)
  {
    if attempts != [] {
      assert [attempts[0]][1..] == [];
    }
  }

  lemma {:induction false} StartersAreARun<T>(q: Queue<T>, attempts: seq<Attempt<T>>)
    returns (events: seq<Event<T>>)
    ensures Feasible(q, events) && Run(q, events) == AfterStarters(q, attempts)
    decreases |attempts|
  {
    if attempts == [] {
      events := [];
    } else {
      var first := StarterIsARun(q, attempts[0]);
      var rest := StartersAreARun(AfterStarter(q, attempts[0]), attempts[1..]);
      RunConcat(q, first, rest);
      events := first + rest;
    }
  }

  lemma NoneOrOneStarter<T>(q: Queue<T>, a: Attempt<T>)
    ensures AfterStarters(q, []) == q && AfterStarters(q, [a]) == AfterStarter(q, a)
  {
    assert [a][1..] == [];
  }

  lemma {:induction false} StartersConcat<T>(q: Queue<T>, a: seq<Attempt<T>>, b: seq<Attempt<T>>)
    ensures AfterStarters(q, a + b) == AfterStarters(AfterStarters(q, a), b)
    decreases |a|
  {
    if a == [] {
      assert a + b == b;
    } else {
      assert (a + b)[0] == a[0] && (a + b)[1..] == a[1..] + b;
      StartersConcat(AfterStarter(q, a[0]), a[1..], b);
    }
  }

  lemma {:induction false} RunConcat<T>(q: Queue<T>, es: seq<Event<T>>, fs: seq<Event<T>>)
    requires Feasible(q, es) && Feasible(Run(q, es), fs)
    ensures Feasible(q, es + fs) && Run(q, es + fs) == Run(Run(q, es), fs)
    decreases |es|
  {
    if es == [] {
      assert [] + fs == fs;
    } else {
      assert (es + fs)[0] == es[0] && (es + fs)[1..] == es[1..] + fs;
      RunConcat(Step(q, es[0]), es[1..], fs);
    }
  }

  lemma OneEvent<T>(q: Queue<T>, e: Event<T>)
    requires Enabled(q, e)
    ensures Feasible(q, [e]) && Run(q, [e]) == Step(q, e)
  {
    assert [e][1..] == [];
    assert Feasible(Step(q, e), []);
  }

  // ---- Turns ----

  /**
   What one atomic step of a stream does to its tags: it may begin inside the
   handler of a tag that the pump has just got back, its starters make their
   attempts, and the handler may end, upon which the pump deletes the tag.
   */
  datatype Turn<T> = Turn(begins: bool, attempts: seq<Attempt<T>>, ends: bool, id: nat)

  predicate CanTurn<T>(q: Queue<T>, turn: Turn<T>) {
    && (turn.begins ==> turn.id in q.outstanding)
    && (turn.ends && !turn.begins ==> turn.id in q.completing)
  }

  function Begun<T>(q: Queue<T>, turn: Turn<T>): Queue<T> {
    if turn.begins then AfterTake(q, turn.id) else q
  }

  function Ended<T>(q: Queue<T>, turn: Turn<T>): Queue<T> {
    if turn.ends then AfterFree(q, turn.id) else q
  }

  function AfterTurn<T>(q: Queue<T>, turn: Turn<T>): Queue<T> {
    Ended(AfterStarters(Begun(q, turn), turn.attempts), turn)
  }

  lemma OutstandingIsNotCompleting<T>(q: Queue<T>)
    requires Inv(q)
    ensures forall id <- q.outstanding :: id !in q.completing
  {
  }

  lemma BegunFacts<T>(q: Queue<T>, turn: Turn<T>, p: T -> bool)
    requires Inv(q) && CanTurn(q, turn)
    ensures var r := Begun(q, turn);
            && Inv(r) && r.starting == q.starting && r.refused == q.refused && r.tags == q.tags && r.log == q.log
            && r.completing == (if turn.begins then q.completing + {turn.id} else q.completing)
            && LiveCount(r, p) == LiveCount(q, p)
            && (turn.ends ==> turn.id in r.completing)
            && (turn.begins || turn.ends ==> turn.id < |q.tags|)
  {
    assert turn.ends && !turn.begins ==> turn.id in q.taken;
    if turn.begins {
      StepKeepsInv(q, Take(turn.id));
      assert LiveIds(Begun(q, turn), p) == LiveIds(q, p);
    }
  }

  lemma EndedFacts<T>(q: Queue<T>, turn: Turn<T>, p: T -> bool)
    requires Inv(q) && (turn.ends ==> turn.id in q.completing)
    ensures turn.ends ==> turn.id < |q.tags|
    ensures var r := Ended(q, turn);
            && Inv(r) && r.starting == q.starting && r.refused == q.refused && r.tags == q.tags && r.log == q.log
            && r.completing == (if turn.ends then q.completing - {turn.id} else q.completing)
            && LiveCount(r, p) == LiveCount(q, p) - (if turn.ends && p(q.tags[turn.id]) then 1 else 0)
  {
    if turn.ends {
      StepKeepsInv(q, Free(turn.id));
      assert turn.id in q.taken && turn.id !in q.starting && turn.id !in q.refused && turn.id !in q.outstanding;
      assert LiveIds(Ended(q, turn), p) == LiveIds(q, p) - {turn.id};
    }
  }

  /** A turn leaves no tag with a starter, and accounts for every tag that becomes or stops being live. */
  lemma TurnFacts<T>(q: Queue<T>, turn: Turn<T>, p: T -> bool)
    requires Inv(q) && Settled(q) && CanTurn(q, turn)
    ensures turn.begins || turn.ends ==> turn.id < |q.tags|
    ensures var r := AfterTurn(q, turn);
            && Inv(r) && Settled(r) && q.tags <= r.tags
            && r.log == q.log + Taken(turn.attempts)
            && r.completing == q.completing + (if turn.begins then {turn.id} else {}) -
                               (if turn.ends then {turn.id} else {})
            && LiveCount(r, p) == LiveCount(q, p) + Count(turn.attempts, p) -
                                  (if turn.ends && p(q.tags[turn.id]) then 1 else 0)
  {
    hide Inv, Begun, Ended, AfterStarters, LiveCount, Taken, Count;
    BegunFacts(q, turn, p);
    StartersFacts(Begun(q, turn), turn.attempts, p);
    EndedFacts(AfterStarters(Begun(q, turn), turn.attempts), turn, p);
  }

  /** One turn of the pump, with any handler, is one of the interleavings. */
  lemma TurnIsARun<T>(q: Queue<T>, turn: Turn<T>) returns (events: seq<Event<T>>)
    requires CanTurn(q, turn) && (turn.ends ==> turn.id in AfterStarters(Begun(q, turn), turn.attempts).completing)
    ensures Feasible(q, events) && Run(q, events) == AfterTurn(q, turn)
  {
    events := [];
    if turn.begins {
      OneEvent(q, Take(turn.id));
      events := [Take(turn.id)];
    }
    var r := Begun(q, turn);
    assert Feasible(q, events) && Run(q, events) == r;
    var starters := StartersAreARun(r, turn.attempts);
    RunConcat(q, events, starters);
    events := events + starters;
    if turn.ends {
      OneEvent(AfterStarters(r, turn.attempts), Free(turn.id));
      RunConcat(q, events, [Free(turn.id)]);
      events := events + [Free(turn.id)];
    }
  }

  // ---- The program ----

  /** What grpc_completion_queue_next returns. */
  datatype CqEvent = OpComplete(id: nat) | QueueShutdown | Timeout

  class CompletionQueue<T> {
    var q: Queue<T>

    constructor ()
      ensures q == Empty()
    {
      q := Empty();
    }

    /** new Tag */
    method New(t: T) returns (id: nat)
      modifies this
      ensures id == |old(q).tags| && q == AfterAllocate(old(q), t)
    {
      id := |q.tags|;
      q := q.(tags := q.tags + [t], starting := q.starting + {id});
    }

    /** tag->Start(): ok is gRPC's answer. */
    method Start(id: nat, ok: bool) returns (taken: bool)
      requires id in q.starting && id < |q.tags|
      modifies this
      ensures q == AfterHand(old(q), id, ok) && taken == ok
    {
      q := AfterHand(q, id, ok);
      return ok;
    }

    /** delete tag */
    method Delete(id: nat)
      requires id in q.refused
      modifies this
      ensures q == AfterDelete(old(q), id)
    {
      q := q.(refused := q.refused - {id}, freed := q.freed + [id]);
    }

    /** A handler that makes these attempts. */
    method DoComplete(attempts: seq<Attempt<T>>)
      modifies this
      ensures q == AfterStarters(old(q), attempts)
    {
      var i := 0;
      while i < |attempts|
        invariant 0 <= i <= |attempts|
        invariant AfterStarters(old(q), attempts) == AfterStarters(q, attempts[i..])
      {
        assert attempts[i..][0] == attempts[i] && attempts[i..][1..] == attempts[i + 1..];
        var tag := New(attempts[i].tag);
        var taken := Start(tag, attempts[i].ok);
        if !taken {
          Delete(tag);
        }
        i := i + 1;
      }
    }

    /** Completes one tag and deletes it, whatever its handler starts; false when the queue has shut down. */
    method DoNextCompletion(c: CqEvent, attempts: seq<Attempt<T>>) returns (more: bool)
      requires Inv(q) && Settled(q) && (c.OpComplete? ==> c.id in q.outstanding)
      modifies this
      ensures Inv(q) && Settled(q)
      ensures q == if c.OpComplete? then AfterTurn(old(q), Turn(true, attempts, true, c.id)) else old(q)
      ensures more <==> !c.QueueShutdown?
    {
      match c {
        case OpComplete(id) =>
          TurnFacts(q, Turn(true, attempts, true, id), (_) => true);
          q := AfterTake(q, id);
          DoComplete(attempts);
          q := AfterFree(q, id);
        case QueueShutdown =>
          return false;
        case Timeout =>
      }
      return true;
    }
  }
}
