/**
 Several threads calling ServerWriterImpl::Write at once. Write reads the queue
 size under the mutex, lets go of it, and pushes in a second critical section;
 a thread that saw a high queue then spins until it sees the queue empty. The
 interleavings are all orders of those critical sections, of completions and of
 AsyncClose calls.
 */
module WriterThreads {
  import opened Common
  import W = ServerWriter

  /** Where a thread is in Write. */
  datatype Pc =
    | Idle
    | Checked(msg: Message, isHigh: bool)  // has compared the queue size, has not pushed
    | Waiting                              // SyncWrite's loop on GetQueueSize
    | Drained                              // saw an empty queue, will read closed_

  datatype Sys = Sys(w: W.State, pcs: seq<Pc>)

  datatype Event =
    | Check(t: nat, msg: Message)
    | Push(t: nat, ok: bool)
    | Poll(t: nat)
    | Return(t: nat)
    | Close(status: Status, ok: bool)
    | Sent(ok: bool)

  predicate Enabled(y: Sys, e: Event) {
    match e
    case Check(t, _) => t < |y.pcs| && y.pcs[t].Idle?
    case Push(t, _) => t < |y.pcs| && y.pcs[t].Checked?
    case Poll(t) => t < |y.pcs| && y.pcs[t].Waiting?
    case Return(t) => t < |y.pcs| && y.pcs[t].Drained?
    case Close(_, _) => true
    case Sent(_) => y.w.h.inFlight > 0
  }

  function Step(y: Sys, e: Event): Sys
    requires Enabled(y, e)
  {
    match e
    case Check(t, msg) =>
      y.(pcs := y.pcs[t := Checked(msg, |y.w.queue| >= y.w.highQueueSize)])
    case Push(t, ok) =>
      var (w, accepted) := W.AfterAsyncWrite(y.w, y.pcs[t].msg, ok);
      Sys(w, y.pcs[t := if y.pcs[t].isHigh && accepted then Waiting else Idle])
    case Poll(t) => if y.w.queue == [] then y.(pcs := y.pcs[t := Drained]) else y
    case Return(t) => y.(pcs := y.pcs[t := Idle])
    case Close(status, ok) => y.(w := W.AfterAsyncClose(y.w, status, ok))
    case Sent(ok) => y.(w := W.AfterTryToWriteNext(y.w, ok))
  }

  function Init(threads: nat, high: nat): Sys {
    Sys(W.Init(high), seq(threads, _ => Idle))
  }

  ghost predicate Feasible(y: Sys, events: seq<Event>)
    decreases |events|
  {
    events == [] || (Enabled(y, events[0]) && Feasible(Step(y, events[0]), events[1..]))
  }

  ghost function Run(y: Sys, events: seq<Event>): Sys
    requires Feasible(y, events)
    decreases |events|
  {
    if events == [] then y else Run(Step(y, events[0]), events[1..])
  }

  // ---- The stream beneath the threads ----

  /** The critical section of the writer that a step runs, if it runs one that changes the stream. */
  function CallOf(y: Sys, e: Event): seq<W.Event>
    requires Enabled(y, e)
  {
    match e
    case Push(t, ok) => [W.AsyncWrite(y.pcs[t].msg, ok)]
    case Close(status, ok) => [W.AsyncClose(status, ok)]
    case Sent(ok) => [W.Event.Sent(ok)]
    case _ => []
  }

  ghost function CallsOf(y: Sys, events: seq<Event>): seq<W.Event>
    requires Feasible(y, events)
    decreases |events|
  {
    if events == [] then [] else CallOf(y, events[0]) + CallsOf(Step(y, events[0]), events[1..])
  }

  /**
   Threads do nothing to the stream but call the writer: whatever they do, the
   stream goes through a run of its own steps, so all that holds in every run of
   the writer holds with any number of threads.
   */
  lemma {:induction false} ThreadsRunTheWriter(y: Sys, events: seq<Event>)
    requires Feasible(y, events)
    ensures W.Feasible(y.w, CallsOf(y, events)) && W.Run(y.w, CallsOf(y, events)) == Run(y, events).w
    decreases |events|
  {
    hide Step, CallOf, W.Step;
    if events != [] {
      var e, rest := events[0], events[1..];
      var t := Step(y, e);
      ThreadsRunTheWriter(t, rest);
      CallIsStep(y, e);
      var now, later := CallOf(y, e), CallsOf(t, rest);
      if now == [] {
        assert [] + later == later;
      } else {
        assert (now + later)[1..] == later && (now + later)[0] == now[0];
      }
    }
  }

  lemma CallIsStep(y: Sys, e: Event)
    requires Enabled(y, e)
    ensures var now := CallOf(y, e);
            if now == [] then Step(y, e).w == y.w
            else |now| == 1 && W.Enabled(y.w, now[0]) && W.Step(y.w, now[0]) == Step(y, e).w
  {
    hide W.AfterAsyncWrite, W.AfterAsyncClose, W.AfterTryToWriteNext;
  }

  /**
   What a call of Write does next: it goes on to wait only if it saw a high queue
   and its message was taken, and it waits until it sees the queue empty.
   */
  lemma WriteWaitsIff(y: Sys, e: Event, t: nat)
    requires Enabled(y, e) && t < |y.pcs|
    ensures var z := Step(y, e);
            && |z.pcs| == |y.pcs|
            && (z.pcs[t].Waiting? <==>
                  || (e.Push? && e.t == t && y.pcs[t].isHigh && (y.w.isSending || e.ok) && !W.Closing(y.w))
                  || (y.pcs[t].Waiting? && !(e.Poll? && e.t == t && y.w.queue == [])))
            && (z.pcs[t].Checked? && !y.pcs[t].Checked? ==>
                  e.Check? && e.t == t && z.pcs[t] == Checked(e.msg, |y.w.queue| >= y.w.highQueueSize))
  {
  }

  // ---- The potential ----

  /** How many messages a thread may still push before it has to see an empty queue. */
  function Credit(pc: Pc): nat {
    match pc
    case Idle => 1
    case Drained => 1
    case Checked(_, isHigh) => if isHigh then 1 else 2
    case Waiting => 0
  }

  function Credits(pcs: seq<Pc>): nat {
    if pcs == [] then 0 else Credit(pcs[0]) + Credits(pcs[1..])
  }

  lemma {:induction false} CreditsBound(pcs: seq<Pc>)
    ensures Credits(pcs) <= 2 * |pcs|
    ensures (forall pc <- pcs :: pc.Checked? ==> pc.isHigh) ==> Credits(pcs) <= |pcs|
  {
    if pcs != [] {
      CreditsBound(pcs[1..]);
    }
  }

  lemma {:induction false} CreditsUpdate(pcs: seq<Pc>, t: nat, pc: Pc)
    requires t < |pcs|
    ensures Credits(pcs[t := pc]) == Credits(pcs) - Credit(pcs[t]) + Credit(pc)
  {
    if t == 0 {
      assert pcs[0 := pc][1..] == pcs[1..];
    } else {
      assert pcs[t := pc][1..] == pcs[1..][t - 1 := pc];
      CreditsUpdate(pcs[1..], t - 1, pc);
    }
  }

  /** The longest the queue can get with this many threads and this high mark. */
  function MaxQueue(threads: nat, high: nat): int {
    if high == 0 then threads else high + 2 * threads - 1
  }

  /** Messages queued plus messages that may still be pushed stay within the bound. */
  ghost predicate Bounded(y: Sys) {
    && W.Inv(y.w)
    && |y.pcs| >= 1
    && (y.w.highQueueSize == 0 ==> forall pc <- y.pcs :: pc.Checked? ==> pc.isHigh)
    && |y.w.queue| + Credits(y.pcs) <= MaxQueue(|y.pcs|, y.w.highQueueSize)
  }

  lemma CheckKeepsBounded(y: Sys, t: nat, msg: Message)
    requires Bounded(y) && t < |y.pcs| && y.pcs[t].Idle?
    ensures Bounded(Step(y, Check(t, msg)))
  {
    var pc := Checked(msg, |y.w.queue| >= y.w.highQueueSize);
    CreditsUpdate(y.pcs, t, pc);
    CreditsBound(y.pcs[t := pc]);
  }

  lemma PollKeepsBounded(y: Sys, t: nat)
    requires Bounded(y) && t < |y.pcs| && y.pcs[t].Waiting?
    ensures Bounded(Step(y, Poll(t)))
  {
    CreditsUpdate(y.pcs, t, Drained);
    CreditsBound(y.pcs[t := Drained]);
  }

  lemma PushKeepsBounded(y: Sys, t: nat, ok: bool)
    requires Bounded(y) && t < |y.pcs| && y.pcs[t].Checked?
    ensures Bounded(Step(y, Push(t, ok)))
  {
    W.AsyncWriteKeepsInv(y.w, y.pcs[t].msg, ok);
    CreditsUpdate(y.pcs, t, Waiting);
    CreditsUpdate(y.pcs, t, Idle);
  }

  lemma StepKeepsBounded(y: Sys, e: Event)
    requires Bounded(y) && Enabled(y, e)
    ensures Bounded(Step(y, e)) && |Step(y, e).pcs| == |y.pcs|
    ensures Step(y, e).w.highQueueSize == y.w.highQueueSize
  {
    match e
    case Check(t, msg) => CheckKeepsBounded(y, t, msg);
    case Push(t, ok) => PushKeepsBounded(y, t, ok);
    case Poll(t) => PollKeepsBounded(y, t);
    case Return(t) => CreditsUpdate(y.pcs, t, Idle);
    case Close(status, ok) => W.AsyncCloseKeepsInv(y.w, status, ok);
    case Sent(ok) => W.TryToWriteNextKeepsInv(y.w, ok);
  }

  lemma {:induction false} RunKeepsBounded(y: Sys, events: seq<Event>)
    requires Bounded(y) && Feasible(y, events)
    ensures Bounded(Run(y, events)) && |Run(y, events).pcs| == |y.pcs|
    ensures Run(y, events).w.highQueueSize == y.w.highQueueSize
    decreases |events|
  {
    if events != [] {
      StepKeepsBounded(y, events[0]);
      RunKeepsBounded(Step(y, events[0]), events[1..]);
    }
  }

  /** Back-pressure: no interleaving makes the queue longer than MaxQueue. */
  lemma QueueIsBounded(threads: nat, high: nat, events: seq<Event>)
    requires threads >= 1 && Feasible(Init(threads, high), events)
    ensures |Run(Init(threads, high), events).w.queue| <= MaxQueue(threads, high)
  {
    W.InitHolds(high);
    CreditsBound(Init(threads, high).pcs);
    RunKeepsBounded(Init(threads, high), events);
  }

  // ---- The bound is reached ----

  lemma {:induction false} RunConcat(y: Sys, a: seq<Event>, b: seq<Event>)
    requires Feasible(y, a) && Feasible(Run(y, a), b)
    ensures Feasible(y, a + b) && Run(y, a + b) == Run(Run(y, a), b)
    decreases |a|
  {
    if a == [] {
      assert a + b == b;
    } else {
      RunConcat(Step(y, a[0]), a[1..], b);
      assert (a + b)[1..] == a[1..] + b;
    }
  }

  lemma OneEvent(y: Sys, e: Event)
    requires Enabled(y, e)
    ensures Feasible(y, [e]) && Run(y, [e]) == Step(y, e)
  {
    assert [e][1..] == [];
    assert Feasible(Step(y, e), []);
  }

  /** A message is in flight and the writer takes more. */
  ghost predicate Busy(w: W.State) {
    !w.closed && w.closeStatus.None? && w.isSending
  }

  /** Threads k and up all compare the queue size. */
  lemma AllCheck(y: Sys, k: nat) returns (events: seq<Event>)
    requires k <= |y.pcs| && forall i :: k <= i < |y.pcs| ==> y.pcs[i].Idle?
    ensures Feasible(y, events)
    ensures var z := Run(y, events);
            && z.w == y.w && |z.pcs| == |y.pcs| && z.pcs[..k] == y.pcs[..k]
            && forall i :: k <= i < |y.pcs| ==>
                 z.pcs[i] == Checked("m", |y.w.queue| >= y.w.highQueueSize)
    decreases |y.pcs| - k
  {
    if k == |y.pcs| {
      events := [];
    } else {
      var e := Check(k, "m");
      var rest := AllCheck(Step(y, e), k + 1);
      OneEvent(y, e);
      RunConcat(y, [e], rest);
      events := [e] + rest;
      var z := Run(y, events);
      assert z.pcs[k] == z.pcs[..k + 1][k] == Step(y, e).pcs[..k + 1][k];
      assert z.pcs[..k] == z.pcs[..k + 1][..k] == Step(y, e).pcs[..k + 1][..k] == y.pcs[..k];
    }
  }

  /** Threads k and up all push. */
  lemma AllPush(y: Sys, k: nat) returns (events: seq<Event>)
    requires k <= |y.pcs| && Busy(y.w) && forall i :: k <= i < |y.pcs| ==> y.pcs[i].Checked?
    ensures Feasible(y, events)
    ensures var z := Run(y, events);
            && Busy(z.w) && z.w.highQueueSize == y.w.highQueueSize
            && |z.w.queue| == |y.w.queue| + |y.pcs| - k
            && |z.pcs| == |y.pcs| && z.pcs[..k] == y.pcs[..k]
            && forall i :: k <= i < |y.pcs| ==> z.pcs[i] == (if y.pcs[i].isHigh then Waiting else Idle)
    decreases |y.pcs| - k
  {
    if k == |y.pcs| {
      events := [];
    } else {
      var e := Push(k, true);
      var rest := AllPush(Step(y, e), k + 1);
      OneEvent(y, e);
      RunConcat(y, [e], rest);
      events := [e] + rest;
      var z := Run(y, events);
      assert z.pcs[k] == z.pcs[..k + 1][k] == Step(y, e).pcs[..k + 1][k];
      assert z.pcs[..k] == z.pcs[..k + 1][..k] == Step(y, e).pcs[..k + 1][..k] == y.pcs[..k];
    }
  }

  /** Every thread compares the size and then every thread pushes. */
  lemma AllWrite(y: Sys) returns (events: seq<Event>)
    requires Busy(y.w) && forall pc <- y.pcs :: pc.Idle?
    ensures Feasible(y, events)
    ensures var z := Run(y, events);
            && Busy(z.w) && z.w.highQueueSize == y.w.highQueueSize
            && |z.w.queue| == |y.w.queue| + |y.pcs|
            && |z.pcs| == |y.pcs|
            && (|y.w.queue| < y.w.highQueueSize ==> forall pc <- z.pcs :: pc.Idle?)
  {
    var a := AllCheck(y, 0);
    var b := AllPush(Run(y, a), 0);
    RunConcat(y, a, b);
    events := a + b;
  }

  /** Thread 0 alone writes n messages while the queue stays below the mark. */
  lemma Fill(y: Sys, n: nat) returns (events: seq<Event>)
    requires |y.pcs| >= 1 && Busy(y.w) && (forall pc <- y.pcs :: pc.Idle?)
    requires |y.w.queue| + n <= y.w.highQueueSize
    ensures Feasible(y, events)
    ensures var z := Run(y, events);
            && Busy(z.w) && z.w.highQueueSize == y.w.highQueueSize
            && |z.w.queue| == |y.w.queue| + n && z.pcs == y.pcs
    decreases n
  {
    if n == 0 {
      events := [];
    } else {
      var z := WriteOnce(y);
      var rest := Fill(z, n - 1);
      RunConcat(y, [Check(0, "m"), Push(0, true)], rest);
      events := [Check(0, "m"), Push(0, true)] + rest;
    }
  }

  /** Thread 0 writes one message from start to end, without having to wait. */
  lemma WriteOnce(y: Sys) returns (z: Sys)
    requires |y.pcs| >= 1 && y.pcs[0].Idle? && !y.w.closed && y.w.closeStatus.None?
    requires |y.w.queue| < y.w.highQueueSize && (!y.w.isSending ==> y.w.queue == [])
    ensures var events := [Check(0, "m"), Push(0, true)]; Feasible(y, events) && z == Run(y, events)
    ensures Busy(z.w) && z.w.highQueueSize == y.w.highQueueSize && z.pcs == y.pcs
    ensures |z.w.queue| == |y.w.queue| + (if y.w.isSending then 1 else 0)
  {
    var check, push := Check(0, "m"), Push(0, true);
    OneEvent(y, check);
    OneEvent(Step(y, check), push);
    RunConcat(y, [check], [push]);
    assert [check] + [push] == [check, push];
    z := Run(y, [check, push]);
    assert z.pcs == y.pcs[0 := Idle];
  }

  /** With high mark 0 every write waits; thread 0 starts one message and sees the empty queue. */
  lemma StartAtMarkZero(y: Sys) returns (events: seq<Event>)
    requires |y.pcs| >= 1 && (forall pc <- y.pcs :: pc.Idle?)
    requires y.w == W.Init(0)
    ensures Feasible(y, events)
    ensures Busy(Run(y, events).w) && Run(y, events).w.queue == [] && Run(y, events).pcs == y.pcs
    ensures Run(y, events).w.highQueueSize == 0
  {
    var e0, e1, e2, e3 := Check(0, "m"), Push(0, true), Poll(0), Return(0);
    var y1 := Step(y, e0);
    var y2 := Step(y1, e1);
    var y3 := Step(y2, e2);
    OneEvent(y, e0);
    OneEvent(y1, e1);
    OneEvent(y2, e2);
    OneEvent(y3, e3);
    RunConcat(y, [e0], [e1]);
    RunConcat(y, [e0] + [e1], [e2]);
    RunConcat(y, [e0] + [e1] + [e2], [e3]);
    events := [e0] + [e1] + [e2] + [e3];
    assert Run(y, events).pcs == y.pcs;
  }

  /** MaxQueue is the exact bound: some interleaving reaches it. */
  lemma BoundIsReached(threads: nat, high: nat)
    requires threads >= 1
    ensures exists events :: Feasible(Init(threads, high), events) &&
                             |Run(Init(threads, high), events).w.queue| == MaxQueue(threads, high)
  {
    var y := Init(threads, high);
    if high == 0 {
      var a := StartAtMarkZero(y);
      var b := AllWrite(Run(y, a));
      RunConcat(y, a, b);
      assert |Run(y, a + b).w.queue| == MaxQueue(threads, high);
    } else {
      var z := WriteOnce(y);
      var a := [Check(0, "m"), Push(0, true)];
      var b := Fill(z, high - 1);
      var c := AllWrite(Run(z, b));
      var d := AllWrite(Run(Run(z, b), c));
      RunConcat(y, a, b);
      RunConcat(y, a + b, c);
      RunConcat(y, a + b + c, d);
      assert |Run(y, a + b + c + d).w.queue| == MaxQueue(threads, high);
    }
  }
}
