/**
 The server's request stream (ServerReader, ServerReaderCqTag). Each read batch
 has its own completion-queue tag; a completed tag hands its message to the
 reader and starts a successor, or ends the stream. The callbacks of one chain
 form Msg* Error? End.
 */
module ServerReading {
  import opened Common
  import Q = CompletionQueues

  /** All the tags of a chain carry the same batch. */
  datatype Batch = RecvMsg

  datatype Callback = Msg(msg: Message) | Error(status: Status) | End

  /** How a read batch completes. */
  datatype Completion = Failed | EndOfStream | Unparsable(error: Status) | Got(msg: Message)

  /** A completed read: verdict is what OnMsgStr returns, renewed whether the next read starts. */
  datatype Read = Read(completion: Completion, verdict: Status, renewed: bool)

  datatype History = History(
    started: bool,             // Start was called
    firstOk: bool,             // and its read batch was taken
    log: seq<Read>,            // completed reads, in order
    outstanding: nat,          // read batches in flight
    callbacks: seq<Callback>)  // calls of OnMsgStr, OnError and OnEnd

  datatype Event =
    | Start(ok: bool)
    | Complete(read: Read)

  const NOT_STARTED := History(false, false, [], 0, [])

  // ---- The steps ----

  function Called(h: History, c: Callback): History {
    h.(callbacks := h.callbacks + [c])
  }

  function AfterEndOnError(h: History, status: Status): History {
    Called(Called(h, Error(status)), End)
  }

  function AfterTagStart(h: History, ok: bool): History {
    if ok then h.(outstanding := h.outstanding + 1) else h
  }

  function AfterStart(h: History, ok: bool): History {
    var t := AfterTagStart(h.(started := true, firstOk := ok), ok);
    if ok then t else AfterEndOnError(t, InternalError(ClientStreamingInitFailed))
  }

  function AfterDoComplete(h: History, read: Read): History
    requires h.outstanding > 0
  {
    var t := h.(outstanding := h.outstanding - 1, log := h.log + [read]);
    match read.completion
    case Failed => AfterEndOnError(t, InternalError(ServerReadFailed))
    case EndOfStream => Called(t, End)
    case Unparsable(error) => AfterEndOnError(t, error)
    case Got(msg) =>
      var u := Called(t, Msg(msg));
      if !read.verdict.Ok() then AfterEndOnError(u, read.verdict)
      else if read.renewed then AfterTagStart(u, true)
      else AfterEndOnError(u, InternalError(ReadStartFailed))
  }

  /** A reader is started once; gRPC completes what is in flight; a parse error is an error. */
  predicate Enabled(h: History, e: Event) {
    match e
    case Start(_) => !h.started
    case Complete(read) => h.outstanding > 0 && (read.completion.Unparsable? ==> !read.completion.error.Ok())
  }

  function Step(h: History, e: Event): History
    requires Enabled(h, e)
  {
    match e
    case Start(ok) => AfterStart(h, ok)
    case Complete(read) => AfterDoComplete(h, read)
  }

  // ---- What the callbacks of a chain look like ----

  /** The chain goes on after a read whose message was parsed, accepted and followed by another read. */
  predicate Renews(read: Read) {
    read.completion.Got? && read.verdict.Ok() && read.renewed
  }

  /** The error after a read that neither goes on nor ends the stream. */
  function ErrorOf(read: Read): Status {
    match read.completion
    case Unparsable(error) => error
    case Got(_) => if !read.verdict.Ok() then read.verdict else InternalError(ReadStartFailed)
    case _ => InternalError(ServerReadFailed)
  }

  /** The messages of the reads that parsed one, as callbacks. */
  function Deliveries(log: seq<Read>): seq<Callback> {
    if log == [] then []
    else
      Deliveries(Front(log)) +
      (if Last(log).completion.Got? then [Msg(Last(log).completion.msg)] else [])
  }

  function Ending(h: History): seq<Callback> {
    if !h.started || h.outstanding > 0 then []
    else if h.log == [] then [Error(InternalError(ClientStreamingInitFailed)), End]
    else if Last(h.log).completion.EndOfStream? then [End]
    else [Error(ErrorOf(Last(h.log))), End]
  }

  ghost predicate Inv(h: History) {
    && h.outstanding <= 1
    && (h.outstanding == 1 <==> h.started && h.firstOk && (h.log != [] ==> Renews(Last(h.log))))
    && (h.log != [] ==> h.started && h.firstOk)
    && (forall i :: 0 <= i < |h.log| - 1 ==> Renews(h.log[i]))
    && (forall i :: 0 <= i < |h.log| && h.log[i].completion.Unparsable? ==> !h.log[i].completion.error.Ok())
    && h.callbacks == Deliveries(h.log) + Ending(h)
  }

  lemma DeliveriesStep(log: seq<Read>, read: Read)
    ensures Deliveries(log + [read]) ==
            Deliveries(log) + (if read.completion.Got? then [Msg(read.completion.msg)] else [])
  {
    assert Front(log + [read]) == log;
  }

  lemma StepKeepsInv(h: History, e: Event)
    requires Inv(h) && Enabled(h, e)
    ensures Inv(Step(h, e))
  {
    hide Deliveries;
    match e
    case Start(ok) =>
      assert Deliveries(h.log) + [] == Deliveries(h.log);
    case Complete(read) =>
      DeliveriesStep(h.log, read);
      assert Deliveries(h.log) + [] == Deliveries(h.log);
  }

  ghost predicate Feasible(h: History, events: seq<Event>)
    decreases |events|
  {
    events == [] || (Enabled(h, events[0]) && Feasible(Step(h, events[0]), events[1..]))
  }

  ghost function Run(h: History, events: seq<Event>): History
    requires Feasible(h, events)
    decreases |events|
  {
    if events == [] then h else Run(Step(h, events[0]), events[1..])
  }

  lemma {:induction false} RunKeepsInv(h: History, events: seq<Event>)
    requires Inv(h) && Feasible(h, events)
    ensures Inv(Run(h, events))
    decreases |events|
  {
    if events != [] {
      StepKeepsInv(h, events[0]);
      RunKeepsInv(Step(h, events[0]), events[1..]);
    }
  }

  /** Msg* Error? End, or a prefix of it, said with positions. */
  ghost predicate IsReaderTrace(cs: seq<Callback>) {
    && (forall i :: 0 <= i < |cs| && cs[i].End? ==> i == |cs| - 1)
    && (forall i :: 0 <= i < |cs| && cs[i].Error? ==> i == |cs| - 2 && cs[i + 1].End?)
  }

  lemma {:induction false} DeliveriesAreMessages(log: seq<Read>)
    ensures forall c <- Deliveries(log) :: c.Msg?
  {
    if log != [] {
      DeliveriesAreMessages(Front(log));
    }
  }

  /** When every read but the last one goes on, the i-th message comes from the i-th read. */
  lemma {:induction false} DeliveriesAt(log: seq<Read>)
    requires forall i :: 0 <= i < |log| - 1 ==> Renews(log[i])
    ensures |log| - 1 <= |Deliveries(log)| <= |log|
    ensures log != [] ==> (|Deliveries(log)| == |log| <==> Last(log).completion.Got?)
    ensures forall i :: 0 <= i < |Deliveries(log)| ==>
              log[i].completion.Got? && Deliveries(log)[i] == Msg(log[i].completion.msg)
  {
    if log != [] {
      DeliveriesAt(Front(log));
      assert |log| > 1 ==> Last(Front(log)) == log[|log| - 2];
    }
  }

  ghost predicate Ended(h: History) {
    h.started && h.outstanding == 0
  }

  /** End comes exactly when the chain is over, without Error only when the client closed its side. */
  ghost predicate EndsOnce(h: History) {
    && IsReaderTrace(h.callbacks)
    && (Ended(h) <==> End in h.callbacks)
    && (Ended(h) && h.log != [] && Last(h.log).completion.EndOfStream? <==>
        End in h.callbacks && forall c <- h.callbacks :: !c.Error?)
    && (forall c <- h.callbacks :: c.Error? ==> !c.status.Ok())
  }

  /** The i-th message delivered is the one the i-th read received. */
  ghost predicate DeliversInOrder(h: History) {
    && (forall i :: 0 <= i < |h.log| && h.log[i].completion.Got? ==>
          i < |h.callbacks| && h.callbacks[i] == Msg(h.log[i].completion.msg))
    && (forall i :: 0 <= i < |h.callbacks| && h.callbacks[i].Msg? ==>
          i < |h.log| && h.log[i].completion == Got(h.callbacks[i].msg))
  }

  lemma EndingShape(h: History)
    requires Inv(h)
    ensures Ended(h) <==> Ending(h) != []
    ensures Ending(h) == [] || Ending(h) == [End] ||
            (|Ending(h)| == 2 && Ending(h)[0].Error? && !Ending(h)[0].status.Ok() && Ending(h)[1] == End)
    ensures Ending(h) == [End] <==> Ended(h) && h.log != [] && Last(h.log).completion.EndOfStream?
  {
    hide Deliveries;
  }

  lemma InvGivesEndsOnce(h: History)
    requires Inv(h)
    ensures EndsOnce(h)
  {
    EndingShape(h);
    DeliveriesAreMessages(h.log);
    hide Deliveries, Ending, Renews, Ended;
    var ds := Deliveries(h.log);
    var n := |ds|;
    assert h.callbacks == ds + Ending(h);
    assert forall i :: 0 <= i < n ==> h.callbacks[i] == ds[i] && h.callbacks[i].Msg?;
    assert forall i :: n <= i < |h.callbacks| ==> h.callbacks[i] == Ending(h)[i - n];
    if Ended(h) {
      assert h.callbacks[|h.callbacks| - 1] == End;
      assert |Ending(h)| == 2 ==> h.callbacks[n].Error?;
    }
  }

  lemma InvGivesOrder(h: History)
    requires Inv(h)
    ensures DeliversInOrder(h)
  {
    EndingShape(h);
    DeliveriesAt(h.log);
    hide Deliveries, Ending, Ended;
    var ds := Deliveries(h.log);
    assert forall i :: 0 <= i < |ds| ==> h.callbacks[i] == ds[i];
    assert forall i :: |ds| <= i < |h.callbacks| ==> h.callbacks[i] == Ending(h)[i - |ds|];
  }

  /** Every run of one reader: never two reads in flight, one end, messages in receipt order. */
  lemma TraceOfEveryRun(events: seq<Event>)
    requires Feasible(NOT_STARTED, events)
    ensures var h := Run(NOT_STARTED, events); h.outstanding <= 1 && EndsOnce(h) && DeliversInOrder(h)
  {
    assert Inv(NOT_STARTED) by {
      assert Deliveries([]) == [];
    }
    RunKeepsInv(NOT_STARTED, events);
    InvGivesEndsOnce(Run(NOT_STARTED, events));
    InvGivesOrder(Run(NOT_STARTED, events));
  }

  /**
   In every run the callbacks are the messages of the reads, then the ending that
   the last read calls for: End alone, or the error that happened and End.
   */
  lemma CallbacksOfEveryRun(events: seq<Event>)
    requires Feasible(NOT_STARTED, events)
    ensures var h := Run(NOT_STARTED, events); h.callbacks == Deliveries(h.log) + Ending(h)
  {
    assert Inv(NOT_STARTED) by {
      assert Deliveries([]) == [];
    }
    RunKeepsInv(NOT_STARTED, events);
  }

  // ---- Tags ----

  predicate IsRead(b: Batch) {
    true
  }

  /** The StartBatch calls of each step, with gRPC's answers. */
  function Attempts(e: Event): seq<Q.Attempt<Batch>> {
    match e
    case Start(ok) => [Q.Attempt(RecvMsg, ok)]
    case Complete(read) =>
      if read.completion.Got? && read.verdict.Ok() then [Q.Attempt(RecvMsg, read.renewed)] else []
  }

  lemma StepStartsItsAttempts(h: History, e: Event)
    requires Enabled(h, e)
    ensures Step(h, e).outstanding ==
            h.outstanding + Q.Count(Attempts(e), IsRead) - (if e.Complete? then 1 else 0)
    ensures |Step(h, e).log| + Step(h, e).outstanding == |h.log| + h.outstanding + |Q.Taken(Attempts(e))|
  {
    Q.NothingTaken<Batch>(IsRead);
    if Attempts(e) != [] {
      Q.TakenNoneOrOne(Attempts(e)[0], IsRead);
    }
  }

  /** The chain and its tags; a completed read is handled inside its tag. */
  datatype Sys = Sys(h: History, q: Q.Queue<Batch>)

  function TurnOf(e: Event, id: nat): Q.Turn<Batch> {
    Q.Turn(e.Complete?, Attempts(e), e.Complete?, id)
  }

  predicate CanMove(y: Sys, e: Event, id: nat) {
    Enabled(y.h, e) && (e.Complete? ==> id in y.q.outstanding)
  }

  function AfterMove(y: Sys, e: Event, id: nat): Sys
    requires CanMove(y, e, id)
  {
    Sys(Step(y.h, e), Q.AfterTurn(y.q, TurnOf(e, id)))
  }

  ghost predicate SysInv(y: Sys) {
    && Inv(y.h) && Q.Inv(y.q) && Q.Settled(y.q) && y.q.completing == {}
    && |y.q.log| == |y.h.log| + y.h.outstanding
    && Q.LiveCount(y.q, IsRead) == y.h.outstanding
  }

  lemma MoveKeepsInv(y: Sys, e: Event, id: nat)
    requires SysInv(y) && CanMove(y, e, id)
    ensures SysInv(AfterMove(y, e, id))
  {
    hide Inv, Q.Inv, Q.AfterTurn, Q.LiveCount, Attempts, Step, Q.Taken, Q.Count;
    Q.TurnFacts(y.q, TurnOf(e, id), IsRead);
    StepKeepsInv(y.h, e);
    StepStartsItsAttempts(y.h, e);
  }

  ghost predicate CanMoves(y: Sys, moves: seq<(Event, nat)>)
    decreases |moves|
  {
    moves == [] ||
    (CanMove(y, moves[0].0, moves[0].1) && CanMoves(AfterMove(y, moves[0].0, moves[0].1), moves[1..]))
  }

  ghost function AfterMoves(y: Sys, moves: seq<(Event, nat)>): Sys
    requires CanMoves(y, moves)
    decreases |moves|
  {
    if moves == [] then y else AfterMoves(AfterMove(y, moves[0].0, moves[0].1), moves[1..])
  }

  lemma {:induction false} MovesKeepInv(y: Sys, moves: seq<(Event, nat)>)
    requires SysInv(y) && CanMoves(y, moves)
    ensures SysInv(AfterMoves(y, moves))
    decreases |moves|
  {
    hide SysInv;
    if moves != [] {
      MoveKeepsInv(y, moves[0].0, moves[0].1);
      MovesKeepInv(AfterMove(y, moves[0].0, moves[0].1), moves[1..]);
    }
  }

  /**
   In every run: the live tags of the chain are its reads in flight, gRPC took as
   many as completed or are in flight, and every other tag, refused ones
   included, was freed exactly once.
   */
  lemma TagsOfEveryRun(moves: seq<(Event, nat)>)
    requires CanMoves(Sys(NOT_STARTED, Q.Empty()), moves)
    ensures var y := AfterMoves(Sys(NOT_STARTED, Q.Empty()), moves);
            && Q.Settled(y.q) && |y.q.log| == |y.h.log| + y.h.outstanding
            && Q.LiveCount(y.q, IsRead) == y.h.outstanding <= 1
            && forall id: nat :: id < |y.q.tags| ==> multiset(y.q.freed)[id] == if Q.Live(y.q, id) then 0 else 1
  {
    assert Deliveries([]) == [];
    assert Q.LiveIds(Q.Empty(), IsRead) == {};
    MovesKeepInv(Sys(NOT_STARTED, Q.Empty()), moves);
  }

  // ---- The program ----

  class Reader {
    const cq: Q.CompletionQueue<Batch>
    ghost var h: History

    constructor (cq: Q.CompletionQueue<Batch>)
      ensures h == NOT_STARTED && this.cq == cq
    {
      this.cq := cq;
      h := NOT_STARTED;
    }

    method Start(ok: bool)
      requires Inv(h) && !h.started
      modifies this, cq
      ensures h == AfterStart(old(h), ok) && Inv(h)
      ensures cq.q == Q.AfterStarter(old(cq.q), Q.Attempt(RecvMsg, ok))
    {
      StepKeepsInv(h, Event.Start(ok));
      h := h.(started := true, firstOk := ok);
      var tag := new ReaderTag(this);
      var taken := tag.Start(ok);
      if taken {
        return;
      }
      cq.Delete(tag.id);
      OnError(InternalError(ClientStreamingInitFailed));
      OnEnd();
    }

    method OnMsgStr(msg: Message)
      modifies this
      ensures h == Called(old(h), Msg(msg))
    {
      h := Called(h, Msg(msg));
    }

    method OnError(status: Status)
      modifies this
      ensures h == Called(old(h), Error(status))
    {
      h := Called(h, Error(status));
    }

    method OnEnd()
      modifies this
      ensures h == Called(old(h), End)
    {
      h := Called(h, End);
    }
  }

  class ReaderTag {
    const reader: Reader
    const id: nat

    constructor (reader: Reader)
      modifies reader.cq
      ensures this.reader == reader && id == |old(reader.cq.q).tags|
      ensures reader.cq.q == Q.AfterAllocate(old(reader.cq.q), RecvMsg)
    {
      var tag := reader.cq.New(RecvMsg);
      this.reader, id := reader, tag;
    }

    method Start(ok: bool) returns (taken: bool)
      requires id in reader.cq.q.starting && id < |reader.cq.q.tags|
      modifies reader, reader.cq
      ensures reader.h == AfterTagStart(old(reader.h), ok) && taken == ok
      ensures reader.cq.q == Q.AfterHand(old(reader.cq.q), id, ok)
    {
      taken := reader.cq.Start(id, ok);
      if taken {
        reader.h := reader.h.(outstanding := reader.h.outstanding + 1);
      }
    }

    method DoComplete(read: Read)
      requires Inv(reader.h) && Enabled(reader.h, Complete(read))
      modifies reader, reader.cq
      ensures reader.h == AfterDoComplete(old(reader.h), read) && Inv(reader.h)
      ensures reader.cq.q == Q.AfterStarters(old(reader.cq.q), Attempts(Complete(read)))
    {
      StepKeepsInv(reader.h, Complete(read));
      Q.NoneOrOneStarter(reader.cq.q, Q.Attempt(RecvMsg, read.renewed));
      hide Inv, Q.AfterStarters;
      reader.h := reader.h.(outstanding := reader.h.outstanding - 1, log := reader.h.log + [read]);
      match read.completion {
        case Failed =>
          EndOnError(InternalError(ServerReadFailed));
          return;
        case EndOfStream =>
          reader.OnEnd();
          return;
        case Unparsable(error) =>
          EndOnError(error);
          return;
        case Got(msg) =>
          reader.OnMsgStr(msg);
      }
      if !read.verdict.Ok() {
        EndOnError(read.verdict);
        return;
      }
      var tag := new ReaderTag(reader);
      var taken := tag.Start(read.renewed);
      if taken {
        return;
      }
      reader.cq.Delete(tag.id);
      EndOnError(InternalError(ReadStartFailed));
    }

    method EndOnError(status: Status)
      requires !status.Ok()
      modifies reader
      ensures reader.h == AfterEndOnError(old(reader.h), status)
    {
      reader.OnError(status);
      reader.OnEnd();
    }
  }
}
