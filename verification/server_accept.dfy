/**
 How the server accepts calls (Server, ServerMethodCallCqTag): services are
 registered under their names, starting the server requests one call of every
 registered method, and every completed request is replaced by a new one.
 Several threads may pump, so a request may be being completed at any moment.
 */
module ServerAccept {
  import opened Common
  import opened Q = CompletionQueues

  /** A method of a service that the server accepts calls of; service and handle are pointers. */
  datatype Method = Method(name: string, service: nat, index: nat, handle: nat)

  /** The tags of the server's queue: requests for a call, and the batches of all calls. */
  datatype Tag = Batch | Accept(of: Method)

  /** A service and the handles gRPC gave for its methods; a method without a handle is not served. */
  datatype Registered = Registered(service: nat, methods: seq<Option<nat>>)

  type Services = map<string, Registered>

  datatype State = State(
    services: Services,
    started: bool,
    shutdown: bool,
    servedFrom: Services,  // the services as they were when the server started
    q: Queue<Tag>,
    renewed: set<nat>)     // accept tags whose handler has requested the next call

  datatype Event =
    | Register(name: string, registered: Registered)
    | Begin(order: seq<string>)  // the first Run; order is that of the unordered map
    | Shutdown
    | Renew(id: nat)             // the handler of an accept tag requests the next call
    | InQueue(e: Q.Event<Tag>)   // any other step of a starter or of a pump

  const NEW_SERVER := State(map[], false, false, map[], Q.Empty(), {})

  // ---- What is served ----

  predicate IsRegistered(services: Services, m: Method) {
    && m.name in services
    && services[m.name].service == m.service
    && m.index < |services[m.name].methods|
    && services[m.name].methods[m.index] == Some(m.handle)
  }

  /** The methods of one service that have a handle, up to the n-th. */
  function MethodsOf(name: string, r: Registered, n: nat): seq<Method>
    requires n <= |r.methods|
  {
    if n == 0 then []
    else
      MethodsOf(name, r, n - 1) +
      (if r.methods[n - 1].Some? then [Method(name, r.service, n - 1, r.methods[n - 1].value)] else [])
  }

  function AllMethods(services: Services, order: seq<string>): seq<Method>
    requires forall name <- order :: name in services
  {
    if order == [] then []
    else
      var name := Last(order);
      AllMethods(services, Front(order)) + MethodsOf(name, services[name], |services[name].methods|)
  }

  /** A request is granted: its constructor asserts so. */
  function AfterRequest(q: Queue<Tag>, m: Method): Queue<Tag> {
    AfterStarter(q, Attempt(Accept(m), true))
  }

  function RequestAll(q: Queue<Tag>, ms: seq<Method>): Queue<Tag> {
    if ms == [] then q else AfterRequest(RequestAll(q, Front(ms)), Last(ms))
  }

  ghost predicate IsOrder(order: seq<string>, services: Services) {
    && (forall i, j :: 0 <= i < j < |order| ==> order[i] != order[j])
    && (forall name :: name in order <==> name in services)
  }

  // ---- The steps ----

  function AfterRegister(s: State, name: string, registered: Registered): State {
    s.(services := s.services[name := registered])
  }

  function AfterBegin(s: State, order: seq<string>): State
    requires forall name <- order :: name in s.services
  {
    s.(started := true, servedFrom := s.services, q := RequestAll(s.q, AllMethods(s.services, order)))
  }

  function AfterShutdown(s: State): State {
    s.(shutdown := s.shutdown || s.started)
  }

  function AfterRenew(s: State, id: nat): State
    requires id < |s.q.tags| && s.q.tags[id].Accept?
  {
    s.(q := AfterRequest(s.q, s.q.tags[id].of), renewed := s.renewed + {id})
  }

  predicate CanRenew(s: State, id: nat) {
    id in s.q.completing && id !in s.renewed && id < |s.q.tags| && s.q.tags[id].Accept?
  }

  /** Only Begin and Renew make accept tags, and the handler of one is not done before it has renewed. */
  predicate CanStep(s: State, e: Q.Event<Tag>) {
    && Q.Enabled(s.q, e)
    && (e.Allocate? ==> e.tag.Batch?)
    && (e.Free? ==> e.id < |s.q.tags| && (s.q.tags[e.id].Accept? ==> e.id in s.renewed))
  }

  ghost predicate Enabled(s: State, e: Event) {
    match e
    case Register(_, _) => true
    case Begin(order) => !s.started && !s.shutdown && IsOrder(order, s.services)
    case Shutdown => true
    case Renew(id) => CanRenew(s, id)
    case InQueue(e) => CanStep(s, e)
  }

  ghost function Step(s: State, e: Event): State
    requires Enabled(s, e)
  {
    match e
    case Register(name, registered) => AfterRegister(s, name, registered)
    case Begin(order) => AfterBegin(s, order)
    case Shutdown => AfterShutdown(s)
    case Renew(id) => AfterRenew(s, id)
    case InQueue(e) => s.(q := Q.Step(s.q, e))
  }

  // ---- One request for each method ----

  /** id is a request for calls of m that is pending, or is being completed and not yet renewed. */
  predicate Serves(q: Queue<Tag>, renewed: set<nat>, id: nat, m: Method) {
    && (id in q.outstanding || (id in q.completing && id !in renewed))
    && id < |q.tags| && q.tags[id] == Accept(m)
  }

  ghost predicate OnlyServer(q: Queue<Tag>, renewed: set<nat>, id: nat, m: Method) {
    Serves(q, renewed, id, m) && forall other :: Serves(q, renewed, other, m) ==> other == id
  }

  /** Each of the methods has exactly one request, and there is no other request. */
  ghost predicate ServesExactly(q: Queue<Tag>, renewed: set<nat>, ms: set<Method>) {
    && (forall m <- ms :: exists id :: OnlyServer(q, renewed, id, m))
    && (forall id, m :: Serves(q, renewed, id, m) ==> m in ms)
  }

  /** What is renewed has been given back by gRPC, and no starter holds an accept tag. */
  ghost predicate TagsOk(q: Queue<Tag>, renewed: set<nat>) {
    && (forall id <- renewed :: id in q.taken && id !in q.outstanding)
    && (forall id <- q.starting + q.refused :: id < |q.tags| && q.tags[id].Batch?)
  }

  lemma RequestServes(q: Queue<Tag>, renewed: set<nat>, m: Method, ms: set<Method>)
    requires Q.Inv(q) && TagsOk(q, renewed) && ServesExactly(q, renewed, ms) && m !in ms
    ensures ServesExactly(AfterRequest(q, m), renewed, ms + {m})
  {
    var r := AfterRequest(q, m);
    forall id, k
      ensures Serves(r, renewed, id, k) <==> Serves(q, renewed, id, k) || (id == |q.tags| && k == m)
    {
    }
    hide Serves, AfterRequest;
    forall k <- ms + {m}
      ensures exists id :: OnlyServer(r, renewed, id, k)
    {
      if k == m {
        assert OnlyServer(r, renewed, |q.tags|, m);
      } else {
        var id :| OnlyServer(q, renewed, id, k);
        assert OnlyServer(r, renewed, id, k);
      }
    }
  }

  lemma RenewServes(s: State, done: nat, ms: set<Method>)
    requires Q.Inv(s.q) && TagsOk(s.q, s.renewed) && ServesExactly(s.q, s.renewed, ms) && CanRenew(s, done)
    ensures var r := AfterRenew(s, done); ServesExactly(r.q, r.renewed, ms)
  {
    var m := s.q.tags[done].of;
    var r := AfterRenew(s, done);
    forall id, k
      ensures Serves(r.q, r.renewed, id, k) <==>
              (Serves(s.q, s.renewed, id, k) && id != done) || (id == |s.q.tags| && k == m)
    {
    }
    assert Serves(s.q, s.renewed, done, m);
    assert forall k :: Serves(s.q, s.renewed, done, k) ==> k == m;
    hide Serves, AfterRenew;
    forall k <- ms
      ensures exists id :: OnlyServer(r.q, r.renewed, id, k)
    {
      if k == m {
        assert OnlyServer(r.q, r.renewed, |s.q.tags|, m);
      } else {
        var id :| OnlyServer(s.q, s.renewed, id, k);
        assert OnlyServer(r.q, r.renewed, id, k);
      }
    }
  }

  /** Steps other than requests keep who serves what. */
  lemma OtherStepsServe(s: State, e: Q.Event<Tag>, ms: set<Method>)
    requires Q.Inv(s.q) && TagsOk(s.q, s.renewed) && ServesExactly(s.q, s.renewed, ms) && CanStep(s, e)
    ensures ServesExactly(Q.Step(s.q, e), s.renewed, ms)
  {
    var r := Q.Step(s.q, e);
    forall id, m
      ensures Serves(r, s.renewed, id, m) <==> Serves(s.q, s.renewed, id, m)
    {
      if e.Hand? && id == e.id {
        assert id in s.q.starting + s.q.refused;
      }
    }
    hide Serves, Q.Step;
    forall m <- ms
      ensures exists id :: OnlyServer(r, s.renewed, id, m)
    {
      var id :| OnlyServer(s.q, s.renewed, id, m);
      assert OnlyServer(r, s.renewed, id, m);
    }
  }

  lemma StepKeepsTagsOk(s: State, e: Q.Event<Tag>)
    requires Q.Inv(s.q) && TagsOk(s.q, s.renewed) && CanStep(s, e)
    ensures TagsOk(Q.Step(s.q, e), s.renewed)
  {
    if e.Hand? {
      assert e.id in s.q.starting + s.q.refused;
    }
  }

  // ---- The requests are exactly those of the registered methods ----

  ghost predicate Distinct<T>(xs: seq<T>) {
    forall i, j :: 0 <= i < j < |xs| ==> xs[i] != xs[j]
  }

  ghost function Elements<T>(xs: seq<T>): set<T> {
    set x | x in xs
  }

  lemma {:induction false} MethodsOfAre(name: string, r: Registered, n: nat)
    requires n <= |r.methods|
    ensures forall m :: m in MethodsOf(name, r, n) <==>
              m.name == name && m.service == r.service && m.index < n && r.methods[m.index] == Some(m.handle)
    ensures Distinct(MethodsOf(name, r, n))
  {
    if n > 0 {
      MethodsOfAre(name, r, n - 1);
    }
  }

  lemma {:induction false} AllMethodsAre(services: Services, order: seq<string>)
    requires Distinct(order) && forall name <- order :: name in services
    ensures forall m :: m in AllMethods(services, order) <==> m.name in order && IsRegistered(services, m)
    ensures Distinct(AllMethods(services, order))
  {
    if order != [] {
      var name := Last(order);
      assert order == Front(order) + [name];
      AllMethodsAre(services, Front(order));
      MethodsOfAre(name, services[name], |services[name].methods|);
      hide MethodsOf;
      var front := AllMethods(services, Front(order));
      var back := MethodsOf(name, services[name], |services[name].methods|);
      assert AllMethods(services, order) == front + back;
      assert forall i, j :: 0 <= i < |front| && 0 <= j < |back| ==> front[i] in front && back[j] in back;
    }
  }

  lemma RequestKeepsInv(q: Queue<Tag>, renewed: set<nat>, m: Method)
    requires Q.Inv(q) && TagsOk(q, renewed)
    ensures Q.Inv(AfterRequest(q, m)) && TagsOk(AfterRequest(q, m), renewed)
  {
    var a := Attempt(Accept(m), true);
    var events := StarterIsARun(q, a);
    Q.RunKeepsInv(q, events);
    assert |q.tags| !in q.starting && |q.tags| !in q.refused && |q.tags| !in q.taken;
  }

  lemma {:induction false} RequestAllServes(q: Queue<Tag>, renewed: set<nat>, ms: seq<Method>)
    requires Q.Inv(q) && TagsOk(q, renewed) && ServesExactly(q, renewed, {}) && Distinct(ms)
    ensures var r := RequestAll(q, ms);
            Q.Inv(r) && TagsOk(r, renewed) && ServesExactly(r, renewed, Elements(ms))
  {
    hide Q.Inv, ServesExactly, AfterRequest, TagsOk;
    if ms == [] {
      assert Elements(ms) == {};
    } else {
      var m := Last(ms);
      assert ms == Front(ms) + [m];
      RequestAllServes(q, renewed, Front(ms));
      RequestKeepsInv(RequestAll(q, Front(ms)), renewed, m);
      RequestServes(RequestAll(q, Front(ms)), renewed, m, Elements(Front(ms)));
      assert Elements(ms) == Elements(Front(ms)) + {m};
    }
  }

  /** The requests in the queue are those of ms, the methods registered when the server started. */
  ghost predicate IsServed(s: State, ms: set<Method>) {
    ServesExactly(s.q, s.renewed, ms) && forall m :: m in ms <==> IsRegistered(s.servedFrom, m)
  }

  ghost function Served(s: State): set<Method>
    requires StateInv(s)
  {
    var ms :| IsServed(s, ms);
    ms
  }

  ghost predicate StateInv(s: State) {
    && Q.Inv(s.q) && TagsOk(s.q, s.renewed)
    && (!s.started ==> s.servedFrom == map[])
    && exists ms :: IsServed(s, ms)
  }

  lemma NewServerHolds()
    ensures StateInv(NEW_SERVER)
  {
    assert IsServed(NEW_SERVER, {});
  }

  lemma BeginKeepsInv(s: State, order: seq<string>)
    requires StateInv(s) && Enabled(s, Begin(order))
    ensures StateInv(AfterBegin(s, order))
  {
    hide Q.Inv, ServesExactly, RequestAll, AllMethods, TagsOk;
    assert Served(s) == {};
    AllMethodsAre(s.services, order);
    var ms := AllMethods(s.services, order);
    RequestAllServes(s.q, s.renewed, ms);
    assert IsServed(AfterBegin(s, order), Elements(ms));
  }

  lemma RenewKeepsInv(s: State, id: nat)
    requires StateInv(s) && CanRenew(s, id)
    ensures StateInv(AfterRenew(s, id))
  {
    var ms := Served(s);
    RenewServes(s, id, ms);
    RequestKeepsInv(s.q, s.renewed, s.q.tags[id].of);
    RenewedTagsOk(s, id);
    hide Q.Inv, ServesExactly, TagsOk;
    assert IsServed(AfterRenew(s, id), ms);
  }

  lemma RenewedTagsOk(s: State, id: nat)
    requires Q.Inv(s.q) && TagsOk(s.q, s.renewed) && CanRenew(s, id)
    ensures TagsOk(AfterRenew(s, id).q, AfterRenew(s, id).renewed)
  {
    RequestKeepsInv(s.q, s.renewed, s.q.tags[id].of);
    assert id in s.q.taken && id !in s.q.outstanding && |s.q.tags| !in s.q.taken;
  }

  lemma QueueKeepsInv(s: State, e: Q.Event<Tag>)
    requires StateInv(s) && CanStep(s, e)
    ensures StateInv(s.(q := Q.Step(s.q, e)))
  {
    var ms := Served(s);
    Q.StepKeepsInv(s.q, e);
    StepKeepsTagsOk(s, e);
    OtherStepsServe(s, e, ms);
    hide Q.Inv, ServesExactly, TagsOk, Q.Step;
    assert IsServed(s.(q := Q.Step(s.q, e)), ms);
  }

  lemma EventKeepsInv(s: State, e: Event)
    requires StateInv(s) && Enabled(s, e)
    ensures StateInv(Step(s, e))
  {
    match e
    case Begin(order) => BeginKeepsInv(s, order);
    case InQueue(e) => QueueKeepsInv(s, e);
    case Renew(id) => RenewKeepsInv(s, id);
    case _ => assert IsServed(Step(s, e), Served(s));
  }

  ghost predicate Feasible(s: State, events: seq<Event>)
    decreases |events|
  {
    events == [] || (Enabled(s, events[0]) && Feasible(Step(s, events[0]), events[1..]))
  }

  ghost function Run(s: State, events: seq<Event>): State
    requires Feasible(s, events)
    decreases |events|
  {
    if events == [] then s else Run(Step(s, events[0]), events[1..])
  }

  lemma {:induction false} RunKeepsInv(s: State, events: seq<Event>)
    requires StateInv(s) && Feasible(s, events)
    ensures StateInv(Run(s, events))
    decreases |events|
  {
    hide StateInv;
    if events != [] {
      EventKeepsInv(s, events[0]);
      RunKeepsInv(Step(s, events[0]), events[1..]);
    }
  }

  /** m has exactly one request, which may be about to be replaced. */
  ghost predicate HasOneServer(s: State, m: Method) {
    exists id :: OnlyServer(s.q, s.renewed, id, m)
  }

  ghost predicate HasServer(s: State, m: Method) {
    exists id :: Serves(s.q, s.renewed, id, m)
  }

  /** A request of m that gRPC holds. */
  ghost predicate Pending(q: Queue<Tag>, id: nat, m: Method) {
    id in q.outstanding && id < |q.tags| && q.tags[id] == Accept(m)
  }

  ghost predicate OnlyPending(q: Queue<Tag>, id: nat, m: Method) {
    Pending(q, id, m) && forall other :: Pending(q, other, m) ==> other == id
  }

  /** No thread is inside the handler of an accept tag. */
  ghost predicate NoAcceptHandler(q: Queue<Tag>) {
    forall id <- q.completing :: id < |q.tags| && q.tags[id] == Batch
  }

  /** A method has a request exactly if it was registered with a handle at the start, and then one. */
  lemma ServedAreRegistered(s: State, m: Method)
    requires StateInv(s)
    ensures IsRegistered(s.servedFrom, m) <==> HasOneServer(s, m)
    ensures IsRegistered(s.servedFrom, m) <==> HasServer(s, m)
  {
    hide IsRegistered, Serves;
    var ms := Served(s);
    if m in ms {
      var id :| OnlyServer(s.q, s.renewed, id, m);
    }
  }

  /**
   In every run, whatever is registered before or after: a method has a request
   only if it was registered with a handle when the server started; then
   exactly one request is pending, or being completed and about to be replaced;
   and while no accept handler runs it is pending.
   */
  lemma AcceptsOfEveryRun(events: seq<Event>, m: Method)
    requires Feasible(NEW_SERVER, events)
    ensures var s := Run(NEW_SERVER, events);
            && (IsRegistered(s.servedFrom, m) <==> HasOneServer(s, m))
            && (IsRegistered(s.servedFrom, m) <==> HasServer(s, m))
            && (NoAcceptHandler(s.q) ==> (IsRegistered(s.servedFrom, m) <==> exists id :: OnlyPending(s.q, id, m)))
  {
    NewServerHolds();
    RunKeepsInv(NEW_SERVER, events);
    var s := Run(NEW_SERVER, events);
    hide Run, Feasible, IsRegistered;
    ServedAreRegistered(s, m);
    if NoAcceptHandler(s.q) {
      PendingIsServing(s, m);
      hide Serves, Pending;
      if HasOneServer(s, m) {
        var id :| OnlyServer(s.q, s.renewed, id, m);
        assert OnlyPending(s.q, id, m);
      }
    }
  }

  lemma PendingIsServing(s: State, m: Method)
    requires Q.Inv(s.q) && NoAcceptHandler(s.q)
    ensures forall id :: Pending(s.q, id, m) <==> Serves(s.q, s.renewed, id, m)
  {
  }

  lemma {:induction false} RunKeepsServedFrom(s: State, events: seq<Event>)
    requires s.started && Feasible(s, events)
    ensures Run(s, events).started && Run(s, events).servedFrom == s.servedFrom
    decreases |events|
  {
    if events != [] {
      RunKeepsServedFrom(Step(s, events[0]), events[1..]);
    }
  }

  /** Once the server has started no registration, and nothing else, changes which methods have a request. */
  lemma LateRegistrationIsIgnored(s: State, events: seq<Event>, m: Method)
    requires StateInv(s) && s.started && Feasible(s, events)
    ensures HasOneServer(s, m) <==> HasOneServer(Run(s, events), m)
    ensures HasServer(s, m) <==> HasServer(Run(s, events), m)
  {
    hide StateInv, HasOneServer, HasServer, IsRegistered;
    RunKeepsInv(s, events);
    RunKeepsServedFrom(s, events);
    ServedAreRegistered(s, m);
    ServedAreRegistered(Run(s, events), m);
  }

  // ---- What was registered ----

  /** The registration of a name that counts: the last one before the server starts. */
  ghost function Registration(events: seq<Event>, name: string): Option<Registered>
    decreases |events|
  {
    if events == [] || events[0].Begin? then None
    else
      var later := Registration(events[1..], name);
      if later.Some? then later
      else if events[0].Register? && events[0].name == name then Some(events[0].registered)
      else None
  }

  ghost predicate Begins(events: seq<Event>) {
    exists e <- events :: e.Begin?
  }

  function Lookup(services: Services, name: string): Option<Registered> {
    if name in services then Some(services[name]) else None
  }

  lemma {:induction false} RegistrationsOfRun(s: State, events: seq<Event>, name: string)
    requires Feasible(s, events) && !s.started
    ensures Run(s, events).started <==> Begins(events)
    ensures Begins(events) ==>
              Lookup(Run(s, events).servedFrom, name) ==
              if Registration(events, name).Some? then Registration(events, name) else Lookup(s.services, name)
    decreases |events|
  {
    if events != [] {
      var t, rest := Step(s, events[0]), events[1..];
      assert events == [events[0]] + rest;
      if events[0].Begin? {
        RunKeepsServedFrom(t, rest);
      } else {
        RegistrationsOfRun(t, rest, name);
      }
    }
  }

  /**
   In every run in which the server starts: a method has a request, exactly one,
   exactly if the last registration of its service before the start gave it that
   handle at that place.
   */
  lemma ServesWhatWasRegistered(events: seq<Event>, m: Method)
    requires Feasible(NEW_SERVER, events) && Begins(events)
    ensures var r := Registration(events, m.name);
            HasOneServer(Run(NEW_SERVER, events), m) <==>
            && r.Some? && r.value.service == m.service
            && m.index < |r.value.methods| && r.value.methods[m.index] == Some(m.handle)
  {
    hide Run, HasOneServer, Registration;
    AcceptsOfEveryRun(events, m);
    RegistrationsOfRun(NEW_SERVER, events, m.name);
  }

  /** A started server can be shut down and stays so; one that was not started cannot. */
  lemma {:induction false} ShutdownOfEveryRun(s: State, events: seq<Event>)
    requires Feasible(s, events)
    ensures s.shutdown ==> Run(s, events).shutdown
    ensures s.started && Shutdown in events ==> Run(s, events).shutdown
    ensures !s.shutdown && Shutdown !in events ==> !Run(s, events).shutdown
    ensures !s.shutdown && !Run(s, events).started ==> !Run(s, events).shutdown
    decreases |events|
  {
    if events != [] {
      assert events == [events[0]] + events[1..];
      ShutdownOfEveryRun(Step(s, events[0]), events[1..]);
      if Step(s, events[0]).started {
        RunKeepsServedFrom(Step(s, events[0]), events[1..]);
      }
    }
  }

  // ---- One turn of one thread ----

  /** Only the successor of an accept tag is a request. */
  predicate AreBatches(attempts: seq<Attempt<Tag>>) {
    forall a <- attempts :: a.tag.Batch?
  }

  /** What the handler of a tag attempts: an accept tag serves the call if it succeeded, and renews. */
  function AttemptsOf(t: Tag, success: bool, starts: seq<Attempt<Tag>>): seq<Attempt<Tag>> {
    match t
    case Batch => starts
    case Accept(_) => (if success then starts else []) + [Attempt(t, true)]
  }

  /** The pump completes tag id; renewed records that its handler has done its part. */
  function AfterPump(s: State, id: nat, success: bool, starts: seq<Attempt<Tag>>): State
    requires id < |s.q.tags|
  {
    var t := s.q.tags[id];
    s.(q := AfterTurn(s.q, Turn(true, AttemptsOf(t, success, starts), true, id)),
       renewed := if t.Accept? then s.renewed + {id} else s.renewed)
  }

  lemma StarterKeepsInv(s: State, a: Attempt<Tag>)
    requires StateInv(s) && a.tag.Batch?
    ensures StateInv(s.(q := AfterStarter(s.q, a)))
  {
    hide StateInv;
    var id := |s.q.tags|;
    var e := Allocate(a.tag);
    QueueKeepsInv(s, e);
    var t := s.(q := Q.Step(s.q, e));
    QueueKeepsInv(t, Hand(id, a.ok));
    var u := t.(q := Q.Step(t.q, Hand(id, a.ok)));
    if !a.ok {
      QueueKeepsInv(u, Delete(id));
    }
  }

  lemma {:induction false} StartersKeepInv(s: State, attempts: seq<Attempt<Tag>>)
    requires StateInv(s) && AreBatches(attempts)
    ensures StateInv(s.(q := AfterStarters(s.q, attempts)))
    ensures s.q.tags <= AfterStarters(s.q, attempts).tags
    ensures AfterStarters(s.q, attempts).completing == s.q.completing
    decreases |attempts|
  {
    hide StateInv;
    if attempts == [] {
      assert s.(q := s.q) == s;
    } else {
      StarterKeepsInv(s, attempts[0]);
      StartersKeepInv(s.(q := AfterStarter(s.q, attempts[0])), attempts[1..]);
    }
  }

  /** The state after the handler of tag id, which the pump has got back. */
  function AfterHandler(s: State, id: nat, success: bool, starts: seq<Attempt<Tag>>): State
    requires id < |s.q.tags|
  {
    var t := s.q.tags[id];
    s.(q := AfterStarters(s.q, AttemptsOf(t, success, starts)),
       renewed := if t.Accept? then s.renewed + {id} else s.renewed)
  }

  lemma HandlerKeepsInv(s: State, id: nat, success: bool, starts: seq<Attempt<Tag>>)
    requires StateInv(s) && id in s.q.completing && id !in s.renewed && id < |s.q.tags| && AreBatches(starts)
    ensures var r := AfterHandler(s, id, success, starts); StateInv(r) && CanStep(r, Free(id))
  {
    hide StateInv;
    var t := s.q.tags[id];
    var calls := if t.Batch? || success then starts else [];
    StartersKeepInv(s, calls);
    if t.Accept? {
      var r := s.(q := AfterStarters(s.q, calls));
      RenewKeepsInv(r, id);
      StartersConcat(s.q, calls, [Attempt(t, true)]);
      OneStarter(r.q, Attempt(t, true));
      hide AfterStarter;
      assert AfterHandler(s, id, success, starts) == AfterRenew(r, id);
      KeepsCompleting(r.q, Attempt(t, true));
    }
  }

  lemma OneStarter(q: Queue<Tag>, a: Attempt<Tag>)
    ensures AfterStarters(q, [a]) == AfterStarter(q, a)
  {
    assert [a][1..] == [];
  }

  lemma KeepsCompleting(q: Queue<Tag>, a: Attempt<Tag>)
    ensures AfterStarter(q, a).completing == q.completing && q.tags <= AfterStarter(q, a).tags
  {
  }

  /** One turn of the pump keeps the requests as they are. */
  lemma PumpKeepsInv(s: State, id: nat, success: bool, starts: seq<Attempt<Tag>>)
    requires StateInv(s) && id in s.q.outstanding && id < |s.q.tags| && AreBatches(starts)
    ensures StateInv(AfterPump(s, id, success, starts))
  {
    assert id !in s.renewed;
    hide StateInv, AreBatches, AttemptsOf;
    QueueKeepsInv(s, Take(id));
    var begun := s.(q := AfterTake(s.q, id));
    HandlerKeepsInv(begun, id, success, starts);
    QueueKeepsInv(AfterHandler(begun, id, success, starts), Free(id));
  }

  /** A turn of the pump goes through events of the server: the tag is taken, handled and freed. */
  lemma PumpIsARun(s: State, id: nat, success: bool, starts: seq<Attempt<Tag>>) returns (events: seq<Event>)
    requires StateInv(s) && id in s.q.outstanding && id < |s.q.tags| && AreBatches(starts)
    ensures Feasible(s, events) && Run(s, events) == AfterPump(s, id, success, starts)
    ensures |events| >= 2 && events[0] == InQueue(Take(id)) && Last(events) == InQueue(Free(id))
  {
    hide StateInv, AreBatches, AttemptsOf, Run, Feasible, AfterStarters;
    var begun := s.(q := AfterTake(s.q, id));
    QueueKeepsInv(s, Take(id));
    OneEventRuns(s, InQueue(Take(id)));
    var handled := AfterHandler(begun, id, success, starts);
    NotRenewed(s, id);
    HandlerKeepsInv(begun, id, success, starts);
    var inner := HandlerIsARun(begun, id, success, starts);
    OneEventRuns(handled, InQueue(Free(id)));
    RunsConcat(s, [InQueue(Take(id))], inner);
    RunsConcat(s, [InQueue(Take(id))] + inner, [InQueue(Free(id))]);
    events := [InQueue(Take(id))] + inner + [InQueue(Free(id))];
  }

  lemma NotRenewed(s: State, id: nat)
    requires StateInv(s) && id in s.q.outstanding
    ensures id !in s.renewed
  {
  }

  lemma OneEventRuns(s: State, e: Event)
    requires Enabled(s, e)
    ensures Feasible(s, [e]) && Run(s, [e]) == Step(s, e)
  {
    assert [e][1..] == [];
    assert Feasible(Step(s, e), []);
  }

  lemma {:induction false} RunsConcat(s: State, a: seq<Event>, b: seq<Event>)
    requires Feasible(s, a) && Feasible(Run(s, a), b)
    ensures Feasible(s, a + b) && Run(s, a + b) == Run(Run(s, a), b)
    decreases |a|
  {
    if a == [] {
      assert a + b == b;
    } else {
      assert (a + b)[0] == a[0] && (a + b)[1..] == a[1..] + b;
      RunsConcat(Step(s, a[0]), a[1..], b);
    }
  }

  lemma StarterRuns(s: State, a: Attempt<Tag>) returns (events: seq<Event>)
    requires a.tag.Batch?
    ensures Feasible(s, events) && Run(s, events) == s.(q := AfterStarter(s.q, a))
  {
    hide Run, Feasible;
    var id := |s.q.tags|;
    var made, hand := InQueue(Allocate(a.tag)), InQueue(Hand(id, a.ok));
    var t := s.(q := AfterAllocate(s.q, a.tag));
    var u := t.(q := AfterHand(t.q, id, a.ok));
    OneEventRuns(s, made);
    OneEventRuns(t, hand);
    RunsConcat(s, [made], [hand]);
    events := [made] + [hand];
    if !a.ok {
      OneEventRuns(u, InQueue(Delete(id)));
      RunsConcat(s, events, [InQueue(Delete(id))]);
      events := events + [InQueue(Delete(id))];
    }
  }

  lemma {:induction false} StartersRun(s: State, attempts: seq<Attempt<Tag>>) returns (events: seq<Event>)
    requires AreBatches(attempts)
    ensures Feasible(s, events) && Run(s, events) == s.(q := AfterStarters(s.q, attempts))
    decreases |attempts|
  {
    if attempts == [] {
      events := [];
    } else {
      hide Run, Feasible, AfterStarter;
      var first := StarterRuns(s, attempts[0]);
      var t := s.(q := AfterStarter(s.q, attempts[0]));
      var rest := StartersRun(t, attempts[1..]);
      RunsConcat(s, first, rest);
      events := first + rest;
    }
  }

  lemma HandlerIsARun(s: State, id: nat, success: bool, starts: seq<Attempt<Tag>>) returns (events: seq<Event>)
    requires StateInv(s) && id in s.q.completing && id !in s.renewed && id < |s.q.tags| && AreBatches(starts)
    ensures Feasible(s, events) && Run(s, events) == AfterHandler(s, id, success, starts)
  {
    hide StateInv, Run, Feasible;
    var t := s.q.tags[id];
    var calls := if t.Batch? || success then starts else [];
    events := StartersRun(s, calls);
    if t.Accept? {
      var r := s.(q := AfterStarters(s.q, calls));
      StartersKeepInv(s, calls);
      StartersConcat(s.q, calls, [Attempt(t, true)]);
      OneStarter(r.q, Attempt(t, true));
      hide AfterStarter;
      OneEventRuns(r, Renew(id));
      RunsConcat(s, events, [Renew(id)]);
      events := events + [Renew(id)];
      assert AfterHandler(s, id, success, starts) == AfterRenew(r, id);
    }
  }

  // ---- The program ----

  class Server {
    var services: Services
    var started: bool
    var shutdown: bool
    const cq: CompletionQueue<Tag>
    ghost var servedFrom: Services
    ghost var renewed: set<nat>

    ghost function Value(): State
      reads this, cq
    {
      State(services, started, shutdown, servedFrom, cq.q, renewed)
    }

    constructor ()
      ensures Value() == NEW_SERVER && fresh(cq)
    {
      services, started, shutdown, servedFrom, renewed := map[], false, false, map[], {};
      cq := new CompletionQueue();
    }

    /** handles: what grpc_server_register_method returns for each method, None for null. */
    method RegisterService(name: string, service: nat, handles: seq<Option<nat>>)
      modifies this
      ensures Value() == AfterRegister(old(Value()), name, Registered(service, handles))
    {
      services := services[name := Registered(service, [])];
      var i := 0;
      while i < |handles|
        invariant 0 <= i <= |handles|
        invariant name in services && services[name] == Registered(service, handles[..i])
        invariant services == old(services)[name := services[name]]
        invariant started == old(started) && shutdown == old(shutdown) && servedFrom == old(servedFrom)
        invariant renewed == old(renewed)
      {
        services := services[name := Registered(service, services[name].methods + [handles[i]])];
        i := i + 1;
      }
      assert handles[..i] == handles;
    }

    method ShutdownInternal()
      requires StateInv(Value())
      modifies this
      ensures Value() == AfterShutdown(old(Value()))
      ensures StateInv(Value())
      ensures shutdown == (old(shutdown) || started) && started == old(started)
      ensures cq.q == old(cq.q) && services == old(services) && servedFrom == old(servedFrom)
    {
      EventKeepsInv(Value(), Shutdown);
      if !started {
        return;
      }
      if shutdown {
        return;
      }
      shutdown := true;
    }

    /** The first part of Run: the first call starts the server. */
    method Start(order: seq<string>)
      requires StateInv(Value()) && IsOrder(order, services) && !shutdown
      modifies this, cq
      ensures Value() == if old(started) then old(Value()) else AfterBegin(old(Value()), order)
      ensures StateInv(Value())
    {
      if started {
        return;
      }
      BeginKeepsInv(Value(), order);
      started := true;
      servedFrom := services;
      RequestMethodsCalls(order);
    }

    /** One turn: starts the server the first time, and completes the tag that the queue has, if any. */
    method Run(order: seq<string>, c: CqEvent, success: bool, starts: seq<Attempt<Tag>>)
      requires StateInv(Value()) && IsOrder(order, services) && AreBatches(starts)
      requires c.OpComplete? && !shutdown && !started ==> c.id in AfterBegin(Value(), order).q.outstanding
      requires c.OpComplete? && started ==> c.id in cq.q.outstanding
      modifies this, cq
      ensures StateInv(Value())
      ensures old(shutdown) ==> Value() == old(Value())
      ensures !old(shutdown) ==>
                var t := if old(started) then old(Value()) else AfterBegin(old(Value()), order);
                if c.OpComplete? then c.id < |t.q.tags| && Value() == AfterPump(t, c.id, success, starts)
                else Value() == t
    {
      if shutdown {
        return;
      }
      Start(order);
      if c.OpComplete? {
        OutstandingTagExists(cq.q, c.id);
      }
      var _ := DoTryNextCompletion(c, success, starts);
    }

    lemma OutstandingTagExists(q: Queue<Tag>, id: nat)
      requires Q.Inv(q) && id in q.outstanding
      ensures id < |q.tags|
    {
      assert id in q.taken;
    }

    /** Completes the tag that the queue has, if any; false when the queue has shut down. */
    method DoTryNextCompletion(c: CqEvent, success: bool, starts: seq<Attempt<Tag>>) returns (more: bool)
      requires StateInv(Value()) && AreBatches(starts)
      requires c.OpComplete? ==> c.id in cq.q.outstanding && c.id < |cq.q.tags|
      modifies this`renewed, cq
      ensures StateInv(Value())
      ensures Value() == if c.OpComplete? then AfterPump(old(Value()), c.id, success, starts) else old(Value())
      ensures more <==> !c.QueueShutdown?
    {
      hide StateInv, AreBatches, AfterPump;
      match c {
        case OpComplete(id) =>
          Complete(id, success, starts);
          return true;
        case QueueShutdown => return false;
        case Timeout => return true;
      }
    }

    /** Runs the handler of a tag and deletes the tag. */
    method Complete(id: nat, success: bool, starts: seq<Attempt<Tag>>)
      requires StateInv(Value()) && id in cq.q.outstanding && id < |cq.q.tags| && AreBatches(starts)
      modifies this`renewed, cq
      ensures StateInv(Value()) && Value() == AfterPump(old(Value()), id, success, starts)
    {
      hide StateInv, AreBatches;
      PumpKeepsInv(Value(), id, success, starts);
      var t := cq.q.tags[id];
      cq.q := AfterTake(cq.q, id);
      ghost var q1 := cq.q;
      match t {
        case Batch =>
          cq.DoComplete(starts);
        case Accept(m) =>
          if success {
            cq.DoComplete(starts);
          }
          renewed := renewed + {id};
          ghost var calls := if success then starts else [];
          assert cq.q == AfterStarters(q1, calls);
          StartersConcat(q1, calls, [Attempt(t, true)]);
          assert [Attempt(t, true)][1..] == [];
          RequestCall(m);
      }
      assert cq.q == AfterStarters(q1, AttemptsOf(t, success, starts));
      cq.q := AfterFree(cq.q, id);
    }

    /** The constructor of an accept tag: it asserts that the request is granted. */
    method RequestCall(m: Method)
      modifies cq
      ensures cq.q == AfterRequest(old(cq.q), m)
    {
      var tag := cq.New(Accept(m));
      var granted := cq.Start(tag, true);
      assert granted;
    }

    method RequestMethodsCalls(order: seq<string>)
      requires forall name <- order :: name in services
      modifies cq
      ensures cq.q == RequestAll(old(cq.q), AllMethods(services, order))
    {
      var i := 0;
      while i < |order|
        invariant 0 <= i <= |order|
        invariant cq.q == RequestAll(old(cq.q), AllMethods(services, order[..i]))
      {
        RequestServiceMethodsCalls(order[i], services[order[i]]);
        ghost var r := services[order[i]];
        RequestAllConcat(old(cq.q), AllMethods(services, order[..i]), MethodsOf(order[i], r, |r.methods|));
        assert Front(order[..i + 1]) == order[..i] && Last(order[..i + 1]) == order[i];
        i := i + 1;
      }
      assert order[..i] == order;
    }

    method RequestServiceMethodsCalls(name: string, r: Registered)
      modifies cq
      ensures cq.q == RequestAll(old(cq.q), MethodsOf(name, r, |r.methods|))
    {
      var i := 0;
      while i < |r.methods|
        invariant 0 <= i <= |r.methods|
        invariant cq.q == RequestAll(old(cq.q), MethodsOf(name, r, i))
      {
        ghost var before := MethodsOf(name, r, i);
        i := i + 1;
        if r.methods[i - 1].None? {
          assert MethodsOf(name, r, i) == before;
          continue;
        }
        var m := Method(name, r.service, i - 1, r.methods[i - 1].value);
        RequestCall(m);
        assert Front(before + [m]) == before;
      }
    }
  }

  lemma {:induction false} RequestAllConcat(q: Queue<Tag>, a: seq<Method>, b: seq<Method>)
    ensures RequestAll(q, a + b) == RequestAll(RequestAll(q, a), b)
    decreases |b|
  {
    if b == [] {
      assert a + b == a;
    } else {
      assert Front(a + b) == a + Front(b) && Last(a + b) == Last(b);
      RequestAllConcat(q, a, Front(b));
    }
  }
}
