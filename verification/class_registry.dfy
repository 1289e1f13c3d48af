/**
 The metatables behind C++ classes in Lua (CppBindClass, CppObject). Each class
 has three tables: one for the class itself, one for its objects, one for its
 const objects. Each is linked to the table of the same kind of its super class.
 Registration fills the tables; member access and type checks walk the links.
 */
module ClassRegistry {
  import opened Common

  type Addr = nat
  type TypeId = nat

  datatype Side = Static | Class | Const

  /** The addresses C++ uses as keys of the Lua registry: one for each type and side. */
  datatype Sig = Sig(side: Side, typ: TypeId)

  /**
   What a table entry can be: a C function that checks its first argument
   against its owner class, a function that only raises an error, the static
   table of the class, or a value or function tied to no object.
   */
  datatype Item =
    | Proc(id: nat, owner: TypeId, isConst: bool)
    | ConstMismatch(name: string)
    | ReadOnly(name: string)
    | ClassTable(typ: TypeId)
    | Plain(id: nat)

  /** One metatable; superMt, classMt and constMt are its ___super, ___class and ___const. */
  datatype Meta = Meta(
    sig: Sig,
    superMt: Option<Addr>,
    classMt: Option<Addr>,
    constMt: Addr,
    members: map<string, Item>,
    getters: map<string, Item>,
    setters: map<string, Item>)

  type Heap = map<Addr, Meta>

  datatype State = State(
    heap: Heap,
    registry: map<Sig, Addr>,
    names: map<(nat, string), Addr>,         // the class tables a module or class holds by name
    next: Addr,
    supers: map<TypeId, Option<TypeId>>)     // the hierarchy as it was declared

  datatype Event =
    | Bind(parent: nat, name: string, typ: TypeId)
    | Extend(parent: nat, name: string, typ: TypeId, base: TypeId)
    | MemberFunction(meta: Addr, name: string, id: nat, isConst: bool)
    | MemberGetter(meta: Addr, name: string, id: nat, isConst: bool, constId: nat, constIsConst: bool)
    | MemberSetter(meta: Addr, name: string, id: nat)
    | MemberReadOnly(meta: Addr, name: string)
    | StaticGetter(meta: Addr, name: string, item: Item)
    | StaticSetter(meta: Addr, name: string, id: nat)
    | StaticReadOnly(meta: Addr, name: string)
    | StaticFunction(meta: Addr, name: string, id: nat)

  const EMPTY_REGISTRY := State(map[], map[], map[], 0, map[])

  // ---- Registration ----

  function NewMeta(sig: Sig, classMt: Option<Addr>, constMt: Addr): Meta {
    Meta(sig, None, classMt, constMt, if sig.side.Static? then map[] else map["class" := ClassTable(sig.typ)],
         map[], map[])
  }

  /** Three new tables; the const one is created first. */
  function AfterBuild(s: State, parent: nat, name: string, t: TypeId): State {
    if (parent, name) in s.names then s
    else
      var k, c, m := s.next, s.next + 1, s.next + 2;
      State(s.heap[k := NewMeta(Sig(Const, t), None, k)]
                  [c := NewMeta(Sig(Class, t), None, k)]
                  [m := NewMeta(Sig(Static, t), Some(c), k)],
            s.registry[Sig(Class, t) := c][Sig(Const, t) := k][Sig(Static, t) := m],
            s.names[(parent, name) := m],
            s.next + 3,
            s.supers[t := None])
  }

  /** Linking a new class to its super class, side by side. */
  function AfterLink(s: State, m: Addr, base: Addr): State
    requires IsStatic(s, m) && IsStatic(s, base) && m != base
  {
    var mt, bt := s.heap[m], s.heap[base];
    var c, k := mt.classMt.value, mt.constMt;
    var h1 := s.heap[m := mt.(superMt := Some(base))];
    var h2 := h1[c := h1[c].(superMt := bt.classMt)];
    s.(heap := h2[k := h2[k].(superMt := Some(bt.constMt))],
       supers := s.supers[mt.sig.typ := Some(bt.sig.typ)])
  }

  function AfterExtend(s: State, parent: nat, name: string, t: TypeId, base: TypeId): State
    requires Inv(s) && CanExtend(s, parent, name, t, base)
  {
    hide AfterBuild, Inv, Older, NewMeta;
    if (parent, name) in s.names then s
    else
      NewIsYoungest(s, parent, name, t, base);
      var b := AfterBuild(s, parent, name, t);
      AfterLink(b, s.next + 2, b.registry[Sig(Static, base)])
  }

  /** A handle that registration code holds: the static table of some class. */
  ghost predicate IsStatic(s: State, m: Addr) {
    && m in s.heap && s.heap[m].sig.side == Static
    && s.heap[m].classMt.Some? && s.heap[m].classMt.value in s.heap && s.heap[m].constMt in s.heap
  }

  /** rawset into the tables of the objects and of the const objects of a class. */
  function SetPair(s: State, m: Addr, c: Meta, k: Meta): State
    requires IsStatic(s, m)
  {
    s.(heap := s.heap[s.heap[m].classMt.value := c][s.heap[m].constMt := k])
  }

  function ClassOf(s: State, m: Addr): Meta
    requires IsStatic(s, m)
  {
    s.heap[s.heap[m].classMt.value]
  }

  function ConstOf(s: State, m: Addr): Meta
    requires IsStatic(s, m)
  {
    s.heap[s.heap[m].constMt]
  }

  function AfterMemberFunction(s: State, m: Addr, name: string, id: nat, isConst: bool): State
    requires IsStatic(s, m)
  {
    var c, k := ClassOf(s, m), ConstOf(s, m);
    var proc := Proc(id, s.heap[m].sig.typ, isConst);
    SetPair(s, m, c.(members := c.members[name := proc]),
            k.(members := k.members[name := if isConst then proc else ConstMismatch(name)]))
  }

  function AfterMemberGetter(s: State, m: Addr, name: string, getter: Item, constGetter: Item): State
    requires IsStatic(s, m)
  {
    var c, k := ClassOf(s, m), ConstOf(s, m);
    SetPair(s, m, c.(getters := c.getters[name := getter]), k.(getters := k.getters[name := constGetter]))
  }

  function AfterMemberSetter(s: State, m: Addr, name: string, id: nat): State
    requires IsStatic(s, m)
  {
    var c, k := ClassOf(s, m), ConstOf(s, m);
    SetPair(s, m, c.(setters := c.setters[name := Proc(id, s.heap[m].sig.typ, false)]),
            k.(setters := k.setters[name := ConstMismatch(name)]))
  }

  function AfterMemberReadOnly(s: State, m: Addr, name: string): State
    requires IsStatic(s, m)
  {
    var c, k := ClassOf(s, m), ConstOf(s, m);
    SetPair(s, m, c.(setters := c.setters[name := ReadOnly(name)]), k.(setters := k.setters[name := ReadOnly(name)]))
  }

  function AfterStatic(s: State, m: Addr, mt: Meta): State {
    s.(heap := s.heap[m := mt])
  }

  /** Each type is registered once; binding a name again gives the class that has it. */
  ghost predicate CanBind(s: State, parent: nat, name: string, t: TypeId) {
    (parent, name) in s.names || t !in s.supers
  }

  /** The same for a class with a super class, which was registered before. */
  ghost predicate CanExtend(s: State, parent: nat, name: string, t: TypeId, base: TypeId) {
    (parent, name) in s.names || (t !in s.supers && base in s.supers)
  }

  ghost predicate Enabled(s: State, e: Event) {
    match e
    case Bind(parent, name, t) => CanBind(s, parent, name, t)
    case Extend(parent, name, t, base) => CanExtend(s, parent, name, t, base)
    case _ => IsStatic(s, e.meta)
  }

  ghost function Step(s: State, e: Event): State
    requires Inv(s) && Enabled(s, e)
  {
    match e
    case Bind(parent, name, t) => AfterBuild(s, parent, name, t)
    case Extend(parent, name, t, base) => AfterExtend(s, parent, name, t, base)
    case MemberFunction(m, name, id, isConst) => AfterMemberFunction(s, m, name, id, isConst)
    case MemberGetter(m, name, id, isConst, constId, constIsConst) =>
      var t := s.heap[m].sig.typ;
      AfterMemberGetter(s, m, name, Proc(id, t, isConst), Proc(constId, t, constIsConst))
    case MemberSetter(m, name, id) => AfterMemberSetter(s, m, name, id)
    case MemberReadOnly(m, name) => AfterMemberReadOnly(s, m, name)
    case StaticGetter(m, name, item) =>
      AfterStatic(s, m, s.heap[m].(getters := s.heap[m].getters[name := item]))
    case StaticSetter(m, name, id) =>
      AfterStatic(s, m, s.heap[m].(setters := s.heap[m].setters[name := Plain(id)]))
    case StaticReadOnly(m, name) =>
      AfterStatic(s, m, s.heap[m].(setters := s.heap[m].setters[name := ReadOnly(name)]))
    case StaticFunction(m, name, id) =>
      AfterStatic(s, m, s.heap[m].(members := s.heap[m].members[name := Plain(id)]))
  }

  // ---- The invariant ----

  /** The entry a const object sees for a member of the class. */
  function ConstView(name: string, item: Item): Item {
    if item.Proc? && !item.isConst then ConstMismatch(name) else item
  }

  /** The tables of one class for its objects and for its const objects. */
  ghost predicate PairOk(t: TypeId, c: Meta, k: Meta) {
    && c.members.Keys == k.members.Keys
    && c.getters.Keys == k.getters.Keys
    && c.setters.Keys == k.setters.Keys
    && (forall n <- c.members :: k.members[n] == ConstView(n, c.members[n]))
    && (forall n <- c.members :: if c.members[n].Proc? then c.members[n].owner == t else c.members[n].ClassTable?)
    && (forall n <- c.getters :: c.getters[n].Proc? && c.getters[n].owner == t)
    && (forall n <- k.getters :: k.getters[n].Proc? && k.getters[n].owner == t)
    && (forall n <- c.setters ::
          || (c.setters[n].Proc? && c.setters[n].owner == t && k.setters[n] == ConstMismatch(n))
          || (c.setters[n] == ReadOnly(n) == k.setters[n]))
  }

  /** The table of a type on one side is there and knows what it is. */
  ghost predicate HasTable(s: State, side: Side, t: TypeId) {
    && Sig(side, t) in s.registry
    && s.registry[Sig(side, t)] in s.heap
    && s.registry[Sig(side, t)] < s.next
    && s.heap[s.registry[Sig(side, t)]].sig == Sig(side, t)
  }

  ghost function TableAddr(s: State, side: Side, t: TypeId): Addr
    requires HasTable(s, side, t)
  {
    s.registry[Sig(side, t)]
  }

  ghost function Table(s: State, side: Side, t: TypeId): Meta
    requires HasTable(s, side, t)
  {
    s.heap[TableAddr(s, side, t)]
  }

  ghost predicate HasTables(s: State, t: TypeId) {
    HasTable(s, Static, t) && HasTable(s, Class, t) && HasTable(s, Const, t)
  }

  /** A table is linked to that of the declared super class, which is older. */
  ghost predicate LinkOk(s: State, side: Side, t: TypeId)
    requires HasTable(s, side, t) && t in s.supers
  {
    match s.supers[t]
    case None => Table(s, side, t).superMt == None
    case Some(u) =>
      && u in s.supers && HasTable(s, side, u)
      && Table(s, side, t).superMt == Some(TableAddr(s, side, u))
      && TableAddr(s, side, u) < TableAddr(s, side, t)
  }

  ghost predicate TypeOk(s: State, t: TypeId)
    requires t in s.supers
  {
    && HasTables(s, t)
    && LinkOk(s, Static, t) && LinkOk(s, Class, t) && LinkOk(s, Const, t)
    && Table(s, Static, t).classMt == Some(TableAddr(s, Class, t))
    && Table(s, Static, t).constMt == TableAddr(s, Const, t)
    && Table(s, Class, t).constMt == TableAddr(s, Const, t)
    && Table(s, Const, t).constMt == TableAddr(s, Const, t)
    && PairOk(t, Table(s, Class, t), Table(s, Const, t))
  }

  ghost predicate TypesOk(s: State) {
    forall t {:trigger TypeOk(s, t)} :: t in s.supers ==> TypeOk(s, t)
  }

  /** Every table is the one registered for what it says it is. */
  ghost predicate HeapOk(s: State) {
    forall a <- s.heap ::
      && a < s.next
      && s.heap[a].sig.typ in s.supers
      && s.heap[a].sig in s.registry && s.registry[s.heap[a].sig] == a
  }

  ghost predicate RegistryOk(s: State) {
    forall sig <- s.registry :: sig.typ in s.supers
  }

  ghost predicate NamesOk(s: State) {
    forall n <- s.names :: s.names[n] in s.heap && s.heap[s.names[n]].sig.side == Static
  }

  ghost predicate Inv(s: State) {
    TypesOk(s) && HeapOk(s) && RegistryOk(s) && NamesOk(s)
  }

  lemma StaticOfType(s: State, m: Addr)
    requires Inv(s) && m in s.heap && s.heap[m].sig.side == Static
    ensures IsStatic(s, m)
    ensures var t := s.heap[m].sig.typ;
            && t in s.supers && HasTables(s, t) && m == TableAddr(s, Static, t)
            && ClassOf(s, m) == Table(s, Class, t) && ConstOf(s, m) == Table(s, Const, t)
            && s.heap[m].classMt.value == TableAddr(s, Class, t) && s.heap[m].constMt == TableAddr(s, Const, t)
            && PairOk(t, ClassOf(s, m), ConstOf(s, m))
  {
    hide PairOk;
    assert TypeOk(s, s.heap[m].sig.typ);
  }

  /** r has the tables of s and those of the new type t. */
  ghost predicate Adds(s: State, r: State, t: TypeId) {
    && t !in s.supers && r.supers == s.supers[t := None] && r.next == s.next + 3
    && (forall sig <- s.registry :: sig in r.registry && r.registry[sig] == s.registry[sig])
    && (forall a <- s.heap :: a in r.heap && r.heap[a] == s.heap[a])
  }

  lemma BuildAdds(s: State, parent: nat, name: string, t: TypeId)
    requires Inv(s) && (parent, name) !in s.names && t !in s.supers
    ensures Adds(s, AfterBuild(s, parent, name, t), t)
  {
    hide TypesOk, NamesOk;
  }

  lemma BuildKeepsInv(s: State, parent: nat, name: string, t: TypeId)
    requires Inv(s) && CanBind(s, parent, name, t)
    ensures Inv(AfterBuild(s, parent, name, t))
    ensures (parent, name) !in s.names ==>
              var r := AfterBuild(s, parent, name, t);
              && IsStatic(r, s.next + 2) && r.heap[s.next + 2].sig == Sig(Static, t)
              && r.next == s.next + 3 && r.supers == s.supers[t := None]
              && forall u <- s.supers ::
                   HasTables(s, u) && HasTables(r, u) && TableAddr(r, Static, u) == TableAddr(s, Static, u)
  {
    if (parent, name) !in s.names {
      var r := AfterBuild(s, parent, name, t);
      BuildAdds(s, parent, name, t);
      NewTypeOk(s, parent, name, t);
      NewTablesAreRegistered(s, parent, name, t);
      hide AfterBuild, TypeOk, HeapOk, RegistryOk, NamesOk;
      forall u <- s.supers
        ensures TypeOk(r, u) && HasTables(s, u) && HasTables(r, u) && TableAddr(r, Static, u) == TableAddr(s, Static, u)
      {
        OldTypeOk(s, r, u, t);
      }
    }
  }

  lemma OldSideOk(s: State, r: State, side: Side, u: TypeId, t: TypeId)
    requires Adds(s, r, t) && u in s.supers && HasTable(s, side, u) && LinkOk(s, side, u)
    ensures HasTable(r, side, u) && TableAddr(r, side, u) == TableAddr(s, side, u)
    ensures Table(r, side, u) == Table(s, side, u) && LinkOk(r, side, u)
  {
    if s.supers[u].Some? {
      assert HasTable(s, side, s.supers[u].value);
    }
  }

  /** Adding the tables of t leaves those of u as they were. */
  lemma OldTypeOk(s: State, r: State, u: TypeId, t: TypeId)
    requires TypesOk(s) && u in s.supers && Adds(s, r, t)
    ensures TypeOk(r, u) && HasTables(s, u) && HasTables(r, u) && TableAddr(r, Static, u) == TableAddr(s, Static, u)
  {
    hide PairOk, LinkOk, TableAddr, Table, HasTable, Adds;
    assert TypeOk(s, u);
    OldSideOk(s, r, Static, u, t);
    OldSideOk(s, r, Class, u, t);
    OldSideOk(s, r, Const, u, t);
    assert u in r.supers by {
      SupersOfAdds(s, r, t);
    }
  }

  lemma SupersOfAdds(s: State, r: State, t: TypeId)
    requires Adds(s, r, t)
    ensures r.supers == s.supers[t := None]
  {
  }

  lemma NewTypeOk(s: State, parent: nat, name: string, t: TypeId)
    requires t !in s.supers && (parent, name) !in s.names
    ensures var r := AfterBuild(s, parent, name, t);
            TypeOk(r, t) && IsStatic(r, s.next + 2) && r.heap[s.next + 2].sig == Sig(Static, t)
  {
  }

  lemma NewTablesAreRegistered(s: State, parent: nat, name: string, t: TypeId)
    requires HeapOk(s) && RegistryOk(s) && NamesOk(s) && t !in s.supers && (parent, name) !in s.names
    ensures var r := AfterBuild(s, parent, name, t); HeapOk(r) && RegistryOk(r) && NamesOk(r)
  {
    NewHeapOk(s, parent, name, t);
    NewNamesOk(s, parent, name, t);
    hide HeapOk, NamesOk;
  }

  lemma NewNamesOk(s: State, parent: nat, name: string, t: TypeId)
    requires HeapOk(s) && NamesOk(s) && (parent, name) !in s.names
    ensures NamesOk(AfterBuild(s, parent, name, t))
  {
    var r := AfterBuild(s, parent, name, t);
    forall n <- r.names
      ensures r.names[n] in r.heap && r.heap[r.names[n]].sig.side == Static
    {
      if n in s.names {
        assert s.names[n] in s.heap;
      }
    }
  }

  lemma NewHeapOk(s: State, parent: nat, name: string, t: TypeId)
    requires HeapOk(s) && t !in s.supers && (parent, name) !in s.names
    ensures HeapOk(AfterBuild(s, parent, name, t))
  {
  }

  predicate SameLinks(a: Meta, b: Meta) {
    a.sig == b.sig && a.superMt == b.superMt && a.classMt == b.classMt && a.constMt == b.constMt
  }

  /** r differs from s in the entries of its tables only. */
  ghost predicate SameTables(s: State, r: State) {
    && r.registry == s.registry && r.names == s.names && r.next == s.next && r.supers == s.supers
    && r.heap.Keys == s.heap.Keys
    && forall a <- s.heap :: SameLinks(s.heap[a], r.heap[a])
  }

  lemma SideStays(s: State, r: State, side: Side, t: TypeId)
    requires SameTables(s, r) && t in s.supers && HasTable(s, side, t) && LinkOk(s, side, t)
    ensures HasTable(r, side, t) && TableAddr(r, side, t) == TableAddr(s, side, t)
    ensures SameLinks(Table(s, side, t), Table(r, side, t)) && LinkOk(r, side, t)
  {
    if s.supers[t].Some? {
      assert HasTable(s, side, s.supers[t].value);
    }
  }

  lemma TypeStays(s: State, r: State, t: TypeId)
    requires SameTables(s, r) && t in s.supers && TypeOk(s, t)
    requires HasTables(r, t) ==> PairOk(t, Table(r, Class, t), Table(r, Const, t))
    ensures t in r.supers && TypeOk(r, t)
  {
    SideStays(s, r, Static, t);
    SideStays(s, r, Class, t);
    SideStays(s, r, Const, t);
    hide PairOk, LinkOk, TableAddr, Table, HasTable;
  }

  lemma RestStays(s: State, r: State)
    requires SameTables(s, r) && HeapOk(s) && RegistryOk(s) && NamesOk(s)
    ensures HeapOk(r) && RegistryOk(r) && NamesOk(r)
  {
  }

  lemma SetPairKeepsInv(s: State, m: Addr, c: Meta, k: Meta)
    requires Inv(s) && IsStatic(s, m)
    requires SameLinks(ClassOf(s, m), c) && SameLinks(ConstOf(s, m), k) && PairOk(s.heap[m].sig.typ, c, k)
    ensures Inv(SetPair(s, m, c, k))
  {
    var r := SetPair(s, m, c, k);
    SetPairSameTables(s, m, c, k);
    RestStays(s, r);
    hide SameTables, PairOk, TypeOk, HeapOk, RegistryOk, NamesOk, SetPair;
    forall t <- s.supers
      ensures t in r.supers && TypeOk(r, t)
    {
      OtherPairStays(s, m, c, k, t);
      TypeStays(s, r, t);
    }
    assert r.supers == s.supers by {
      SameSupers(s, r);
    }
  }

  lemma SameSupers(s: State, r: State)
    requires SameTables(s, r)
    ensures r.supers == s.supers
  {
  }

  lemma SetPairSameTables(s: State, m: Addr, c: Meta, k: Meta)
    requires Inv(s) && IsStatic(s, m) && SameLinks(ClassOf(s, m), c) && SameLinks(ConstOf(s, m), k)
    ensures SameTables(s, SetPair(s, m, c, k))
  {
    hide TypesOk, HeapOk, RegistryOk, NamesOk;
  }

  lemma OtherPairStays(s: State, m: Addr, c: Meta, k: Meta, t: TypeId)
    requires Inv(s) && IsStatic(s, m) && t in s.supers && PairOk(s.heap[m].sig.typ, c, k)
    requires SameLinks(ClassOf(s, m), c) && SameLinks(ConstOf(s, m), k)
    ensures var r := SetPair(s, m, c, k);
            TypeOk(s, t) && (HasTables(r, t) ==> PairOk(t, Table(r, Class, t), Table(r, Const, t)))
  {
    hide PairOk, LinkOk, HeapOk, NamesOk, RegistryOk;
    assert TypeOk(s, t);
    StaticOfType(s, m);
  }

  lemma StaticKeepsInv(s: State, m: Addr, mt: Meta)
    requires Inv(s) && IsStatic(s, m) && SameLinks(s.heap[m], mt)
    ensures Inv(AfterStatic(s, m, mt))
  {
    var r := AfterStatic(s, m, mt);
    StaticSameTables(s, m, mt);
    RestStays(s, r);
    hide SameTables, PairOk, TypeOk, HeapOk, RegistryOk, NamesOk, AfterStatic;
    forall t <- s.supers
      ensures t in r.supers && TypeOk(r, t)
    {
      PairBesideStaticStays(s, m, mt, t);
      TypeStays(s, r, t);
    }
    assert r.supers == s.supers by {
      SameSupers(s, r);
    }
  }

  lemma StaticSameTables(s: State, m: Addr, mt: Meta)
    requires m in s.heap && SameLinks(s.heap[m], mt)
    ensures SameTables(s, AfterStatic(s, m, mt))
  {
  }

  lemma PairBesideStaticStays(s: State, m: Addr, mt: Meta, t: TypeId)
    requires Inv(s) && IsStatic(s, m) && t in s.supers && SameLinks(s.heap[m], mt)
    ensures var r := AfterStatic(s, m, mt);
            TypeOk(s, t) && (HasTables(r, t) ==> PairOk(t, Table(r, Class, t), Table(r, Const, t)))
  {
    hide PairOk, LinkOk, HeapOk, NamesOk, RegistryOk;
    assert TypeOk(s, t);
  }

  /** Linking sets ___super in the three tables of one class and nothing else. */
  lemma LinkedTable(s: State, m: Addr, base: Addr, a: Addr)
    requires Inv(s) && IsStatic(s, m) && IsStatic(s, base) && m != base && a in s.heap
    ensures var r := AfterLink(s, m, base);
            var sig := s.heap[a].sig;
            && r.heap.Keys == s.heap.Keys && r.registry == s.registry && r.next == s.next
            && r.supers == s.supers[s.heap[m].sig.typ := Some(s.heap[base].sig.typ)]
            && HasTable(s, sig.side, s.heap[base].sig.typ)
            && r.heap[a] == s.heap[a].(superMt :=
                 if sig.typ == s.heap[m].sig.typ then Some(TableAddr(s, sig.side, s.heap[base].sig.typ))
                 else s.heap[a].superMt)
  {
    hide PairOk, RegistryOk, NamesOk, LinkOk, TypeOk;
    StaticOfType(s, m);
    StaticOfType(s, base);
    var sig := s.heap[a].sig;
    assert a == s.registry[sig];
    match sig.side
    case Static =>
    case Class =>
    case Const =>
  }

  lemma LinkedSide(s: State, m: Addr, base: Addr, side: Side, t: TypeId)
    requires Inv(s) && IsStatic(s, m) && IsStatic(s, base) && m != base
    requires t in s.supers && HasTable(s, side, t) && LinkOk(s, side, t)
    requires Older(s, s.heap[base].sig.typ, s.heap[m].sig.typ)
    ensures var r := AfterLink(s, m, base);
            && HasTable(r, side, t) && TableAddr(r, side, t) == TableAddr(s, side, t)
            && LinkOk(r, side, t)
            && SameLinks(Table(s, side, t).(superMt := None), Table(r, side, t).(superMt := None))
            && Table(s, side, t).members == Table(r, side, t).members
            && Table(s, side, t).getters == Table(r, side, t).getters
            && Table(s, side, t).setters == Table(r, side, t).setters
  {
    hide TypesOk, RegistryOk, NamesOk, AfterLink;
    var u := s.heap[base].sig.typ;
    LinkedTable(s, m, base, TableAddr(s, side, t));
    if t == s.heap[m].sig.typ {
      LinkedTable(s, m, base, TableAddr(s, side, u));
    } else if s.supers[t].Some? {
      LinkedTable(s, m, base, TableAddr(s, side, s.supers[t].value));
    }
  }

  /** All tables of u were created before those of t. */
  ghost predicate Older(s: State, u: TypeId, t: TypeId) {
    && HasTables(s, u) && HasTables(s, t)
    && TableAddr(s, Static, u) < TableAddr(s, Static, t)
    && TableAddr(s, Class, u) < TableAddr(s, Class, t)
    && TableAddr(s, Const, u) < TableAddr(s, Const, t)
  }

  lemma LinkKeepsInv(s: State, m: Addr, base: Addr)
    requires Inv(s) && IsStatic(s, m) && IsStatic(s, base) && m != base
    requires Older(s, s.heap[base].sig.typ, s.heap[m].sig.typ)
    ensures Inv(AfterLink(s, m, base))
  {
    hide PairOk, LinkOk;
    var r := AfterLink(s, m, base);
    StaticOfType(s, m);
    StaticOfType(s, base);
    LinkKeepsRest(s, m, base);
    hide AfterLink, HeapOk, RegistryOk, NamesOk;
    forall t <- r.supers
      ensures TypeOk(r, t)
    {
      assert TypeOk(s, t);
      LinkedSide(s, m, base, Static, t);
      LinkedSide(s, m, base, Class, t);
      LinkedSide(s, m, base, Const, t);
      SamePair(t, Table(s, Class, t), Table(s, Const, t), Table(r, Class, t), Table(r, Const, t));
    }
  }

  lemma LinkKeepsRest(s: State, m: Addr, base: Addr)
    requires Inv(s) && IsStatic(s, m) && IsStatic(s, base) && m != base
    ensures var r := AfterLink(s, m, base); r.supers.Keys == s.supers.Keys && HeapOk(r) && RegistryOk(r) && NamesOk(r)
  {
    hide TypesOk;
    var r := AfterLink(s, m, base);
    assert r.supers.Keys == s.supers.Keys by {
      assert s.heap[m].sig.typ in s.supers;
    }
    assert forall a <- r.heap :: a in s.heap && r.heap[a].sig == s.heap[a].sig;
  }

  lemma SamePair(t: TypeId, c: Meta, k: Meta, d: Meta, l: Meta)
    requires PairOk(t, c, k)
    requires c.members == d.members && c.getters == d.getters && c.setters == d.setters
    requires k.members == l.members && k.getters == l.getters && k.setters == l.setters
    ensures PairOk(t, d, l)
  {
  }

  lemma ExtendKeepsInv(s: State, parent: nat, name: string, t: TypeId, base: TypeId)
    requires Inv(s) && CanExtend(s, parent, name, t, base)
    ensures Inv(AfterExtend(s, parent, name, t, base))
  {
    hide TypesOk, HeapOk, RegistryOk, NamesOk, AfterBuild, AfterLink, Older;
    if (parent, name) !in s.names {
      NewIsYoungest(s, parent, name, t, base);
      var b := AfterBuild(s, parent, name, t);
      LinkKeepsInv(b, s.next + 2, b.registry[Sig(Static, base)]);
    }
  }

  lemma NewIsYoungest(s: State, parent: nat, name: string, t: TypeId, base: TypeId)
    requires Inv(s) && CanExtend(s, parent, name, t, base) && (parent, name) !in s.names
    ensures var b := AfterBuild(s, parent, name, t);
            && Inv(b)
            && IsStatic(b, s.next + 2) && b.heap[s.next + 2].sig.typ == t
            && Sig(Static, base) in b.registry && IsStatic(b, b.registry[Sig(Static, base)])
            && b.registry[Sig(Static, base)] != s.next + 2
            && b.heap[b.registry[Sig(Static, base)]].sig.typ == base
            && Older(b, base, t)
  {
    hide PairOk, LinkOk, HeapOk, RegistryOk, NamesOk;
    var b := AfterBuild(s, parent, name, t);
    BuildKeepsInv(s, parent, name, t);
    BuildAdds(s, parent, name, t);
    TablesAreOlder(s, base);
    OldTables(s, b, base, t);
    NewTables(s, parent, name, t);
    hide AfterBuild, TypeOk, Adds;
    assert b.heap[TableAddr(b, Static, base)].sig == Sig(Static, base);
    StaticOfType(b, TableAddr(b, Static, base));
  }

  lemma TablesAreOlder(s: State, t: TypeId)
    requires TypesOk(s) && t in s.supers
    ensures HasTables(s, t)
    ensures TableAddr(s, Static, t) < s.next && TableAddr(s, Class, t) < s.next && TableAddr(s, Const, t) < s.next
  {
    assert TypeOk(s, t);
  }

  lemma OldTables(s: State, r: State, u: TypeId, t: TypeId)
    requires Adds(s, r, t) && HasTables(s, u)
    ensures HasTables(r, u)
    ensures TableAddr(r, Static, u) == TableAddr(s, Static, u)
    ensures TableAddr(r, Class, u) == TableAddr(s, Class, u)
    ensures TableAddr(r, Const, u) == TableAddr(s, Const, u)
  {
  }

  lemma NewTables(s: State, parent: nat, name: string, t: TypeId)
    requires (parent, name) !in s.names
    ensures var r := AfterBuild(s, parent, name, t);
            && HasTables(r, t)
            && TableAddr(r, Static, t) >= s.next && TableAddr(r, Class, t) >= s.next && TableAddr(r, Const, t) >= s.next
  {
  }

  lemma PairTakesFunction(t: TypeId, c: Meta, k: Meta, name: string, proc: Item)
    requires PairOk(t, c, k) && proc.Proc? && proc.owner == t
    ensures PairOk(t, c.(members := c.members[name := proc]), k.(members := k.members[name := ConstView(name, proc)]))
  {
  }

  lemma PairTakesGetter(t: TypeId, c: Meta, k: Meta, name: string, getter: Item, constGetter: Item)
    requires PairOk(t, c, k) && getter.Proc? && getter.owner == t && constGetter.Proc? && constGetter.owner == t
    ensures PairOk(t, c.(getters := c.getters[name := getter]), k.(getters := k.getters[name := constGetter]))
  {
  }

  lemma PairTakesSetter(t: TypeId, c: Meta, k: Meta, name: string, setter: Item)
    requires PairOk(t, c, k) && (setter == ReadOnly(name) || (setter.Proc? && setter.owner == t))
    ensures PairOk(t, c.(setters := c.setters[name := setter]),
                   k.(setters := k.setters[name := if setter.Proc? then ConstMismatch(name) else setter]))
  {
  }

  lemma StepKeepsInv(s: State, e: Event)
    requires Inv(s) && Enabled(s, e)
    ensures Inv(Step(s, e))
  {
    match e {
      case Bind(parent, name, t) => BuildKeepsInv(s, parent, name, t);
      case Extend(parent, name, t, base) => ExtendKeepsInv(s, parent, name, t, base);
      case _ => FillKeepsInv(s, e);
    }
  }

  lemma FillKeepsInv(s: State, e: Event)
    requires Inv(s) && Enabled(s, e) && !e.Bind? && !e.Extend?
    ensures Inv(Step(s, e))
  {
    hide PairOk, TypeOk, HeapOk, RegistryOk, NamesOk;
    StaticOfType(s, e.meta);
    var t, c, k := s.heap[e.meta].sig.typ, ClassOf(s, e.meta), ConstOf(s, e.meta);
    match e {
      case MemberFunction(m, name, id, isConst) =>
        PairTakesFunction(t, c, k, name, Proc(id, t, isConst));
        SetPairKeepsInv(s, m, c.(members := c.members[name := Proc(id, t, isConst)]),
                        k.(members := k.members[name := ConstView(name, Proc(id, t, isConst))]));
      case MemberGetter(m, name, id, isConst, constId, constIsConst) =>
        PairTakesGetter(t, c, k, name, Proc(id, t, isConst), Proc(constId, t, constIsConst));
        SetPairKeepsInv(s, m, c.(getters := c.getters[name := Proc(id, t, isConst)]),
                        k.(getters := k.getters[name := Proc(constId, t, constIsConst)]));
      case MemberSetter(m, name, id) =>
        PairTakesSetter(t, c, k, name, Proc(id, t, false));
        SetPairKeepsInv(s, m, c.(setters := c.setters[name := Proc(id, t, false)]),
                        k.(setters := k.setters[name := ConstMismatch(name)]));
      case MemberReadOnly(m, name) =>
        PairTakesSetter(t, c, k, name, ReadOnly(name));
        SetPairKeepsInv(s, m, c.(setters := c.setters[name := ReadOnly(name)]),
                        k.(setters := k.setters[name := ReadOnly(name)]));
      case StaticGetter(m, name, item) =>
        StaticKeepsInv(s, m, s.heap[m].(getters := s.heap[m].getters[name := item]));
      case StaticSetter(m, name, id) =>
        StaticKeepsInv(s, m, s.heap[m].(setters := s.heap[m].setters[name := Plain(id)]));
      case StaticReadOnly(m, name) =>
        StaticKeepsInv(s, m, s.heap[m].(setters := s.heap[m].setters[name := ReadOnly(name)]));
      case StaticFunction(m, name, id) =>
        StaticKeepsInv(s, m, s.heap[m].(members := s.heap[m].members[name := Plain(id)]));
    }
  }

  ghost predicate Feasible(s: State, events: seq<Event>)
    requires Inv(s)
    decreases |events|
  {
    events == [] || (Enabled(s, events[0]) && (StepKeepsInv(s, events[0]); Feasible(Step(s, events[0]), events[1..])))
  }

  /** Any sequence of registrations. */
  ghost function Run(s: State, events: seq<Event>): (r: State)
    requires Inv(s) && Feasible(s, events)
    ensures Inv(r)
    decreases |events|
  {
    if events == [] then s
    else
      StepKeepsInv(s, events[0]);
      Run(Step(s, events[0]), events[1..])
  }

  lemma EmptyHolds()
    ensures Inv(EMPTY_REGISTRY)
  {
  }

  /** A sequence of registrations that starts with no class at all. */
  ghost predicate FromNothing(events: seq<Event>) {
    EmptyHolds();
    Feasible(EMPTY_REGISTRY, events)
  }

  ghost function After(events: seq<Event>): (s: State)
    requires FromNothing(events)
    ensures Inv(s)
  {
    EmptyHolds();
    Run(EMPTY_REGISTRY, events)
  }
}
