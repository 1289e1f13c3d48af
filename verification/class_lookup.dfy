/**
 Walking the metatables: member access (index, newIndex) and the type check
 (getObject), and what they mean in terms of the declared class hierarchy.
 */
module ClassLookup {
  import opened Common
  import opened ClassRegistry

  // ---- The hierarchy ----

  /** p goes from its first type up through declared super classes. */
  ghost predicate IsPath(s: State, p: seq<TypeId>) {
    && p != []
    && (forall t <- p :: t in s.supers)
    && (forall i :: 0 <= i < |p| - 1 ==> p[i] in s.supers && s.supers[p[i]] == Some(p[i + 1]))
  }

  ghost predicate PathFromTo(s: State, p: seq<TypeId>, t: TypeId, u: TypeId) {
    IsPath(s, p) && p[0] == t && Last(p) == u
  }

  /** t is u or one of its descendants. */
  ghost predicate IsA(s: State, t: TypeId, u: TypeId) {
    exists p :: PathFromTo(s, p, t, u)
  }

  lemma PathCons(s: State, t: TypeId, p: seq<TypeId>)
    requires IsPath(s, p) && t in s.supers && s.supers[t] == Some(p[0])
    ensures IsPath(s, [t] + p) && Last([t] + p) == Last(p)
  {
  }

  lemma IsAUnfold(s: State, t: TypeId, u: TypeId)
    requires t in s.supers && (s.supers[t].Some? ==> s.supers[t].value in s.supers)
    ensures IsA(s, t, u) <==> t == u || (s.supers[t].Some? && IsA(s, s.supers[t].value, u))
  {
    if t == u {
      assert PathFromTo(s, [t], t, u);
    }
    if s.supers[t].Some? && IsA(s, s.supers[t].value, u) {
      var p :| PathFromTo(s, p, s.supers[t].value, u);
      PathCons(s, t, p);
      assert PathFromTo(s, [t] + p, t, u);
    }
    if t != u && IsA(s, t, u) {
      var p :| PathFromTo(s, p, t, u);
      assert |p| > 1 && s.supers[p[0]] == Some(p[1]);
      assert PathFromTo(s, p[1..], p[1], u);
    }
  }

  // ---- Walking the links ----

  /** Links lead to older tables. */
  ghost predicate Descending(h: Heap) {
    forall a {:trigger h[a].superMt} ::
      a in h && h[a].superMt.Some? ==> h[a].superMt.value in h && h[a].superMt.value < a
  }

  lemma LinksDescend(s: State)
    requires Inv(s)
    ensures Descending(s.heap)
  {
    hide PairOk;
    forall a <- s.heap | s.heap[a].superMt.Some?
      ensures s.heap[a].superMt.value in s.heap && s.heap[a].superMt.value < a
    {
      assert TypeOk(s, s.heap[a].sig.typ);
      match s.heap[a].sig.side
      case Static =>
      case Class =>
      case Const =>
    }
  }

  /** The tables of one type and side, and how they are linked. */
  lemma TableOfType(s: State, side: Side, t: TypeId)
    requires Inv(s) && t in s.supers
    ensures HasTable(s, side, t) && LinkOk(s, side, t)
    ensures s.supers[t].Some? ==> s.supers[t].value in s.supers
  {
    hide PairOk;
    assert TypeOk(s, t);
    match side
    case Static =>
    case Class =>
    case Const =>
  }

  lemma PairOfType(s: State, t: TypeId)
    requires Inv(s) && t in s.supers
    ensures HasTables(s, t) && PairOk(t, Table(s, Class, t), Table(s, Const, t))
    ensures Table(s, Class, t).constMt == TableAddr(s, Const, t) == Table(s, Const, t).constMt
  {
    hide PairOk, LinkOk;
    assert TypeOk(s, t);
  }

  // ---- Member access ----

  /** A string key may read as a number; only string keys name members. */
  datatype Key = Str(s: string, numeric: bool) | Number | OtherKey

  predicate IsNumber(key: Key) {
    key.Number? || (key.Str? && key.numeric)
  }

  datatype Access = Missing | Member(item: Item) | Indexer(item: Item) | Accessor(item: Item)

  predicate Has(entries: map<string, Item>, key: Key) {
    key.Str? && key.s in entries
  }

  function IndexerName(writing: bool): string {
    if writing then "___set_indexed" else "___get_indexed"
  }

  function Accessors(m: Meta, writing: bool): map<string, Item> {
    if writing then m.setters else m.getters
  }

  /** What one table offers for a key: a member, then the indexer for numbers, then the accessor. */
  function At(m: Meta, key: Key, writing: bool): Access {
    if !writing && Has(m.members, key) then Member(m.members[key.s])
    else if IsNumber(key) && IndexerName(writing) in m.members then Indexer(m.members[IndexerName(writing)])
    else if Has(Accessors(m, writing), key) then Accessor(Accessors(m, writing)[key.s])
    else Missing
  }

  /** The table that offers something, and what it offers. */
  datatype Hit = Hit(at: Addr, access: Access) | NotFound

  ghost function Find(h: Heap, a: Addr, key: Key, writing: bool): Hit
    requires Descending(h) && a in h
    decreases a
  {
    if At(h[a], key, writing) != Missing then Hit(a, At(h[a], key, writing))
    else if h[a].superMt.None? then NotFound
    else Find(h, h[a].superMt.value, key, writing)
  }

  ghost predicate Offers(s: State, side: Side, t: TypeId, key: Key, writing: bool, access: Access) {
    HasTable(s, side, t) && At(Table(s, side, t), key, writing) == access
  }

  /** p is the way from t to the first type whose table offers something for the key. */
  ghost predicate FirstOn(s: State, side: Side, p: seq<TypeId>, key: Key, writing: bool)
    requires p != []
  {
    && (forall i :: 0 <= i < |p| - 1 ==> Offers(s, side, p[i], key, writing, Missing))
    && HasTable(s, side, Last(p)) && At(Table(s, side, Last(p)), key, writing) != Missing
  }

  ghost predicate FoundAtEndOf(s: State, side: Side, p: seq<TypeId>, t: TypeId, key: Key, writing: bool, hit: Hit) {
    && IsPath(s, p) && p[0] == t && FirstOn(s, side, p, key, writing)
    && hit == Hit(TableAddr(s, side, Last(p)), At(Table(s, side, Last(p)), key, writing))
  }

  /** No class from t up offers anything. */
  ghost predicate NoneOffers(s: State, side: Side, t: TypeId, key: Key, writing: bool) {
    forall u :: IsA(s, t, u) ==> Offers(s, side, u, key, writing, Missing)
  }

  /** Member access finds what the most derived class offers, and only misses what no class offers. */
  lemma {:induction false} FindIsMostDerived(s: State, side: Side, t: TypeId, key: Key, writing: bool)
    requires Inv(s) && t in s.supers && HasTable(s, side, t) && Descending(s.heap)
    ensures var hit := Find(s.heap, TableAddr(s, side, t), key, writing);
            if hit.NotFound? then NoneOffers(s, side, t, key, writing)
            else exists p :: FoundAtEndOf(s, side, p, t, key, writing, hit)
    decreases TableAddr(s, side, t)
  {
    hide TypesOk, HeapOk, RegistryOk, NamesOk, At;
    TableOfType(s, side, t);
    var here := At(Table(s, side, t), key, writing);
    var hit := Find(s.heap, TableAddr(s, side, t), key, writing);
    if here != Missing {
      assert FoundAtEndOf(s, side, [t], t, key, writing, hit);
    } else if s.supers[t].None? {
      forall u | IsA(s, t, u)
        ensures u == t
      {
        IsAUnfold(s, t, u);
      }
    } else {
      var b := s.supers[t].value;
      TableOfType(s, side, b);
      FindIsMostDerived(s, side, b, key, writing);
      assert hit == Find(s.heap, TableAddr(s, side, b), key, writing);
      if hit.NotFound? {
        forall u | IsA(s, t, u)
          ensures Offers(s, side, u, key, writing, Missing)
        {
          IsAUnfold(s, t, u);
        }
      } else {
        var p :| FoundAtEndOf(s, side, p, b, key, writing, hit);
        PathCons(s, t, p);
        FirstOnCons(s, side, t, p, key, writing);
        assert FoundAtEndOf(s, side, [t] + p, t, key, writing, hit);
      }
    }
  }

  lemma FirstOnCons(s: State, side: Side, t: TypeId, p: seq<TypeId>, key: Key, writing: bool)
    requires p != [] && FirstOn(s, side, p, key, writing)
    requires Offers(s, side, t, key, writing, Missing)
    ensures FirstOn(s, side, [t] + p, key, writing)
  {
    hide Offers, At, HasTable, Table;
    var q := [t] + p;
    assert forall i :: 1 <= i < |q| ==> q[i] == p[i - 1];
    assert Last(q) == Last(p);
  }

  // ---- Const objects ----

  /** What a const object gets where other objects get x. */
  ghost predicate ConstAccess(x: Access, y: Access, t: TypeId, key: Key, writing: bool) {
    match x
    case Missing => y == Missing
    case Member(item) => key.Str? && y == Member(ConstView(key.s, item))
    case Indexer(item) => y == Indexer(ConstView(IndexerName(writing), item))
    case Accessor(item) =>
      if !writing then y.Accessor? && y.item.Proc? && y.item.owner == t
      else y.Accessor? && key.Str? && y.item == if item.Proc? then ConstMismatch(key.s) else ReadOnly(key.s)
  }

  lemma ConstAt(s: State, t: TypeId, key: Key, writing: bool)
    requires Inv(s) && t in s.supers && HasTables(s, t)
    ensures ConstAccess(At(Table(s, Class, t), key, writing), At(Table(s, Const, t), key, writing), t, key, writing)
  {
    PairOfType(s, t);
    hide PairOk, At, ConstAccess, TypesOk, HeapOk, RegistryOk, NamesOk;
    ConstAtPair(t, Table(s, Class, t), Table(s, Const, t), key, writing);
  }

  lemma ConstAtPair(t: TypeId, c: Meta, k: Meta, key: Key, writing: bool)
    requires PairOk(t, c, k)
    ensures ConstAccess(At(c, key, writing), At(k, key, writing), t, key, writing)
  {
  }

  /**
   A const object and another object of the same class resolve every key at the
   same class: to the same thing where that is const, and where it is not to a
   function that raises an error; a property is never set through a const object.
   */
  lemma {:induction false} SameLevel(s: State, t: TypeId, key: Key, writing: bool)
    requires Inv(s) && t in s.supers && HasTables(s, t) && Descending(s.heap)
    ensures var x := Find(s.heap, TableAddr(s, Class, t), key, writing);
            var y := Find(s.heap, TableAddr(s, Const, t), key, writing);
            if x.NotFound? then y.NotFound?
            else
              && y.Hit? && x.at in s.heap && s.heap[x.at].sig.typ in s.supers
              && HasTables(s, s.heap[x.at].sig.typ)
              && x.at == TableAddr(s, Class, s.heap[x.at].sig.typ)
              && y.at == TableAddr(s, Const, s.heap[x.at].sig.typ)
              && IsA(s, t, s.heap[x.at].sig.typ)
              && x.access == At(s.heap[x.at], key, writing)
              && ConstAccess(x.access, y.access, s.heap[x.at].sig.typ, key, writing)
    decreases TableAddr(s, Class, t)
  {
    hide TypesOk, HeapOk, RegistryOk, NamesOk, At, IsA;
    TableOfType(s, Class, t);
    TableOfType(s, Const, t);
    ConstAt(s, t, key, writing);
    if s.supers[t].Some? {
      IsAUnfold(s, t, t);
      var b := s.supers[t].value;
      TableOfType(s, Static, b);
      TableOfType(s, Class, b);
      TableOfType(s, Const, b);
      SameLevel(s, b, key, writing);
      var x := Find(s.heap, TableAddr(s, Class, b), key, writing);
      if x.Hit? {
        IsAUnfold(s, t, s.heap[x.at].sig.typ);
      }
    } else {
      IsAUnfold(s, t, t);
    }
  }

  /** What member access can run on a const object. */
  predicate ConstSafe(access: Access, writing: bool) {
    match access
    case Missing => true
    case Member(item) => item.Proc? ==> item.isConst
    case Indexer(item) => item.Proc? ==> item.isConst
    case Accessor(item) => writing ==> item.ConstMismatch? || item.ReadOnly?
  }

  lemma ConstFindIsSafe(s: State, t: TypeId, key: Key, writing: bool)
    requires Inv(s) && t in s.supers && HasTables(s, t) && Descending(s.heap)
    ensures var y := Find(s.heap, TableAddr(s, Const, t), key, writing);
            y.Hit? ==> ConstSafe(y.access, writing)
  {
    hide TypesOk, HeapOk, RegistryOk, NamesOk, At, IsA, Find;
    SameLevel(s, t, key, writing);
  }

  // ---- The type check ----

  datatype Verdict = Accepted | NotUserdata | UnknownClass | Mismatch

  ghost predicate Reaches(h: Heap, a: Addr, base: Addr)
    requires Descending(h) && a in h
    decreases a
  {
    a == base || (h[a].superMt.Some? && Reaches(h, h[a].superMt.value, base))
  }

  /** obj: the metatable of the object, None if it is no userdata of this library. */
  ghost function Check(s: State, obj: Option<Addr>, classId: Sig, isConst: bool, isExact: bool): Verdict
    requires Descending(s.heap) && (obj.Some? ==> obj.value in s.heap && s.heap[obj.value].constMt in s.heap)
  {
    if obj.None? then NotUserdata
    else if classId !in s.registry then UnknownClass
    else
      var base := s.registry[classId];
      if isExact then if obj.value == base then Accepted else Mismatch
      else
        var start := if isConst then s.heap[obj.value].constMt else obj.value;
        if Reaches(s.heap, start, base) then Accepted else Mismatch
  }

  /** The key under which C++ asks for objects of a type. */
  function Wanted(t: TypeId, isConst: bool): Sig {
    Sig(if isConst then Const else Class, t)
  }

  /** The metatable of an object of a type. */
  ghost function MetaOf(s: State, t: TypeId, isConst: bool): Addr
    requires Inv(s) && t in s.supers
    ensures MetaOf(s, t, isConst) in s.heap && s.heap[MetaOf(s, t, isConst)].constMt in s.heap
  {
    PairOfType(s, t);
    if isConst then TableAddr(s, Const, t) else TableAddr(s, Class, t)
  }

  lemma MetaIsTable(s: State, t: TypeId)
    requires Inv(s) && t in s.supers
    ensures HasTables(s, t)
    ensures MetaOf(s, t, true) == TableAddr(s, Const, t) && MetaOf(s, t, false) == TableAddr(s, Class, t)
  {
    hide TypesOk, HeapOk, RegistryOk, NamesOk, PairOk;
    PairOfType(s, t);
  }

  lemma {:induction false} ReachesIsIsA(s: State, side: Side, t: TypeId, other: Side, u: TypeId)
    requires Inv(s) && Descending(s.heap) && t in s.supers && u in s.supers
    requires HasTable(s, side, t) && HasTable(s, other, u)
    ensures Reaches(s.heap, TableAddr(s, side, t), TableAddr(s, other, u)) <==> side == other && IsA(s, t, u)
    decreases TableAddr(s, side, t)
  {
    hide TypesOk, HeapOk, RegistryOk, NamesOk, IsA;
    TableOfType(s, side, t);
    IsAUnfold(s, t, u);
    if s.supers[t].Some? {
      TableOfType(s, side, s.supers[t].value);
      ReachesIsIsA(s, side, s.supers[t].value, other, u);
    }
    assert TableAddr(s, side, t) == TableAddr(s, other, u) <==> side == other && t == u;
  }

  /**
   A request that need not be exact accepts an object exactly when its class is
   the requested one or a descendant of it and a const object is not asked for
   as a non-const one; an exact request when class and constness are the same.
   */
  lemma CheckIsIsA(s: State, t: TypeId, objConst: bool, u: TypeId, isConst: bool)
    requires Inv(s) && Descending(s.heap) && t in s.supers && u in s.supers
    ensures Check(s, Some(MetaOf(s, t, objConst)), Wanted(u, isConst), isConst, false) ==
            if IsA(s, t, u) && (objConst ==> isConst) then Accepted else Mismatch
    ensures Check(s, Some(MetaOf(s, t, objConst)), Wanted(u, isConst), isConst, true) ==
            if t == u && objConst == isConst then Accepted else Mismatch
  {
    PairOfType(s, t);
    PairOfType(s, u);
    hide TypesOk, HeapOk, RegistryOk, NamesOk, IsA, PairOk, Reaches;
    ReachesIsIsA(s, Class, t, Class, u);
    ReachesIsIsA(s, Const, t, Class, u);
    ReachesIsIsA(s, Const, t, Const, u);
  }

  /** The two other errors: not an object of this library, and a class that was never registered. */
  lemma OtherVerdicts(s: State, obj: Option<Addr>, u: TypeId, isConst: bool, isExact: bool)
    requires Inv(s) && Descending(s.heap)
    requires obj.Some? ==> obj.value in s.heap && s.heap[obj.value].constMt in s.heap
    ensures var verdict := Check(s, obj, Wanted(u, isConst), isConst, isExact);
            && (verdict == NotUserdata <==> obj.None?)
            && (verdict == UnknownClass <==> obj.Some? && u !in s.supers)
  {
    if u in s.supers {
      MetaIsTable(s, u);
    }
    hide TypesOk, HeapOk, NamesOk, Reaches;
  }

  /** The class that a function found through member access belongs to. */
  ghost predicate OwnedAbove(s: State, t: TypeId, access: Access) {
    access != Missing && access.item.Proc? ==> access.item.owner in s.supers && IsA(s, t, access.item.owner)
  }

  lemma OwnerInPair(u: TypeId, c: Meta, k: Meta, key: Key, writing: bool)
    requires PairOk(u, c, k)
    ensures var x := At(c, key, writing); x != Missing && x.item.Proc? ==> x.item.owner == u
  {
  }

  lemma OwnerOfEntry(s: State, u: TypeId, key: Key, writing: bool)
    requires Inv(s) && u in s.supers && HasTables(s, u)
    ensures var x := At(Table(s, Class, u), key, writing); x != Missing && x.item.Proc? ==> x.item.owner == u
  {
    PairOfType(s, u);
    hide TypesOk, HeapOk, RegistryOk, NamesOk, PairOk, At;
    OwnerInPair(u, Table(s, Class, u), Table(s, Const, u), key, writing);
  }

  lemma HitIsOwned(s: State, t: TypeId, key: Key, writing: bool)
    requires Inv(s) && Descending(s.heap) && t in s.supers && HasTables(s, t)
    ensures var x := Find(s.heap, TableAddr(s, Class, t), key, writing); x.Hit? ==> OwnedAbove(s, t, x.access)
    ensures var y := Find(s.heap, TableAddr(s, Const, t), key, writing); y.Hit? ==> OwnedAbove(s, t, y.access)
  {
    hide TypesOk, HeapOk, RegistryOk, NamesOk, IsA, PairOk, Find, At;
    SameLevel(s, t, key, writing);
    var x := Find(s.heap, TableAddr(s, Class, t), key, writing);
    if x.Hit? {
      OwnerOfEntry(s, s.heap[x.at].sig.typ, key, writing);
    }
  }

  /** The function's own check of its first argument accepts an object of type t. */
  ghost predicate Accepts(s: State, t: TypeId, objConst: bool, proc: Item)
    requires Inv(s) && Descending(s.heap) && t in s.supers && proc.Proc?
  {
    Check(s, Some(MetaOf(s, t, objConst)), Wanted(proc.owner, proc.isConst), proc.isConst, false) == Accepted
  }

  lemma OwnedIsChecked(s: State, t: TypeId, objConst: bool, access: Access)
    requires Inv(s) && Descending(s.heap) && t in s.supers && OwnedAbove(s, t, access)
    requires access != Missing && access.item.Proc?
    ensures Accepts(s, t, objConst, access.item) <==> objConst ==> access.item.isConst
  {
    hide TypesOk, HeapOk, RegistryOk, NamesOk, IsA, Check, MetaOf;
    CheckIsIsA(s, t, objConst, access.item.owner, access.item.isConst);
  }

  /**
   Whatever function an object finds accepts the object, except a non-const
   getter found by a const object; the error functions in the const tables are
   what keeps member functions and indexers from being another exception.
   */
  lemma FoundFunctionsAcceptTheObject(s: State, t: TypeId, objConst: bool, key: Key, writing: bool)
    requires Inv(s) && Descending(s.heap) && t in s.supers
    ensures var hit := Find(s.heap, MetaOf(s, t, objConst), key, writing);
            hit.Hit? && hit.access != Missing && hit.access.item.Proc? ==>
              && (Accepts(s, t, objConst, hit.access.item) <==> objConst ==> hit.access.item.isConst)
              && (!hit.access.Accessor? ==> Accepts(s, t, objConst, hit.access.item))
  {
    MetaIsTable(s, t);
    hide TypesOk, HeapOk, RegistryOk, NamesOk, MetaOf, Find, Accepts, OwnedAbove, HasTable, TableAddr;
    HitIsOwned(s, t, key, writing);
    ConstFindIsSafe(s, t, key, writing);
    var hit := Find(s.heap, MetaOf(s, t, objConst), key, writing);
    if hit.Hit? && hit.access != Missing && hit.access.item.Proc? {
      OwnedIsChecked(s, t, objConst, hit.access);
    }
  }

  // ---- After any sequence of registrations ----

  /** The chains end, and walking them decides is-a and const-correctness exactly. */
  lemma TypeCheckOfEveryRun(events: seq<Event>, t: TypeId, objConst: bool, u: TypeId, isConst: bool)
    requires FromNothing(events) && t in After(events).supers && u in After(events).supers
    ensures var s := After(events);
            && Descending(s.heap)
            && Check(s, Some(MetaOf(s, t, objConst)), Wanted(u, isConst), isConst, false) ==
               (if IsA(s, t, u) && (objConst ==> isConst) then Accepted else Mismatch)
            && Check(s, Some(MetaOf(s, t, objConst)), Wanted(u, isConst), isConst, true) ==
               (if t == u && objConst == isConst then Accepted else Mismatch)
  {
    hide Inv, After, FromNothing, Check, IsA;
    LinksDescend(After(events));
    CheckIsIsA(After(events), t, objConst, u, isConst);
  }

  /**
   On a const object member access finds no property setter and no member
   function that is not const; and whatever function it finds accepts the object
   exactly when it is const.
   */
  lemma OnlyConstFunctionsRun(events: seq<Event>, t: TypeId, key: Key, writing: bool)
    requires FromNothing(events) && t in After(events).supers
    ensures var s := After(events);
            && Descending(s.heap)
            && var hit := Find(s.heap, MetaOf(s, t, true), key, writing);
            (hit.Hit? ==>
              && ConstSafe(hit.access, writing)
              && (hit.access != Missing && hit.access.item.Proc? ==>
                    (Accepts(s, t, true, hit.access.item) <==> hit.access.item.isConst)))
  {
    hide Inv, After, FromNothing, Accepts, ConstSafe, Find, MetaOf, TableAddr;
    var s := After(events);
    LinksDescend(s);
    MetaIsTable(s, t);
    ConstFindIsSafe(s, t, key, writing);
    FoundFunctionsAcceptTheObject(s, t, true, key, writing);
  }
}
