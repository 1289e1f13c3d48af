/**
 Member access said in terms of the tables, and of the registrations that fill
 them: what an object finds after each registration, what a registration leaves
 alone, and what a derived class inherits.
 */
module ClassAccess {
  import opened Common
  import opened ClassRegistry
  import opened ClassLookup

  // ---- One table ----

  /** The table has a member of that name. */
  predicate HasMember(m: Meta, key: Key) {
    key.Str? && key.s in m.members
  }

  /** A number, or a string that reads as one, goes to the indexer if there is one. */
  predicate HasIndexer(m: Meta, key: Key, name: string) {
    (key.Number? || (key.Str? && key.numeric)) && name in m.members
  }

  predicate HasGetter(m: Meta, key: Key) {
    key.Str? && key.s in m.getters
  }

  predicate HasSetter(m: Meta, key: Key) {
    key.Str? && key.s in m.setters
  }

  /**
   Reading: a member hides the indexer, the indexer hides the getter, and a table
   with none of them passes on to the super class; nothing else is found.
   */
  lemma ReadingFinds(h: Heap, a: Addr, key: Key)
    requires Descending(h) && a in h
    ensures var m, hit := h[a], Find(h, a, key, false);
            if HasMember(m, key) then hit == Hit(a, Member(m.members[key.s]))
            else if HasIndexer(m, key, "___get_indexed") then hit == Hit(a, Indexer(m.members["___get_indexed"]))
            else if HasGetter(m, key) then hit == Hit(a, Accessor(m.getters[key.s]))
            else hit == if m.superMt.None? then NotFound else Find(h, m.superMt.value, key, false)
  {
  }

  /** Writing: the indexer hides the setter, members are not looked at. */
  lemma WritingFinds(h: Heap, a: Addr, key: Key)
    requires Descending(h) && a in h
    ensures var m, hit := h[a], Find(h, a, key, true);
            if HasIndexer(m, key, "___set_indexed") then hit == Hit(a, Indexer(m.members["___set_indexed"]))
            else if HasSetter(m, key) then hit == Hit(a, Accessor(m.setters[key.s]))
            else hit == if m.superMt.None? then NotFound else Find(h, m.superMt.value, key, true)
  {
  }

  // ---- What an object finds after a registration ----

  /** What an object of class t, const or not, finds. */
  ghost function ObjectFinds(s: State, t: TypeId, objConst: bool, key: Key, writing: bool): Hit
    requires Inv(s) && t in s.supers
  {
    LinksDescend(s);
    Find(s.heap, MetaOf(s, t, objConst), key, writing)
  }

  /** What the class itself finds: its static members. */
  ghost function ClassFinds(s: State, m: Addr, key: Key, writing: bool): Hit
    requires Inv(s) && m in s.heap
  {
    LinksDescend(s);
    Find(s.heap, m, key, writing)
  }

  /** The tables of the class whose static table is m, before and after a registration on it. */
  lemma TablesOf(s: State, e: Event)
    requires Inv(s) && Enabled(s, e) && !e.Bind? && !e.Extend?
    ensures var r, t := Step(s, e), s.heap[e.meta].sig.typ;
            && Inv(r) && t in s.supers && t in r.supers && r.heap.Keys == s.heap.Keys
            && MetaOf(r, t, false) == MetaOf(s, t, false) == s.heap[e.meta].classMt.value
            && MetaOf(r, t, true) == MetaOf(s, t, true) == s.heap[e.meta].constMt
            && MetaOf(s, t, false) != MetaOf(s, t, true)
            && PairOk(t, s.heap[MetaOf(s, t, false)], s.heap[MetaOf(s, t, true)])
  {
    hide TypesOk, HeapOk, RegistryOk, NamesOk, PairOk, MetaOf;
    FillKeepsInv(s, e);
    StaticOfType(s, e.meta);
    var r, t := Step(s, e), s.heap[e.meta].sig.typ;
    assert r.registry == s.registry && r.supers == s.supers;
    MetaIsTable(s, t);
    MetaIsTable(r, t);
  }

  /** A member function is found by every object of its class; through a const object only if it is const. */
  lemma FunctionIsFound(s: State, m: Addr, name: string, id: nat, isConst: bool, numeric: bool)
    requires Inv(s) && IsStatic(s, m)
    ensures var r, t := Step(s, MemberFunction(m, name, id, isConst)), s.heap[m].sig.typ;
            var key := Str(name, numeric);
            && Inv(r) && t in r.supers
            && ObjectFinds(r, t, false, key, false) == Hit(MetaOf(r, t, false), Member(Proc(id, t, isConst)))
            && ObjectFinds(r, t, true, key, false) ==
               Hit(MetaOf(r, t, true), Member(if isConst then Proc(id, t, true) else ConstMismatch(name)))
  {
    var e := MemberFunction(m, name, id, isConst);
    var r, t := Step(s, e), s.heap[m].sig.typ;
    hide Inv, MetaOf, Find, PairOk;
    TablesOf(s, e);
    LinksDescend(r);
    ReadingFinds(r.heap, MetaOf(r, t, false), Str(name, numeric));
    ReadingFinds(r.heap, MetaOf(r, t, true), Str(name, numeric));
  }

  /** The tables of one class have the same names. */
  lemma SameNames(t: TypeId, c: Meta, k: Meta, key: Key)
    requires PairOk(t, c, k)
    ensures HasMember(c, key) <==> HasMember(k, key)
    ensures HasIndexer(c, key, "___get_indexed") <==> HasIndexer(k, key, "___get_indexed")
    ensures HasIndexer(c, key, "___set_indexed") <==> HasIndexer(k, key, "___set_indexed")
  {
  }

  /** A property is read through the getter of the object's own constness, unless a member or an indexer hides it. */
  lemma GetterIsFound(
    s: State, m: Addr, name: string, id: nat, isConst: bool, constId: nat, constIsConst: bool, numeric: bool)
    requires Inv(s) && IsStatic(s, m)
    requires !HasMember(ClassOf(s, m), Str(name, numeric))
    requires !HasIndexer(ClassOf(s, m), Str(name, numeric), "___get_indexed")
    ensures var r, t := Step(s, MemberGetter(m, name, id, isConst, constId, constIsConst)), s.heap[m].sig.typ;
            var key := Str(name, numeric);
            && Inv(r) && t in r.supers
            && ObjectFinds(r, t, false, key, false) == Hit(MetaOf(r, t, false), Accessor(Proc(id, t, isConst)))
            && ObjectFinds(r, t, true, key, false) == Hit(MetaOf(r, t, true), Accessor(Proc(constId, t, constIsConst)))
  {
    var e := MemberGetter(m, name, id, isConst, constId, constIsConst);
    var r, t := Step(s, e), s.heap[m].sig.typ;
    hide Inv, MetaOf, Find, PairOk;
    TablesOf(s, e);
    SameNames(t, s.heap[MetaOf(s, t, false)], s.heap[MetaOf(s, t, true)], Str(name, numeric));
    LinksDescend(r);
    ReadingFinds(r.heap, MetaOf(r, t, false), Str(name, numeric));
    ReadingFinds(r.heap, MetaOf(r, t, true), Str(name, numeric));
  }

  /** A property is set through its setter, never through a const object. */
  lemma SetterIsFound(s: State, m: Addr, name: string, id: nat, numeric: bool)
    requires Inv(s) && IsStatic(s, m) && !HasIndexer(ClassOf(s, m), Str(name, numeric), "___set_indexed")
    ensures var r, t := Step(s, MemberSetter(m, name, id)), s.heap[m].sig.typ;
            var key := Str(name, numeric);
            && Inv(r) && t in r.supers
            && ObjectFinds(r, t, false, key, true) == Hit(MetaOf(r, t, false), Accessor(Proc(id, t, false)))
            && ObjectFinds(r, t, true, key, true) == Hit(MetaOf(r, t, true), Accessor(ConstMismatch(name)))
  {
    var e := MemberSetter(m, name, id);
    var r, t := Step(s, e), s.heap[m].sig.typ;
    hide Inv, MetaOf, Find, PairOk;
    TablesOf(s, e);
    SameNames(t, s.heap[MetaOf(s, t, false)], s.heap[MetaOf(s, t, true)], Str(name, numeric));
    LinksDescend(r);
    WritingFinds(r.heap, MetaOf(r, t, false), Str(name, numeric));
    WritingFinds(r.heap, MetaOf(r, t, true), Str(name, numeric));
  }

  /** A read-only property refuses to be set through any object. */
  lemma ReadOnlyIsFound(s: State, m: Addr, name: string, objConst: bool, numeric: bool)
    requires Inv(s) && IsStatic(s, m) && !HasIndexer(ClassOf(s, m), Str(name, numeric), "___set_indexed")
    ensures var r, t := Step(s, MemberReadOnly(m, name)), s.heap[m].sig.typ;
            && Inv(r) && t in r.supers
            && ObjectFinds(r, t, objConst, Str(name, numeric), true) ==
               Hit(MetaOf(r, t, objConst), Accessor(ReadOnly(name)))
  {
    var e := MemberReadOnly(m, name);
    var r, t := Step(s, e), s.heap[m].sig.typ;
    hide Inv, MetaOf, Find, PairOk;
    TablesOf(s, e);
    SameNames(t, s.heap[MetaOf(s, t, false)], s.heap[MetaOf(s, t, true)], Str(name, numeric));
    LinksDescend(r);
    WritingFinds(r.heap, MetaOf(r, t, objConst), Str(name, numeric));
  }

  /** Indexers are member functions of these names: a number finds them where no member has that name. */
  lemma IndexerIsFound(s: State, m: Addr, writing: bool, id: nat, isConst: bool)
    requires Inv(s) && IsStatic(s, m)
    ensures var name := if writing then "___set_indexed" else "___get_indexed";
            var r, t := Step(s, MemberFunction(m, name, id, isConst)), s.heap[m].sig.typ;
            && Inv(r) && t in r.supers
            && ObjectFinds(r, t, false, Number, writing) == Hit(MetaOf(r, t, false), Indexer(Proc(id, t, isConst)))
            && ObjectFinds(r, t, true, Number, writing) ==
               Hit(MetaOf(r, t, true), Indexer(if isConst then Proc(id, t, true) else ConstMismatch(name)))
  {
    var name := if writing then "___set_indexed" else "___get_indexed";
    var e := MemberFunction(m, name, id, isConst);
    var r, t := Step(s, e), s.heap[m].sig.typ;
    hide Inv, MetaOf, Find, PairOk;
    TablesOf(s, e);
    LinksDescend(r);
    if writing {
      WritingFinds(r.heap, MetaOf(r, t, false), Number);
      WritingFinds(r.heap, MetaOf(r, t, true), Number);
    } else {
      ReadingFinds(r.heap, MetaOf(r, t, false), Number);
      ReadingFinds(r.heap, MetaOf(r, t, true), Number);
    }
  }

  /** The static side: functions, properties that can be read, set, or only read. */
  lemma StaticIsFound(s: State, e: Event, numeric: bool)
    requires Inv(s) && Enabled(s, e)
    requires e.StaticFunction? || e.StaticGetter? || e.StaticSetter? || e.StaticReadOnly?
    requires e.StaticGetter? ==>
               && !HasMember(s.heap[e.meta], Str(e.name, numeric))
               && !HasIndexer(s.heap[e.meta], Str(e.name, numeric), "___get_indexed")
    requires e.StaticSetter? || e.StaticReadOnly? ==>
               !HasIndexer(s.heap[e.meta], Str(e.name, numeric), "___set_indexed")
    ensures var r := Step(s, e);
            Inv(r) && ClassFinds(r, e.meta, Str(e.name, numeric), e.StaticSetter? || e.StaticReadOnly?) ==
                      Hit(e.meta, match e
                                  case StaticFunction(_, _, id) => Member(Plain(id))
                                  case StaticGetter(_, _, item) => Accessor(item)
                                  case StaticSetter(_, _, id) => Accessor(Plain(id))
                                  case StaticReadOnly(_, name) => Accessor(ReadOnly(name)))
  {
    var r := Step(s, e);
    hide Inv, Find;
    FillKeepsInv(s, e);
    LinksDescend(r);
    ReadingFinds(r.heap, e.meta, Str(e.name, numeric));
    WritingFinds(r.heap, e.meta, Str(e.name, numeric));
  }

  // ---- What a registration leaves alone ----

  predicate AgreeBut(a: map<string, Item>, b: map<string, Item>, name: string) {
    a - {name} == b - {name}
  }

  /** The tables are linked alike and hold the same under every other name. */
  predicate SameBut(a: Meta, b: Meta, name: string) {
    && a.superMt == b.superMt
    && AgreeBut(a.members, b.members, name) && AgreeBut(a.getters, b.getters, name)
    && AgreeBut(a.setters, b.setters, name)
  }

  /** The three tables of one class. */
  predicate IsTableOf(s: State, m: Addr, a: Addr)
    requires IsStatic(s, m)
  {
    a == m || a == s.heap[m].classMt.value || a == s.heap[m].constMt
  }

  lemma UpdateAgrees(a: map<string, Item>, name: string, item: Item)
    ensures AgreeBut(a, a[name := item], name)
  {
  }

  /** A registration changes the entry of one name, in the tables of one class. */
  lemma FillChangesOneName(s: State, e: Event, a: Addr)
    requires Inv(s) && Enabled(s, e) && !e.Bind? && !e.Extend? && a in s.heap
    ensures var r := Step(s, e);
            && r.heap.Keys == s.heap.Keys && SameBut(s.heap[a], r.heap[a], e.name)
            && (!IsTableOf(s, e.meta, a) ==> r.heap[a] == s.heap[a])
  {
    hide Inv, AgreeBut;
    var t := s.heap[e.meta].sig.typ;
    forall item {:trigger s.heap[a].members[e.name := item]}
      ensures AgreeBut(s.heap[a].members, s.heap[a].members[e.name := item], e.name)
    {
      UpdateAgrees(s.heap[a].members, e.name, item);
    }
    forall item {:trigger s.heap[a].getters[e.name := item]}
      ensures AgreeBut(s.heap[a].getters, s.heap[a].getters[e.name := item], e.name)
    {
      UpdateAgrees(s.heap[a].getters, e.name, item);
    }
    forall item {:trigger s.heap[a].setters[e.name := item]}
      ensures AgreeBut(s.heap[a].setters, s.heap[a].setters[e.name := item], e.name)
    {
      UpdateAgrees(s.heap[a].setters, e.name, item);
    }
    SelfAgrees(s.heap[a], e.name);
  }

  lemma SelfAgrees(a: Meta, name: string)
    ensures SameBut(a, a, name)
  {
  }

  /** The key looks up a name: its own, or that of an indexer. */
  predicate LooksUp(key: Key, name: string, writing: bool) {
    (key.Str? && key.s == name) || (IsNumber(key) && name == IndexerName(writing))
  }

  lemma SameAt(a: Meta, b: Meta, name: string, key: Key, writing: bool)
    requires SameBut(a, b, name) && !LooksUp(key, name, writing)
    ensures At(a, key, writing) == At(b, key, writing)
  {
    if IsNumber(key) {
      SameEntry(a.members, b.members, name, IndexerName(writing));
    }
    if key.Str? && key.s != name {
      SameEntry(a.members, b.members, name, key.s);
      SameEntry(a.getters, b.getters, name, key.s);
      SameEntry(a.setters, b.setters, name, key.s);
    }
  }

  lemma SameEntry(a: map<string, Item>, b: map<string, Item>, name: string, other: string)
    requires AgreeBut(a, b, name) && other != name
    ensures other in a <==> other in b
    ensures other in a ==> a[other] == b[other]
  {
    assert other in a <==> other in a - {name};
    assert other in b <==> other in b - {name};
    if other in a {
      assert (a - {name})[other] == (b - {name})[other];
    }
  }

  /** No lookup of another name changes, from any table. */
  lemma {:induction false} OtherNamesStay(s: State, e: Event, a: Addr, key: Key, writing: bool)
    requires Inv(s) && Enabled(s, e) && !e.Bind? && !e.Extend? && a in s.heap && !LooksUp(key, e.name, writing)
    ensures Descending(s.heap) && Descending(Step(s, e).heap)
    ensures a in Step(s, e).heap && Find(Step(s, e).heap, a, key, writing) == Find(s.heap, a, key, writing)
    decreases a
  {
    hide Inv, Step, At, SameBut;
    var r := Step(s, e);
    FillKeepsInv(s, e);
    LinksDescend(s);
    LinksDescend(r);
    FillChangesOneName(s, e, a);
    SameAt(s.heap[a], r.heap[a], e.name, key, writing);
    SameLinkBut(s.heap[a], r.heap[a], e.name);
    if s.heap[a].superMt.Some? {
      OtherNamesStay(s, e, s.heap[a].superMt.value, key, writing);
    }
  }

  lemma SameLinkBut(a: Meta, b: Meta, name: string)
    requires SameBut(a, b, name)
    ensures a.superMt == b.superMt
  {
  }

  /** No lookup changes for a class that is not the registered one or a descendant of it. */
  lemma {:induction false} OtherClassesStay(
    s: State, e: Event, side: Side, t: TypeId, key: Key, writing: bool)
    requires Inv(s) && Enabled(s, e) && !e.Bind? && !e.Extend?
    requires t in s.supers && !IsA(s, t, s.heap[e.meta].sig.typ)
    ensures HasTable(s, side, t) && TableAddr(s, side, t) in Step(s, e).heap
    ensures Descending(s.heap) && Descending(Step(s, e).heap)
    ensures Find(Step(s, e).heap, TableAddr(s, side, t), key, writing) ==
            Find(s.heap, TableAddr(s, side, t), key, writing)
    decreases if HasTable(s, side, t) then TableAddr(s, side, t) else 0
  {
    hide TypesOk, HeapOk, RegistryOk, NamesOk, At, IsA, Step;
    FillKeepsInv(s, e);
    LinksDescend(s);
    LinksDescend(Step(s, e));
    TableOfType(s, side, t);
    IsAUnfold(s, t, s.heap[e.meta].sig.typ);
    var a := TableAddr(s, side, t);
    FillChangesOneName(s, e, a);
    NotItsTable(s, e.meta, a);
    if s.supers[t].Some? {
      TableOfType(s, side, s.supers[t].value);
      OtherClassesStay(s, e, side, s.supers[t].value, key, writing);
    }
  }

  lemma NotItsTable(s: State, m: Addr, a: Addr)
    requires Inv(s) && IsStatic(s, m) && a in s.heap && s.heap[a].sig.typ != s.heap[m].sig.typ
    ensures !IsTableOf(s, m, a)
  {
    hide TypesOk, HeapOk, RegistryOk, NamesOk;
    StaticOfType(s, m);
  }

  // ---- New classes ----

  /** r has all the tables of s, unchanged. */
  ghost predicate HasAllOf(r: State, s: State) {
    forall a <- s.heap :: a in r.heap && r.heap[a] == s.heap[a]
  }

  /** A lookup stays among the tables it starts from. */
  lemma {:induction false} SameTablesSameFind(s: State, r: State, a: Addr, key: Key, writing: bool)
    requires Descending(s.heap) && Descending(r.heap) && HasAllOf(r, s) && a in s.heap
    ensures Find(r.heap, a, key, writing) == Find(s.heap, a, key, writing)
    decreases a
  {
    hide At;
    if s.heap[a].superMt.Some? {
      SameTablesSameFind(s, r, s.heap[a].superMt.value, key, writing);
    }
  }

  /** Only a new table knows this key before anything is registered on its class. */
  predicate IsClassKey(key: Key, writing: bool) {
    !writing && key.Str? && key.s == "class"
  }

  lemma NewTableIsEmpty(m: Meta, key: Key, writing: bool)
    requires m.getters == map[] && m.setters == map[]
    requires m.members.Keys <= {"class"} && !IsClassKey(key, writing)
    ensures At(m, key, writing) == Missing
  {
  }

  /** The three tables that AfterBuild makes for t. */
  lemma NewTableAlone(s: State, parent: nat, name: string, t: TypeId, side: Side)
    requires (parent, name) !in s.names && side != Static
    ensures var b := AfterBuild(s, parent, name, t);
            && HasTable(b, side, t)
            && Table(b, side, t).superMt.None? && Table(b, side, t).members == map["class" := ClassTable(t)]
            && Table(b, side, t).getters == map[] && Table(b, side, t).setters == map[]
  {
  }

  /**
   A new class without a super class: its objects find the class under "class" and
   nothing else, and no other lookup changes.
   */
  lemma NewClassFinds(s: State, parent: nat, name: string, t: TypeId, objConst: bool, key: Key, writing: bool)
    requires Inv(s) && CanBind(s, parent, name, t) && (parent, name) !in s.names
    ensures var r := Step(s, Bind(parent, name, t));
            && Inv(r) && t in r.supers && HasAllOf(r, s)
            && ObjectFinds(r, t, objConst, key, writing) ==
               if IsClassKey(key, writing) then Hit(MetaOf(r, t, objConst), Member(ClassTable(t))) else NotFound
  {
    hide Inv, MetaOf, At, AfterBuild;
    var r := Step(s, Bind(parent, name, t));
    BuildKeepsInv(s, parent, name, t);
    BuildAdds(s, parent, name, t);
    LinksDescend(r);
    NewTableAlone(s, parent, name, t, if objConst then Const else Class);
    MetaIsTable(r, t);
    var m := r.heap[MetaOf(r, t, objConst)];
    ReadingFinds(r.heap, MetaOf(r, t, objConst), key);
    if !IsClassKey(key, writing) {
      NewTableIsEmpty(m, key, writing);
    }
  }

  /** Linking the new class changes no older table. */
  lemma OldTablesStay(s: State, parent: nat, name: string, t: TypeId, base: TypeId)
    requires Inv(s) && CanExtend(s, parent, name, t, base) && (parent, name) !in s.names
    ensures var r := AfterExtend(s, parent, name, t, base);
            && HasAllOf(r, s) && base in s.supers && r.registry == AfterBuild(s, parent, name, t).registry
            && forall sig <- s.registry :: sig in r.registry && r.registry[sig] == s.registry[sig]
  {
    hide TypesOk, RegistryOk, NamesOk, AfterBuild, AfterLink, Older;
    var b := AfterBuild(s, parent, name, t);
    BuildAdds(s, parent, name, t);
    NewIsYoungest(s, parent, name, t, base);
    forall a <- s.heap
      ensures a in AfterLink(b, s.next + 2, b.registry[Sig(Static, base)]).heap
      ensures AfterLink(b, s.next + 2, b.registry[Sig(Static, base)]).heap[a] == s.heap[a]
    {
      LinkedTable(b, s.next + 2, b.registry[Sig(Static, base)], a);
    }
    LinkedTable(b, s.next + 2, b.registry[Sig(Static, base)], s.next + 2);
  }

  /** The table of a new derived class is linked to that of its super class and otherwise new. */
  lemma DerivedTable(s: State, parent: nat, name: string, t: TypeId, base: TypeId, side: Side)
    requires Inv(s) && CanExtend(s, parent, name, t, base) && (parent, name) !in s.names && side != Static
    ensures var r := AfterExtend(s, parent, name, t, base);
            && HasTable(r, side, t) && HasTable(r, side, base)
            && Table(r, side, t).superMt == Some(TableAddr(r, side, base))
            && Table(r, side, t).members == map["class" := ClassTable(t)]
            && Table(r, side, t).getters == map[] && Table(r, side, t).setters == map[]
  {
    hide TypesOk, HeapOk, RegistryOk, NamesOk, AfterBuild, AfterLink, Older;
    var b := AfterBuild(s, parent, name, t);
    var r := AfterExtend(s, parent, name, t, base);
    NewIsYoungest(s, parent, name, t, base);
    NewTableAlone(s, parent, name, t, side);
    LinkedTable(b, s.next + 2, b.registry[Sig(Static, base)], TableAddr(b, side, t));
    LinkedTable(b, s.next + 2, b.registry[Sig(Static, base)], TableAddr(b, side, base));
  }

  /**
   A new derived class: its objects find the class under "class", and everything
   else exactly as objects of the super class do; no other lookup changes.
   */
  lemma DerivedClassInherits(
    s: State, parent: nat, name: string, t: TypeId, base: TypeId, objConst: bool, key: Key, writing: bool)
    requires Inv(s) && CanExtend(s, parent, name, t, base) && (parent, name) !in s.names
    ensures var r := Step(s, Extend(parent, name, t, base));
            && Inv(r) && t in r.supers && base in s.supers && HasAllOf(r, s)
            && ObjectFinds(r, t, objConst, key, writing) ==
               if IsClassKey(key, writing) then Hit(MetaOf(r, t, objConst), Member(ClassTable(t)))
               else ObjectFinds(s, base, objConst, key, writing)
  {
    hide Inv, MetaOf, At, AfterExtend, HasAllOf, Find;
    var r := Step(s, Extend(parent, name, t, base));
    var side := if objConst then Const else Class;
    ExtendKeepsInv(s, parent, name, t, base);
    OldTablesStay(s, parent, name, t, base);
    DerivedTable(s, parent, name, t, base, side);
    LinksDescend(s);
    LinksDescend(r);
    TypeIsThere(r, side, t);
    MetaIsTable(r, t);
    MetaIsTable(s, base);
    var a := MetaOf(r, t, objConst);
    if IsClassKey(key, writing) {
      ReadingFinds(r.heap, a, key);
    } else {
      NewTableIsEmpty(r.heap[a], key, writing);
      PassesOn(r.heap, a, key, writing);
      SameTablesSameFind(s, r, MetaOf(s, base, objConst), key, writing);
    }
  }

  /** The static side of a new class knows nothing of its own: it finds what that of the super class finds. */
  lemma NewStaticsInherit(s: State, parent: nat, name: string, t: TypeId, base: TypeId, key: Key, writing: bool)
    requires Inv(s) && CanExtend(s, parent, name, t, base) && (parent, name) !in s.names
    ensures var r := Step(s, Extend(parent, name, t, base));
            && Inv(r) && base in s.supers && HasTable(s, Static, base) && HasTable(r, Static, t)
            && ClassFinds(r, TableAddr(r, Static, t), key, writing) ==
               ClassFinds(s, TableAddr(s, Static, base), key, writing)
  {
    hide Inv, At, AfterExtend, HasAllOf, Find;
    var r := Step(s, Extend(parent, name, t, base));
    ExtendKeepsInv(s, parent, name, t, base);
    OldTablesStay(s, parent, name, t, base);
    DerivedStatic(s, parent, name, t, base);
    MetaIsTable(s, base);
    LinksDescend(s);
    LinksDescend(r);
    NoEntries(r.heap[TableAddr(r, Static, t)], key, writing);
    PassesOn(r.heap, TableAddr(r, Static, t), key, writing);
    SameTablesSameFind(s, r, TableAddr(s, Static, base), key, writing);
  }

  lemma DerivedStatic(s: State, parent: nat, name: string, t: TypeId, base: TypeId)
    requires Inv(s) && CanExtend(s, parent, name, t, base) && (parent, name) !in s.names
    ensures var r := AfterExtend(s, parent, name, t, base);
            && HasTable(r, Static, t) && HasTable(r, Static, base)
            && Table(r, Static, t).superMt == Some(TableAddr(r, Static, base))
            && Table(r, Static, t).members == map[] && Table(r, Static, t).getters == map[]
            && Table(r, Static, t).setters == map[]
  {
    hide TypesOk, HeapOk, RegistryOk, NamesOk, AfterBuild, AfterLink, Older;
    var b := AfterBuild(s, parent, name, t);
    NewIsYoungest(s, parent, name, t, base);
    NewStatic(s, parent, name, t);
    LinkedTable(b, s.next + 2, b.registry[Sig(Static, base)], TableAddr(b, Static, t));
    LinkedTable(b, s.next + 2, b.registry[Sig(Static, base)], TableAddr(b, Static, base));
  }

  lemma NewStatic(s: State, parent: nat, name: string, t: TypeId)
    requires (parent, name) !in s.names
    ensures var b := AfterBuild(s, parent, name, t);
            && HasTable(b, Static, t)
            && Table(b, Static, t).members == map[] && Table(b, Static, t).getters == map[]
            && Table(b, Static, t).setters == map[]
  {
  }

  lemma NoEntries(m: Meta, key: Key, writing: bool)
    requires m.members == map[] && m.getters == map[] && m.setters == map[]
    ensures At(m, key, writing) == Missing
  {
  }

  lemma TypeIsThere(s: State, side: Side, t: TypeId)
    requires Inv(s) && HasTable(s, side, t)
    ensures t in s.supers
  {
    hide TypesOk, RegistryOk, NamesOk;
  }

  lemma PassesOn(h: Heap, a: Addr, key: Key, writing: bool)
    requires Descending(h) && a in h && At(h[a], key, writing) == Missing && h[a].superMt.Some?
    ensures Find(h, a, key, writing) == Find(h, h[a].superMt.value, key, writing)
  {
    hide At;
  }
}
