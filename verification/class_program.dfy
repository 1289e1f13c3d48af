/**
 The program on these tables: the class registry as it is kept in the Lua state,
 with the registration functions of CppBindClassBase, the two metamethods and
 the type check.
 */
module ClassProgram {
  import opened Common
  import opened ClassRegistry
  import opened ClassLookup

  class Registry {
    var heap: Heap
    var registry: map<Sig, Addr>
    var names: map<(nat, string), Addr>
    var next: Addr
    ghost var supers: map<TypeId, Option<TypeId>>

    ghost function Value(): State
      reads this
    {
      State(heap, registry, names, next, supers)
    }

    constructor ()
      ensures Value() == EMPTY_REGISTRY && Inv(Value())
    {
      heap, registry, names, next, supers := map[], map[], map[], 0, map[];
      new;
      EmptyHolds();
    }

    method BuildMetaTable(parent: nat, name: string, t: TypeId) returns (meta: Addr, built: bool)
      requires Inv(Value()) && CanBind(Value(), parent, name, t)
      modifies this
      ensures Inv(Value()) && Value() == AfterBuild(old(Value()), parent, name, t)
      ensures (parent, name) in names && meta == names[(parent, name)] && IsStatic(Value(), meta)
      ensures built <==> (parent, name) !in old(names)
      ensures if built then meta == old(next) + 2 else Value() == old(Value())
    {
      hide Inv, IsStatic, NewMeta, HasTables, TableAddr, CanBind;
      BuildKeepsInv(Value(), parent, name, t);
      NamesAreStatic(AfterBuild(Value(), parent, name, t), (parent, name));
      if (parent, name) in names {
        return names[(parent, name)], false;
      }
      var constMt := next;
      heap := heap[constMt := NewMeta(Sig(Const, t), None, constMt)];
      var classMt := next + 1;
      heap := heap[classMt := NewMeta(Sig(Class, t), None, constMt)];
      meta := next + 2;
      heap := heap[meta := NewMeta(Sig(Static, t), Some(classMt), constMt)];
      next := next + 3;
      registry := registry[Sig(Class, t) := classMt];
      registry := registry[Sig(Const, t) := constMt];
      registry := registry[Sig(Static, t) := meta];
      names := names[(parent, name) := meta];
      supers := supers[t := None];
      built := true;
    }

    lemma NamesAreStatic(s: State, n: (nat, string))
      requires Inv(s) && n in s.names
      ensures IsStatic(s, s.names[n])
    {
      hide TypesOk, HeapOk, RegistryOk;
      StaticOfType(s, s.names[n]);
    }

    method ExtendMetaTable(parent: nat, name: string, t: TypeId, base: TypeId) returns (meta: Addr, built: bool)
      requires Inv(Value()) && CanExtend(Value(), parent, name, t, base)
      modifies this
      ensures Inv(Value()) && Value() == AfterExtend(old(Value()), parent, name, t, base)
      ensures built <==> (parent, name) !in old(names)
    {
      hide TypesOk, HeapOk, RegistryOk, NamesOk, AfterBuild;
      ExtendKeepsInv(Value(), parent, name, t, base);
      if (parent, name) !in names {
        NewIsYoungest(Value(), parent, name, t, base);
      }
      meta, built := BuildMetaTable(parent, name, t);
      if built {
        var superMt := registry[Sig(Static, base)];
        LinkSuper(meta, superMt);
      }
    }

    method LinkSuper(meta: Addr, superMt: Addr)
      requires IsStatic(Value(), meta) && IsStatic(Value(), superMt) && meta != superMt
      modifies this`heap, this`supers
      ensures Value() == AfterLink(old(Value()), meta, superMt)
    {
      var mt, base := heap[meta], heap[superMt];
      heap := heap[meta := mt.(superMt := Some(superMt))];
      heap := heap[mt.classMt.value := heap[mt.classMt.value].(superMt := base.classMt)];
      heap := heap[mt.constMt := heap[mt.constMt].(superMt := Some(base.constMt))];
      supers := supers[mt.sig.typ := Some(base.sig.typ)];
    }

    method SetMemberFunction(meta: Addr, name: string, id: nat, isConst: bool)
      requires Inv(Value()) && IsStatic(Value(), meta)
      modifies this`heap
      ensures Value() == AfterMemberFunction(old(Value()), meta, name, id, isConst)
      ensures Inv(Value())
    {
      hide Inv;
      FillKeepsInv(Value(), MemberFunction(meta, name, id, isConst));
      MetasAreApart(Value(), meta);
      var classMt, constMt := heap[meta].classMt.value, heap[meta].constMt;
      var proc := Proc(id, heap[meta].sig.typ, isConst);
      var c, k := heap[classMt], heap[constMt];
      heap := heap[classMt := c.(members := c.members[name := proc])];
      var err := ConstMismatch(name);
      if isConst {
        heap := heap[constMt := k.(members := k.members[name := proc])];
      } else {
        heap := heap[constMt := k.(members := k.members[name := err])];
      }
    }

    lemma MetasAreApart(s: State, m: Addr)
      requires Inv(s) && IsStatic(s, m)
      ensures s.heap[m].classMt.value != s.heap[m].constMt
    {
      hide TypesOk, HeapOk, RegistryOk, NamesOk;
      StaticOfType(s, m);
    }

    method SetMemberGetter(meta: Addr, name: string, getter: Item, getterConst: Item)
      requires Inv(Value()) && IsStatic(Value(), meta)
      requires getter.Proc? && getterConst.Proc? && getter.owner == heap[meta].sig.typ == getterConst.owner
      modifies this`heap
      ensures Value() == AfterMemberGetter(old(Value()), meta, name, getter, getterConst)
      ensures Inv(Value())
    {
      hide Inv;
      FillKeepsInv(Value(), MemberGetter(meta, name, getter.id, getter.isConst, getterConst.id, getterConst.isConst));
      MetasAreApart(Value(), meta);
      var classMt, constMt := heap[meta].classMt.value, heap[meta].constMt;
      var c, k := heap[classMt], heap[constMt];
      heap := heap[classMt := c.(getters := c.getters[name := getter])];
      heap := heap[constMt := k.(getters := k.getters[name := getterConst])];
    }

    method SetMemberSetter(meta: Addr, name: string, id: nat)
      requires Inv(Value()) && IsStatic(Value(), meta)
      modifies this`heap
      ensures Value() == AfterMemberSetter(old(Value()), meta, name, id)
      ensures Inv(Value())
    {
      hide Inv;
      FillKeepsInv(Value(), MemberSetter(meta, name, id));
      MetasAreApart(Value(), meta);
      var classMt, constMt := heap[meta].classMt.value, heap[meta].constMt;
      var c, k := heap[classMt], heap[constMt];
      heap := heap[classMt := c.(setters := c.setters[name := Proc(id, heap[meta].sig.typ, false)])];
      heap := heap[constMt := k.(setters := k.setters[name := ConstMismatch(name)])];
    }

    method SetMemberReadOnly(meta: Addr, name: string)
      requires Inv(Value()) && IsStatic(Value(), meta)
      modifies this`heap
      ensures Value() == AfterMemberReadOnly(old(Value()), meta, name)
      ensures Inv(Value())
    {
      hide Inv;
      FillKeepsInv(Value(), MemberReadOnly(meta, name));
      MetasAreApart(Value(), meta);
      var classMt, constMt := heap[meta].classMt.value, heap[meta].constMt;
      var c, k := heap[classMt], heap[constMt];
      heap := heap[classMt := c.(setters := c.setters[name := ReadOnly(name)])];
      heap := heap[constMt := k.(setters := k.setters[name := ReadOnly(name)])];
    }

    method SetStaticGetter(meta: Addr, name: string, getter: Item)
      requires Inv(Value()) && IsStatic(Value(), meta)
      modifies this`heap
      ensures Value() == Step(old(Value()), StaticGetter(meta, name, getter)) && Inv(Value())
    {
      hide Inv;
      FillKeepsInv(Value(), StaticGetter(meta, name, getter));
      var mt := heap[meta];
      heap := heap[meta := mt.(getters := mt.getters[name := getter])];
    }

    method SetStaticSetter(meta: Addr, name: string, id: nat)
      requires Inv(Value()) && IsStatic(Value(), meta)
      modifies this`heap
      ensures Value() == Step(old(Value()), StaticSetter(meta, name, id)) && Inv(Value())
    {
      hide Inv;
      FillKeepsInv(Value(), StaticSetter(meta, name, id));
      var mt := heap[meta];
      heap := heap[meta := mt.(setters := mt.setters[name := Plain(id)])];
    }

    method SetStaticReadOnly(meta: Addr, name: string)
      requires Inv(Value()) && IsStatic(Value(), meta)
      modifies this`heap
      ensures Value() == Step(old(Value()), StaticReadOnly(meta, name)) && Inv(Value())
    {
      hide Inv;
      FillKeepsInv(Value(), StaticReadOnly(meta, name));
      var mt := heap[meta];
      heap := heap[meta := mt.(setters := mt.setters[name := ReadOnly(name)])];
    }

    // ---- The metamethods and the type check ----

    /** The metatable must be the one registered for what it says it is. */
    method Index(meta: Addr, key: Key) returns (hit: Hit)
      requires Inv(Value()) && meta in heap
      ensures Descending(heap) && hit == Find(heap, meta, key, false)
    {
      LinksDescend(Value());
      SignatureMatches(Value(), meta);
      hide Inv, At;
      if registry[heap[meta].sig] != meta {
        assert false;
      }
      var mt := meta;
      while true
        invariant mt in heap && Find(heap, meta, key, false) == Find(heap, mt, key, false)
        decreases mt
      {
        var access := GetAt(heap[mt], key);
        if access != Missing {
          return Hit(mt, access);
        }
        if heap[mt].superMt.None? {
          return NotFound;
        }
        mt := heap[mt].superMt.value;
      }
    }

    /** One turn of the loop in index. */
    method GetAt(m: Meta, key: Key) returns (access: Access)
      ensures access == At(m, key, false)
    {
      if key.Str? && key.s in m.members {
        return Member(m.members[key.s]);
      }
      if IsNumber(key) {
        if "___get_indexed" in m.members {
          return Indexer(m.members["___get_indexed"]);
        }
      }
      if key.Str? && key.s in m.getters {
        return Accessor(m.getters[key.s]);
      }
      return Missing;
    }

    lemma SignatureMatches(s: State, meta: Addr)
      requires Inv(s) && meta in s.heap
      ensures s.heap[meta].sig in s.registry && s.registry[s.heap[meta].sig] == meta
    {
      hide TypesOk, RegistryOk, NamesOk;
    }

    method NewIndex(meta: Addr, key: Key) returns (hit: Hit)
      requires Inv(Value()) && meta in heap
      ensures Descending(heap) && hit == Find(heap, meta, key, true)
    {
      LinksDescend(Value());
      SignatureMatches(Value(), meta);
      hide Inv, At;
      if registry[heap[meta].sig] != meta {
        assert false;
      }
      var mt := meta;
      while true
        invariant mt in heap && Find(heap, meta, key, true) == Find(heap, mt, key, true)
        decreases mt
      {
        var access := SetAt(heap[mt], key);
        if access != Missing {
          return Hit(mt, access);
        }
        if heap[mt].superMt.None? {
          return NotFound;
        }
        mt := heap[mt].superMt.value;
      }
    }

    /** One turn of the loop in newIndex. */
    method SetAt(m: Meta, key: Key) returns (access: Access)
      ensures access == At(m, key, true)
    {
      if IsNumber(key) {
        if "___set_indexed" in m.members {
          return Indexer(m.members["___set_indexed"]);
        }
      }
      if key.Str? && key.s in m.setters {
        return Accessor(m.setters[key.s]);
      }
      return Missing;
    }

    method GetObject(obj: Option<Addr>, classId: Sig, isConst: bool, isExact: bool) returns (verdict: Verdict)
      requires Inv(Value()) && (obj.Some? ==> obj.value in heap)
      ensures Descending(heap) && (obj.Some? ==> heap[obj.value].constMt in heap)
      ensures verdict == Check(Value(), obj, classId, isConst, isExact)
    {
      LinksDescend(Value());
      ConstTablesExist(Value(), obj);
      hide Inv;
      if obj.None? {
        return NotUserdata;
      }
      if classId !in registry {
        return UnknownClass;
      }
      var base := registry[classId];
      var mt := obj.value;
      if isConst && !isExact {
        mt := heap[mt].constMt;
      }
      ghost var start := mt;
      while true
        invariant mt in heap && (isExact ==> mt == obj.value)
        invariant !isExact ==> (Reaches(heap, start, base) <==> Reaches(heap, mt, base))
        decreases mt
      {
        if mt == base {
          return Accepted;
        }
        if isExact {
          return Mismatch;
        }
        if heap[mt].superMt.None? {
          return Mismatch;
        }
        mt := heap[mt].superMt.value;
      }
    }

    lemma ConstTablesExist(s: State, obj: Option<Addr>)
      requires Inv(s) && (obj.Some? ==> obj.value in s.heap)
      ensures obj.Some? ==> s.heap[obj.value].constMt in s.heap
    {
      hide PairOk, LinkOk;
      if obj.Some? {
        var sig := s.heap[obj.value].sig;
        assert TypeOk(s, sig.typ);
        match sig.side
        case Static =>
        case Class =>
        case Const =>
      }
    }
  }
}
