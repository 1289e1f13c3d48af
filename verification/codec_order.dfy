/**
 When the order in which Lua iterates matters to MessageSetter. Acceptance never
 depends on it. The message does exactly when the table is accepted and
 ambiguous: somewhere in it two members of one oneof are given, or two keys of
 a map field convert alike while their values do not.
 */
module CodecOrder {
  import opened Common
  import opened CodecValues
  import opened CodecEncode
  import opened CodecReference

  // ---- Acceptance has no order in it ----

  /** Every string key names a field that takes its value. */
  ghost predicate Accepts(env: Env, path: Path, ty: string, v: Lua)
    decreases v, 3
  {
    var fs := FieldsOf(env.schema, ty);
    v.Table? && forall k <- v.t :: k.KStr? ==> k.s in fs && AcceptsContent(env, path + [k], fs[k.s], v.t[k])
  }

  ghost predicate AcceptsContent(env: Env, path: Path, f: Field, v: Lua)
    decreases v, 5
  {
    match f.shape
    case Singular => AcceptsValue(env, path, f.kind, v)
    case Repeated => v.Table? && AcceptsElements(env, path, f.kind, v, ElementCount(env.len(path, v.t)))
    case MapOf(keyKind) =>
      v.Table? && forall k <- v.t ::
        PullKey(env.lib, keyKind, k).Some? && AcceptsValue(env, path + [k], f.kind, v.t[k])
  }

  ghost predicate AcceptsElements(env: Env, path: Path, kind: Kind, v: Lua, n: Size)
    requires v.Table?
    decreases v, 4
  {
    forall i: LuaInt :: 1 <= i <= n ==>
      if KInt(i) in v.t then AcceptsValue(env, path + [KInt(i)], kind, v.t[KInt(i)])
      else FromNil(env.lib, kind).Some?
  }

  ghost predicate AcceptsValue(env: Env, path: Path, kind: Kind, v: Lua)
    decreases v, 4
  {
    if kind.MessageK? then Accepts(env, path, kind.typ, v) else Pull(env.lib, kind, v).Some?
  }

  /** Whether a table is taken or refused depends neither on the order nor on the message it is set into. */
  lemma SetMsgSucceedsIff(env: Env, order: Order, path: Path, ty: string, m: Msg, v: Lua)
    requires v.Table? && ValidOrder(order)
    ensures SetMsg(env, order, path, ty, m, v).Some? <==> Accepts(env, path, ty, v)
    decreases v, 3, 0
  {
    var keys := order(path, v.t);
    assert forall k :: k in keys <==> k in v.t;
    SetKeysSucceedsIff(env, order, path, ty, m, v, keys);
  }

  lemma {:induction false} SetKeysSucceedsIff(
    env: Env, order: Order, path: Path, ty: string, m: Msg, v: Lua, keys: seq<Key>)
    requires v.Table? && ValidOrder(order) && forall k <- keys :: k in v.t
    ensures var fs := FieldsOf(env.schema, ty);
            SetKeys(env, order, path, ty, m, v, keys).Some? <==>
            forall k <- keys :: k.KStr? ==> k.s in fs && AcceptsContent(env, path + [k], fs[k.s], v.t[k])
    decreases v, 2, |keys|
  {
    hide SetContent, AcceptsContent, Put, ValidOrder;
    if keys != [] {
      var fs := FieldsOf(env.schema, ty);
      var k, rest := keys[0], keys[1..];
      assert keys == [k] + rest;
      var next := m;
      if k.KStr? && k.s in fs {
        assert k == KStr(k.s);
        SetContentSucceedsIff(env, order, path + [k], fs[k.s], ContentAt(m, k.s), v.t[k]);
        var c := SetContent(env, order, path + [k], fs[k.s], ContentAt(m, k.s), v.t[k]);
        next := if c.Some? then Put(fs, m, k.s, c.value) else m;
      }
      SetKeysSucceedsIff(env, order, path, ty, next, v, rest);
    }
  }

  lemma SetContentSucceedsIff(env: Env, order: Order, path: Path, f: Field, prev: Option<Content>, v: Lua)
    requires ValidOrder(order)
    ensures SetContent(env, order, path, f, prev, v).Some? <==> AcceptsContent(env, path, f, v)
    decreases v, 5, 0
  {
    match f.shape
    case Singular =>
      if f.kind.MessageK? {
        assert AcceptsContent(env, path, f, v) == Accepts(env, path, f.kind.typ, v);
        if v.Table? {
          SetMsgSucceedsIff(env, order, path, f.kind.typ, OldSub(env, f.kind.typ, prev), v);
        }
      }
    case Repeated =>
      if v.Table? {
        AddElementsSucceedsIff(
          env, order, path, f.kind, OldElements(prev), v, ElementCount(env.len(path, v.t)));
      }
    case MapOf(keyKind) =>
      if v.Table? {
        AddEntriesSucceedsIff(env, order, path, keyKind, f.kind, OldEntries(prev), v, order(path, v.t));
      }
  }

  lemma {:induction false} AddElementsSucceedsIff(
    env: Env, order: Order, path: Path, kind: Kind, vs: seq<Value>, v: Lua, n: Size)
    requires v.Table? && ValidOrder(order)
    ensures AddElements(env, order, path, kind, vs, v, n).Some? <==> AcceptsElements(env, path, kind, v, n)
    decreases v, 2, n
  {
    hide AcceptsValue, NewValue, ValidOrder;
    if n != 0 {
      AddElementsSucceedsIff(env, order, path, kind, vs, v, n - 1);
      if KInt(n) in v.t {
        NewValueSucceedsIff(env, order, path + [KInt(n)], kind, v.t[KInt(n)]);
      }
    }
  }

  lemma {:induction false} AddEntriesSucceedsIff(
    env: Env, order: Order, path: Path, keyKind: Kind, kind: Kind, d: map<Scalar, Value>, v: Lua, keys: seq<Key>)
    requires v.Table? && ValidOrder(order) && forall k <- keys :: k in v.t
    ensures AddEntries(env, order, path, keyKind, kind, d, v, keys).Some? <==>
            forall k <- keys :: PullKey(env.lib, keyKind, k).Some? && AcceptsValue(env, path + [k], kind, v.t[k])
    decreases v, 2, |keys|
  {
    hide AcceptsValue, NewValue, PullKey, ValidOrder;
    if keys != [] {
      var k, rest := keys[0], keys[1..];
      assert keys == [k] + rest;
      NewValueSucceedsIff(env, order, path + [k], kind, v.t[k]);
      var key := PullKey(env.lib, keyKind, k);
      var value := NewValue(env, order, path + [k], kind, v.t[k]);
      var next := if key.Some? && value.Some? then d[key.value := value.value] else d;
      AddEntriesSucceedsIff(env, order, path, keyKind, kind, next, v, rest);
    }
  }

  lemma NewValueSucceedsIff(env: Env, order: Order, path: Path, kind: Kind, v: Lua)
    requires ValidOrder(order)
    ensures NewValue(env, order, path, kind, v).Some? <==> AcceptsValue(env, path, kind, v)
    decreases v, 5, 0
  {
    if kind.MessageK? && v.Table? {
      SetMsgSucceedsIff(env, order, path, kind.typ, Fresh(env.schema, kind.typ), v);
    }
  }

  // ---- Which key wins ----

  /** No later key sets a field of the same oneof. */
  ghost predicate LastOfItsOneof(fs: Fields, keys: seq<Key>, i: nat)
    requires i < |keys| && keys[i].KStr?
  {
    forall j :: i < j < |keys| && keys[j].KStr? ==> !SharesOneof(fs, keys[i].s, keys[j].s)
  }

  /** The member of a oneof that Lua visits last is kept and every other member is cleared, given or old. */
  lemma {:induction false} LastOneofMemberWins(
    env: Env, order: Order, path: Path, ty: string, m: Msg, v: Lua, keys: seq<Key>, i: nat)
    requires v.Table? && ValidOrder(order) && forall k <- keys :: k in v.t
    requires i < |keys| && keys[i].KStr? && LastOfItsOneof(FieldsOf(env.schema, ty), keys, i)
    requires SetKeys(env, order, path, ty, m, v, keys).Some?
    ensures var fs := FieldsOf(env.schema, ty);
            var r := SetKeys(env, order, path, ty, m, v, keys).value;
            && keys[i].s in fs && keys[i].s in r.fields
            && forall b <- r.fields :: !SharesOneof(fs, b, keys[i].s)
    decreases |keys|
  {
    hide SetContent, ValidOrder;
    var fs := FieldsOf(env.schema, ty);
    var k, rest := keys[0], keys[1..];
    var next := if k.KStr? then SetField(env, order, path, ty, m, k.s, v.t[k]).value else m;
    if i == 0 {
      KeptWhileUnshared(env, order, path, ty, next, v, rest, k.s);
    } else {
      LastOneofMemberWins(env, order, path, ty, next, v, rest, i - 1);
    }
  }

  /** A field that is set stays, alone in its oneof, while keys of other oneofs are visited. */
  lemma {:induction false} KeptWhileUnshared(
    env: Env, order: Order, path: Path, ty: string, m: Msg, v: Lua, keys: seq<Key>, n: string)
    requires v.Table? && ValidOrder(order) && forall k <- keys :: k in v.t
    requires n in FieldsOf(env.schema, ty) && n in m.fields
    requires forall b <- m.fields :: !SharesOneof(FieldsOf(env.schema, ty), b, n)
    requires forall k <- keys :: k.KStr? ==> !SharesOneof(FieldsOf(env.schema, ty), n, k.s)
    requires SetKeys(env, order, path, ty, m, v, keys).Some?
    ensures var r := SetKeys(env, order, path, ty, m, v, keys).value;
            n in r.fields && forall b <- r.fields :: !SharesOneof(FieldsOf(env.schema, ty), b, n)
    decreases |keys|
  {
    hide SetContent, ValidOrder;
    if keys != [] {
      var k, rest := keys[0], keys[1..];
      var next := if k.KStr? then SetField(env, order, path, ty, m, k.s, v.t[k]).value else m;
      assert forall j <- rest :: j in keys;
      KeptWhileUnshared(env, order, path, ty, next, v, rest, n);
    }
  }

  /** Of the keys of a map field that convert alike the one visited last gives the value. */
  lemma {:induction false} LastKeyGivesTheValue(
    env: Env, order: Order, path: Path, keyKind: Kind, kind: Kind, d: map<Scalar, Value>, v: Lua,
    keys: seq<Key>, i: nat)
    requires v.Table? && ValidOrder(order) && forall k <- keys :: k in v.t
    requires AddEntries(env, order, path, keyKind, kind, d, v, keys).Some?
    requires i < |keys|
    requires forall j :: i < j < |keys| ==> PullKey(env.lib, keyKind, keys[j]) != PullKey(env.lib, keyKind, keys[i])
    ensures PullKey(env.lib, keyKind, keys[i]).Some?
    ensures var r := AddEntries(env, order, path, keyKind, kind, d, v, keys).value;
            var sc := PullKey(env.lib, keyKind, keys[i]).value;
            sc in r && NewValue(env, order, path + [keys[i]], kind, v.t[keys[i]]) == Some(r[sc])
    decreases |keys|
  {
    hide NewValue, PullKey, ValidOrder;
    var k, rest := keys[0], keys[1..];
    var sc := PullKey(env.lib, keyKind, k).value;
    var next := d[sc := NewValue(env, order, path + [k], kind, v.t[k]).value];
    if i == 0 {
      OtherKeysKeepTheValue(env, order, path, keyKind, kind, next, v, rest, sc);
    } else {
      LastKeyGivesTheValue(env, order, path, keyKind, kind, next, v, rest, i - 1);
    }
  }

  lemma {:induction false} OtherKeysKeepTheValue(
    env: Env, order: Order, path: Path, keyKind: Kind, kind: Kind, d: map<Scalar, Value>, v: Lua,
    keys: seq<Key>, sc: Scalar)
    requires v.Table? && ValidOrder(order) && forall k <- keys :: k in v.t
    requires AddEntries(env, order, path, keyKind, kind, d, v, keys).Some?
    requires sc in d && forall k <- keys :: PullKey(env.lib, keyKind, k) != Some(sc)
    ensures var r := AddEntries(env, order, path, keyKind, kind, d, v, keys).value;
            sc in r && r[sc] == d[sc]
    decreases |keys|
  {
    hide NewValue, PullKey, ValidOrder;
    if keys != [] {
      var k, rest := keys[0], keys[1..];
      var next := d[PullKey(env.lib, keyKind, k).value := NewValue(env, order, path + [k], kind, v.t[k]).value];
      assert forall j <- rest :: j in keys;
      OtherKeysKeepTheValue(env, order, path, keyKind, kind, next, v, rest, sc);
    }
  }

  // ---- What a part of the table contributes ----

  ghost predicate NoOneofClash(fs: Fields, t: map<Key, Lua>) {
    forall a, b :: KStr(a) in t && KStr(b) in t ==> !SharesOneof(fs, a, b)
  }

  /** Without a oneof clash a given field holds what its own value makes of the old content. */
  lemma FieldIsItsContent(env: Env, order: Order, path: Path, ty: string, m: Msg, v: Lua, n: string)
    requires v.Table? && ValidOrder(order) && NoOneofClash(FieldsOf(env.schema, ty), v.t)
    requires KStr(n) in v.t && n in FieldsOf(env.schema, ty)
    requires SetMsg(env, order, path, ty, m, v).Some?
    ensures var r := SetMsg(env, order, path, ty, m, v).value;
            n in r.fields &&
            SetContent(env, order, path + [KStr(n)], FieldsOf(env.schema, ty)[n], ContentAt(m, n), v.t[KStr(n)]) ==
            Some(r.fields[n])
  {
    hide SetContent, NoOneofClash;
    var keys := order(path, v.t);
    assert Distinct(keys) && forall k :: k in keys <==> k in v.t;
    FieldAfterKeys(env, order, path, ty, m, v, keys, n);
  }

  lemma {:induction false} FieldAfterKeys(
    env: Env, order: Order, path: Path, ty: string, m: Msg, v: Lua, keys: seq<Key>, n: string)
    requires v.Table? && ValidOrder(order) && NoOneofClash(FieldsOf(env.schema, ty), v.t)
    requires Distinct(keys) && forall k <- keys :: k in v.t
    requires KStr(n) in v.t && n in FieldsOf(env.schema, ty)
    requires SetKeys(env, order, path, ty, m, v, keys).Some?
    ensures var r := SetKeys(env, order, path, ty, m, v, keys).value;
            var f := FieldsOf(env.schema, ty)[n];
            if KStr(n) in keys then
              n in r.fields &&
              SetContent(env, order, path + [KStr(n)], f, ContentAt(m, n), v.t[KStr(n)]) == Some(r.fields[n])
            else ContentAt(r, n) == ContentAt(m, n)
    decreases |keys|
  {
    hide SetContent, ValidOrder;
    if keys != [] {
      var k, rest := keys[0], keys[1..];
      assert keys == [k] + rest;
      var next := if k.KStr? then SetField(env, order, path, ty, m, k.s, v.t[k]).value else m;
      if k.KStr? && k.s != n {
        assert k == KStr(k.s);
        assert ContentAt(next, n) == ContentAt(m, n);
      }
      FieldAfterKeys(env, order, path, ty, next, v, rest, n);
    }
  }

  lemma {:induction false} ElementIsItsValue(
    env: Env, order: Order, path: Path, kind: Kind, vs: seq<Value>, v: Lua, n: Size, i: LuaInt)
    requires v.Table? && ValidOrder(order) && 1 <= i <= n && KInt(i) in v.t
    requires AddElements(env, order, path, kind, vs, v, n).Some?
    ensures var r := AddElements(env, order, path, kind, vs, v, n).value;
            |r| == |vs| + n && NewValue(env, order, path + [KInt(i)], kind, v.t[KInt(i)]) == Some(r[|vs| + i - 1])
    decreases n
  {
    hide NewValue, ValidOrder;
    ElementsAreAppended(env, order, path, kind, vs, v, n - 1);
    if i < n {
      ElementIsItsValue(env, order, path, kind, vs, v, n - 1, i);
    }
  }

  lemma {:induction false} ElementsAreAppended(
    env: Env, order: Order, path: Path, kind: Kind, vs: seq<Value>, v: Lua, n: Size)
    requires v.Table? && ValidOrder(order) && AddElements(env, order, path, kind, vs, v, n).Some?
    ensures |AddElements(env, order, path, kind, vs, v, n).value| == |vs| + n
    decreases n
  {
    hide NewValue, ValidOrder;
    if n != 0 {
      ElementsAreAppended(env, order, path, kind, vs, v, n - 1);
    }
  }

  // ---- Two orders that differ ----

  function Without(keys: seq<Key>, k: Key): seq<Key> {
    if keys == [] then [] else (if keys[0] == k then [] else [keys[0]]) + Without(keys[1..], k)
  }

  lemma {:induction false} WithoutKeepsOthers(keys: seq<Key>, k: Key)
    requires Distinct(keys)
    ensures Distinct(Without(keys, k))
    ensures forall j :: j in Without(keys, k) <==> j in keys && j != k
  {
    if keys != [] {
      assert keys == [keys[0]] + keys[1..];
      WithoutKeepsOthers(keys[1..], k);
      assert keys[0] !in keys[1..];
    }
  }

  /** The same order, but the table at the path is left with k. */
  ghost function MoveLast(order: Order, path: Path, t: map<Key, Lua>, k: Key): Order {
    (p: Path, u: map<Key, Lua>) => if p == path && u == t then Without(order(p, u), k) + [k] else order(p, u)
  }

  lemma MoveLastIsAnOrder(order: Order, path: Path, t: map<Key, Lua>, k: Key)
    requires ValidOrder(order) && k in t
    ensures ValidOrder(MoveLast(order, path, t, k))
  {
    WithoutKeepsOthers(order(path, t), k);
  }

  /** The orders visit the tables on shorter paths alike. */
  ghost predicate AgreeAbove(path: Path, o1: Order, o2: Order) {
    forall p: Path, t: map<Key, Lua> :: |p| < |path| ==> o1(p, t) == o2(p, t)
  }

  /** An accepted ambiguous table gives two messages in two orders, which may be chosen alike above the table. */
  lemma DistinguishMsg(env: Env, base: Order, path: Path, ty: string, m: Msg, v: Lua) returns (o1: Order, o2: Order)
    requires v.Table? && ValidOrder(base) && Accepts(env, path, ty, v) && !Unambiguous(env, path, ty, v)
    ensures ValidOrder(o1) && ValidOrder(o2) && AgreeAbove(path, o1, base) && AgreeAbove(path, o2, base)
    ensures SetMsg(env, o1, path, ty, m, v) != SetMsg(env, o2, path, ty, m, v)
    decreases v, 3
  {
    hide ValidOrder, SetMsg, SetContent, AcceptsContent, UnambiguousContent;
    var fs := FieldsOf(env.schema, ty);
    if !NoOneofClash(fs, v.t) {
      var a, b :| KStr(a) in v.t && KStr(b) in v.t && SharesOneof(fs, a, b);
      o1, o2 := MoveLast(base, path, v.t, KStr(a)), MoveLast(base, path, v.t, KStr(b));
      OneofClashDistinguishes(env, base, path, ty, m, v, a, b);
    } else {
      var k :| k in v.t && k.KStr? && !UnambiguousContent(env, path + [k], fs[k.s], v.t[k]);
      assert k == KStr(k.s);
      var prev := ContentAt(m, k.s);
      o1, o2 := DistinguishContent(env, base, path + [k], fs[k.s], prev, v.t[k]);
      SetMsgSucceedsIff(env, o1, path, ty, m, v);
      SetMsgSucceedsIff(env, o2, path, ty, m, v);
      FieldIsItsContent(env, o1, path, ty, m, v, k.s);
      FieldIsItsContent(env, o2, path, ty, m, v, k.s);
    }
  }

  /** Two given members of one oneof: the orders that end in the one and in the other differ. */
  lemma OneofClashDistinguishes(
    env: Env, base: Order, path: Path, ty: string, m: Msg, v: Lua, a: string, b: string)
    requires v.Table? && ValidOrder(base) && Accepts(env, path, ty, v)
    requires KStr(a) in v.t && KStr(b) in v.t && SharesOneof(FieldsOf(env.schema, ty), a, b)
    ensures var o1 := MoveLast(base, path, v.t, KStr(a));
            var o2 := MoveLast(base, path, v.t, KStr(b));
            && ValidOrder(o1) && ValidOrder(o2) && AgreeAbove(path, o1, base) && AgreeAbove(path, o2, base)
            && SetMsg(env, o1, path, ty, m, v) != SetMsg(env, o2, path, ty, m, v)
  {
    hide ValidOrder, Accepts;
    LastMemberIsKept(env, base, path, ty, m, v, a);
    LastMemberIsKept(env, base, path, ty, m, v, b);
  }

  lemma LastMemberIsKept(env: Env, base: Order, path: Path, ty: string, m: Msg, v: Lua, a: string)
    requires v.Table? && ValidOrder(base) && Accepts(env, path, ty, v) && KStr(a) in v.t
    ensures var order := MoveLast(base, path, v.t, KStr(a));
            && ValidOrder(order) && SetMsg(env, order, path, ty, m, v).Some?
            && var r := SetMsg(env, order, path, ty, m, v).value;
               a in r.fields && forall b <- r.fields :: !SharesOneof(FieldsOf(env.schema, ty), b, a)
  {
    hide Accepts;
    var order := MoveLast(base, path, v.t, KStr(a));
    MoveLastIsAnOrder(base, path, v.t, KStr(a));
    SetMsgSucceedsIff(env, order, path, ty, m, v);
    var keys := order(path, v.t);
    assert keys[|keys| - 1] == KStr(a);
    LastOneofMemberWins(env, order, path, ty, m, v, keys, |keys| - 1);
  }

  lemma OnlyMessagesAreAmbiguous(env: Env, path: Path, kind: Kind, v: Lua)
    requires AcceptsValue(env, path, kind, v) && !UnambiguousValue(env, path, kind, v)
    ensures kind.MessageK? && v.Table? && Accepts(env, path, kind.typ, v) && !Unambiguous(env, path, kind.typ, v)
  {
  }

  lemma DistinguishContent(
    env: Env, base: Order, path: Path, f: Field, prev: Option<Content>, v: Lua) returns (o1: Order, o2: Order)
    requires ValidOrder(base) && AcceptsContent(env, path, f, v) && !UnambiguousContent(env, path, f, v)
    ensures ValidOrder(o1) && ValidOrder(o2) && AgreeAbove(path, o1, base) && AgreeAbove(path, o2, base)
    ensures SetContent(env, o1, path, f, prev, v) != SetContent(env, o2, path, f, prev, v)
    decreases v, 5
  {
    hide ValidOrder, SetMsg;
    match f.shape
    case Singular =>
      OnlyMessagesAreAmbiguous(env, path, f.kind, v);
      o1, o2 := DistinguishMsg(env, base, path, f.kind.typ, OldSub(env, f.kind.typ, prev), v);
    case Repeated =>
      o1, o2 := DistinguishElements(env, base, path, f, prev, v);
    case MapOf(_) =>
      o1, o2 := DistinguishEntries(env, base, path, f, prev, v);
  }

  lemma DistinguishElements(
    env: Env, base: Order, path: Path, f: Field, prev: Option<Content>, v: Lua) returns (o1: Order, o2: Order)
    requires f.shape.Repeated?
    requires ValidOrder(base) && AcceptsContent(env, path, f, v) && !UnambiguousContent(env, path, f, v)
    ensures ValidOrder(o1) && ValidOrder(o2) && AgreeAbove(path, o1, base) && AgreeAbove(path, o2, base)
    ensures SetContent(env, o1, path, f, prev, v) != SetContent(env, o2, path, f, prev, v)
    decreases v, 4
  {
    hide ValidOrder, NewValue, AddElements, AcceptsValue, UnambiguousValue;
    var n := ElementCount(env.len(path, v.t));
    var vs := OldElements(prev);
    var k :| k in v.t && k.KInt? && 1 <= k.i <= n && !UnambiguousValue(env, path + [k], f.kind, v.t[k]);
    assert k == KInt(k.i);
    o1, o2 := DistinguishValue(env, base, path + [k], f.kind, v.t[k]);
    AddElementsSucceedsIff(env, o1, path, f.kind, vs, v, n);
    AddElementsSucceedsIff(env, o2, path, f.kind, vs, v, n);
    ElementIsItsValue(env, o1, path, f.kind, vs, v, n, k.i);
    ElementIsItsValue(env, o2, path, f.kind, vs, v, n, k.i);
  }

  lemma DistinguishEntries(
    env: Env, base: Order, path: Path, f: Field, prev: Option<Content>, v: Lua) returns (o1: Order, o2: Order)
    requires f.shape.MapOf?
    requires ValidOrder(base) && AcceptsContent(env, path, f, v) && !UnambiguousContent(env, path, f, v)
    ensures ValidOrder(o1) && ValidOrder(o2) && AgreeAbove(path, o1, base) && AgreeAbove(path, o2, base)
    ensures SetContent(env, o1, path, f, prev, v) != SetContent(env, o2, path, f, prev, v)
    decreases v, 4
  {
    hide ValidOrder, NewValue, AddEntries, EncodeValue, AcceptsValue, UnambiguousValue, PullKey;
    var keyKind := f.shape.key;
    if forall k <- v.t :: UnambiguousValue(env, path + [k], f.kind, v.t[k]) {
      var a, b :| a in v.t && b in v.t && PullKey(env.lib, keyKind, a) == PullKey(env.lib, keyKind, b) != None &&
        EncodeValue(env, path + [a], f.kind, v.t[a]) != EncodeValue(env, path + [b], f.kind, v.t[b]);
      o1, o2 := MoveLast(base, path, v.t, a), MoveLast(base, path, v.t, b);
      MoveLastIsAnOrder(base, path, v.t, a);
      MoveLastIsAnOrder(base, path, v.t, b);
      LastEntryIsKept(env, base, path, f, prev, v, a, o1);
      LastEntryIsKept(env, base, path, f, prev, v, b, o2);
      NewValueIsEncode(env, o1, path + [a], f.kind, v.t[a]);
      NewValueIsEncode(env, o2, path + [b], f.kind, v.t[b]);
    } else {
      var k :| k in v.t && !UnambiguousValue(env, path + [k], f.kind, v.t[k]);
      var last := MoveLast(base, path, v.t, k);
      MoveLastIsAnOrder(base, path, v.t, k);
      o1, o2 := DistinguishValue(env, last, path + [k], f.kind, v.t[k]);
      LastEntryIsKept(env, base, path, f, prev, v, k, o1);
      LastEntryIsKept(env, base, path, f, prev, v, k, o2);
    }
  }

  /** Under an order that leaves the table with k, the entry of k is the value k carries. */
  lemma LastEntryIsKept(
    env: Env, base: Order, path: Path, f: Field, prev: Option<Content>, v: Lua, k: Key, order: Order)
    requires f.shape.MapOf? && ValidOrder(base) && ValidOrder(order) && AcceptsContent(env, path, f, v) && k in v.t
    requires order(path, v.t) == MoveLast(base, path, v.t, k)(path, v.t)
    ensures PullKey(env.lib, f.shape.key, k).Some?
    ensures var r := SetContent(env, order, path, f, prev, v);
            var sc := PullKey(env.lib, f.shape.key, k).value;
            && r.Some? && r.value.Dict? && sc in r.value.d
            && NewValue(env, order, path + [k], f.kind, v.t[k]) == Some(r.value.d[sc])
  {
    hide NewValue, AcceptsValue, PullKey, AddEntries;
    var keys := order(path, v.t);
    assert keys[|keys| - 1] == k;
    AddEntriesSucceedsIff(env, order, path, f.shape.key, f.kind, OldEntries(prev), v, keys);
    LastKeyGivesTheValue(env, order, path, f.shape.key, f.kind, OldEntries(prev), v, keys, |keys| - 1);
  }

  lemma DistinguishValue(env: Env, base: Order, path: Path, kind: Kind, v: Lua) returns (o1: Order, o2: Order)
    requires ValidOrder(base) && AcceptsValue(env, path, kind, v) && !UnambiguousValue(env, path, kind, v)
    ensures ValidOrder(o1) && ValidOrder(o2) && AgreeAbove(path, o1, base) && AgreeAbove(path, o2, base)
    ensures NewValue(env, o1, path, kind, v) != NewValue(env, o2, path, kind, v)
    decreases v, 4
  {
    hide ValidOrder, SetMsg;
    OnlyMessagesAreAmbiguous(env, path, kind, v);
    o1, o2 := DistinguishMsg(env, base, path, kind.typ, Fresh(env.schema, kind.typ), v);
  }

  ghost function Enumeration(keys: set<Key>): (ks: seq<Key>)
    ensures Distinct(ks) && forall k :: k in ks <==> k in keys
  {
    if keys == {} then []
    else
      var k :| k in keys;
      [k] + Enumeration(keys - {k})
  }

  lemma SomeOrder() returns (order: Order)
    ensures ValidOrder(order)
  {
    order := (path, t: map<Key, Lua>) => Enumeration(t.Keys);
  }

  /** Every order gives the same result exactly when the table is refused or unambiguous. */
  lemma OrderDoesNotMatterIff(env: Env, path: Path, ty: string, m: Msg, v: Lua)
    requires v.Table?
    ensures (forall o1: Order, o2: Order :: ValidOrder(o1) && ValidOrder(o2) ==>
               SetMsg(env, o1, path, ty, m, v) == SetMsg(env, o2, path, ty, m, v)) <==>
            (Accepts(env, path, ty, v) ==> Unambiguous(env, path, ty, v))
  {
    hide ValidOrder, SetMsg, Accepts, Unambiguous;
    if Accepts(env, path, ty, v) && !Unambiguous(env, path, ty, v) {
      var base := SomeOrder();
      var o1, o2 := DistinguishMsg(env, base, path, ty, m, v);
    } else {
      forall o1: Order, o2: Order | ValidOrder(o1) && ValidOrder(o2)
        ensures SetMsg(env, o1, path, ty, m, v) == SetMsg(env, o2, path, ty, m, v)
      {
        OrderDoesNotMatter(env, o1, o2, path, ty, m, v);
      }
    }
  }

  lemma OrderDoesNotMatter(env: Env, o1: Order, o2: Order, path: Path, ty: string, m: Msg, v: Lua)
    requires v.Table? && ValidOrder(o1) && ValidOrder(o2)
    requires Accepts(env, path, ty, v) ==> Unambiguous(env, path, ty, v)
    ensures SetMsg(env, o1, path, ty, m, v) == SetMsg(env, o2, path, ty, m, v)
  {
    if Accepts(env, path, ty, v) {
      SetMsgIsEncode(env, o1, path, ty, m, v);
      SetMsgIsEncode(env, o2, path, ty, m, v);
    } else {
      SetMsgSucceedsIff(env, o1, path, ty, m, v);
      SetMsgSucceedsIff(env, o2, path, ty, m, v);
    }
  }
}
