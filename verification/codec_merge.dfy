/**
 What MessageSetter does with what the message held before: fields that are not
 given stay, unless another member of their oneof is given; repeated fields
 grow, maps are updated, sub-messages are filled in place.
 */
module CodecMerge {
  import opened Common
  import opened CodecValues
  import opened CodecEncode
  import opened CodecOrder

  // ---- Fields that are not given ----

  /** The table gives a member of the oneof of n. */
  ghost predicate OneofIsGiven(fs: Fields, t: map<Key, Lua>, n: string) {
    exists g :: KStr(g) in t && SharesOneof(fs, n, g)
  }

  lemma UngivenField(env: Env, order: Order, path: Path, ty: string, m: Msg, v: Lua, n: string)
    requires v.Table? && ValidOrder(order) && NoOneofClash(FieldsOf(env.schema, ty), v.t)
    requires SetMsg(env, order, path, ty, m, v).Some? && KStr(n) !in v.t
    ensures ContentAt(SetMsg(env, order, path, ty, m, v).value, n) ==
            if OneofIsGiven(FieldsOf(env.schema, ty), v.t, n) then None else ContentAt(m, n)
  {
    var fs, keys := FieldsOf(env.schema, ty), order(path, v.t);
    assert forall k :: k in keys <==> k in v.t;
    if OneofIsGiven(fs, v.t, n) {
      var g :| KStr(g) in v.t && SharesOneof(fs, n, g);
      var i :| 0 <= i < |keys| && keys[i] == KStr(g);
      GivenAlone(fs, v.t, keys, i);
      hide SharesOneof, SetKeys;
      LastOneofMemberWins(env, order, path, ty, m, v, keys, i);
    } else {
      UntouchedField(env, order, path, ty, m, v, keys, n);
    }
  }

  lemma GivenAlone(fs: Fields, t: map<Key, Lua>, keys: seq<Key>, i: nat)
    requires i < |keys| && keys[i].KStr? && NoOneofClash(fs, t) && forall k <- keys :: k in t
    ensures LastOfItsOneof(fs, keys, i)
  {
    hide SharesOneof;
    forall j | i < j < |keys| && keys[j].KStr?
      ensures !SharesOneof(fs, keys[i].s, keys[j].s)
    {
      assert keys[i] == KStr(keys[i].s) && keys[j] == KStr(keys[j].s);
    }
  }

  lemma {:induction false} UntouchedField(
    env: Env, order: Order, path: Path, ty: string, m: Msg, v: Lua, keys: seq<Key>, n: string)
    requires v.Table? && ValidOrder(order) && forall k <- keys :: k in v.t
    requires SetKeys(env, order, path, ty, m, v, keys).Some?
    requires KStr(n) !in keys && forall k <- keys :: k.KStr? ==> !SharesOneof(FieldsOf(env.schema, ty), n, k.s)
    ensures ContentAt(SetKeys(env, order, path, ty, m, v, keys).value, n) == ContentAt(m, n)
    decreases |keys|
  {
    hide SetContent, ValidOrder;
    if keys != [] {
      var k, rest := keys[0], keys[1..];
      var next := if k.KStr? then SetField(env, order, path, ty, m, k.s, v.t[k]).value else m;
      assert forall j <- rest :: j in keys;
      if k.KStr? {
        assert k == KStr(k.s);
      }
      UntouchedField(env, order, path, ty, next, v, rest, n);
    }
  }

  // ---- Fields that are given ----

  lemma {:induction false} ElementsFollow(
    env: Env, order: Order, path: Path, kind: Kind, vs: seq<Value>, v: Lua, n: Size)
    requires v.Table? && ValidOrder(order)
    ensures var r := AddElements(env, order, path, kind, [], v, n);
            AddElements(env, order, path, kind, vs, v, n) == if r.Some? then Some(vs + r.value) else None
    decreases n
  {
    hide NewValue, ValidOrder;
    if n == 0 {
      assert vs + [] == vs;
    } else {
      ElementsFollow(env, order, path, kind, vs, v, n - 1);
      var us := AddElements(env, order, path, kind, [], v, n - 1);
      assert us.Some? ==> forall u :: vs + us.value + [u] == vs + (us.value + [u]);
    }
  }

  lemma UpdateLater<K, V>(d: map<K, V>, e: map<K, V>, k: K, v: V)
    ensures (d + e)[k := v] == d + e[k := v]
  {
  }

  lemma {:induction false} EntriesOverride(
    env: Env, order: Order, path: Path, keyKind: Kind, kind: Kind, d: map<Scalar, Value>, e: map<Scalar, Value>,
    v: Lua, keys: seq<Key>)
    requires v.Table? && ValidOrder(order) && forall k <- keys :: k in v.t
    ensures var r := AddEntries(env, order, path, keyKind, kind, e, v, keys);
            AddEntries(env, order, path, keyKind, kind, d + e, v, keys) ==
            if r.Some? then Some(d + r.value) else None
    decreases |keys|
  {
    hide NewValue, PullKey, ValidOrder;
    if keys != [] {
      var key := PullKey(env.lib, keyKind, keys[0]);
      var value := NewValue(env, order, path + [keys[0]], kind, v.t[keys[0]]);
      if key.Some? && value.Some? {
        UpdateLater(d, e, key.value, value.value);
        EntriesOverride(env, order, path, keyKind, kind, d, e[key.value := value.value], v, keys[1..]);
      }
    }
  }

  /** The elements, entries or sub-message that a message holds in a field. */
  function Elements(c: Option<Content>): seq<Value> {
    match c
    case Some(Many(vs)) => vs
    case _ => []
  }

  function Entries(c: Option<Content>): map<Scalar, Value> {
    match c
    case Some(Dict(d)) => d
    case _ => map[]
  }

  function SubMessage(env: Env, ty: string, c: Option<Content>): Msg {
    match c
    case Some(One(Sub(m))) => m
    case _ => Fresh(env.schema, ty)
  }

  /**
   A given field, in any order: the new elements follow the old ones, the new
   entries override the old ones of the same key, a sub-message is filled in
   place, a scalar is replaced; new is what the table makes of a new message.
   */
  lemma GivenField(env: Env, order: Order, path: Path, ty: string, m: Msg, v: Lua, n: string)
    requires v.Table? && ValidOrder(order) && NoOneofClash(FieldsOf(env.schema, ty), v.t)
    requires SetMsg(env, order, path, ty, m, v).Some?
    requires KStr(n) in v.t && n in FieldsOf(env.schema, ty)
    ensures SetMsg(env, order, path, ty, Fresh(env.schema, ty), v).Some?
    ensures var f := FieldsOf(env.schema, ty)[n];
            var was, now := ContentAt(m, n), ContentAt(SetMsg(env, order, path, ty, m, v).value, n);
            var made := ContentAt(SetMsg(env, order, path, ty, Fresh(env.schema, ty), v).value, n);
            match f.shape
            case Repeated => now == Some(Many(Elements(was) + Elements(made)))
            case MapOf(_) => now == Some(Dict(Entries(was) + Entries(made)))
            case Singular =>
              if !f.kind.MessageK? then now == made && now.Some?
              else
                && v.t[KStr(n)].Table? && now.Some? && now.value.One? && now.value.v.Sub?
                && SetMsg(env, order, path + [KStr(n)], f.kind.typ, SubMessage(env, f.kind.typ, was), v.t[KStr(n)]) ==
                   Some(now.value.v.m)
  {
    hide ValidOrder, NoOneofClash, SetMsg, AddElements, AddEntries;
    var f, blank, w, here := FieldsOf(env.schema, ty)[n], Fresh(env.schema, ty), v.t[KStr(n)], path + [KStr(n)];
    SetMsgSucceedsIff(env, order, path, ty, m, v);
    SetMsgSucceedsIff(env, order, path, ty, blank, v);
    FieldIsItsContent(env, order, path, ty, m, v, n);
    FieldIsItsContent(env, order, path, ty, blank, v, n);
    match f.shape
    case Singular =>
    case Repeated =>
      NothingYet(env.schema, ty, n);
      ElementsFollow(env, order, here, f.kind, Elements(ContentAt(m, n)), w, ElementCount(env.len(here, w.t)));
    case MapOf(keyKind) =>
      NothingYet(env.schema, ty, n);
      var keys := order(here, w.t);
      assert forall k <- keys :: k in w.t by {
        OrderVisits(order, here, w.t);
      }
      var d := Entries(ContentAt(m, n));
      assert d + map[] == d;
      EntriesOverride(env, order, here, keyKind, f.kind, d, map[], w, keys);
  }

  lemma OrderVisits(order: Order, path: Path, t: map<Key, Lua>)
    requires ValidOrder(order)
    ensures forall k :: k in order(path, t) <==> k in t
  {
  }

  lemma NothingYet(schema: Schema, ty: string, n: string)
    requires n in FieldsOf(schema, ty) && !FieldsOf(schema, ty)[n].shape.Singular?
    ensures Elements(ContentAt(Fresh(schema, ty), n)) == [] && Entries(ContentAt(Fresh(schema, ty), n)) == map[]
  {
  }
}
