/**
 What a table means as a message, with no order in it: the reference for
 MessageSetter. Every string key must name a field and its value must convert;
 the result holds the converted fields, and of the old ones those that were not
 given and whose oneof was not given.
 */
module CodecReference {
  import opened Common
  import opened CodecValues
  import opened CodecEncode

  // ---- The reference ----

  ghost function Encode(env: Env, path: Path, ty: string, m: Msg, v: Lua): Option<Msg>
    requires v.Table?
    decreases v, 3, 0
  {
    var fs := FieldsOf(env.schema, ty);
    if AllEncode(env, path, fs, m, v, v.t.Keys) then
      Some(Merge(fs, m, Contents(env, path, fs, m, v, v.t.Keys)))
    else None
  }

  /** Each string key among keys names a field that takes its value. */
  ghost predicate AllEncode(env: Env, path: Path, fs: Fields, m: Msg, v: Lua, keys: set<Key>)
    requires v.Table? && keys <= v.t.Keys
    decreases v, 2, 0
  {
    forall k <- keys :: k.KStr? ==>
      k.s in fs && EncodeContent(env, path + [k], fs[k.s], ContentAt(m, k.s), v.t[k]).Some?
  }

  ghost function Contents(
    env: Env, path: Path, fs: Fields, m: Msg, v: Lua, keys: set<Key>): map<string, Content>
    requires v.Table? && keys <= v.t.Keys && AllEncode(env, path, fs, m, v, keys)
    decreases v, 2, 1
  {
    map k | k in keys && k.KStr? ::
      k.s := EncodeContent(env, path + [k], fs[k.s], ContentAt(m, k.s), v.t[k]).value
  }

  ghost function Merge(fs: Fields, m: Msg, given: map<string, Content>): Msg {
    Msg((map n | n in m.fields && !Displaced(fs, given, n) :: m.fields[n]) + given)
  }

  ghost predicate Displaced(fs: Fields, given: map<string, Content>, n: string) {
    exists g <- given :: SharesOneof(fs, n, g)
  }

  ghost function EncodeContent(env: Env, path: Path, f: Field, prev: Option<Content>, v: Lua): Option<Content>
    decreases v, 5, 0
  {
    match f.shape
    case Singular =>
      if f.kind.MessageK? then
        if !v.Table? then None
        else
          match Encode(env, path, f.kind.typ, OldSub(env, f.kind.typ, prev), v)
          case None => None
          case Some(m) => Some(One(Sub(m)))
      else (match Pull(env.lib, f.kind, v) case None => None case Some(sc) => Some(One(Sc(sc))))
    case Repeated =>
      if !v.Table? then None
      else
        (match EncodeElements(env, path, f.kind, v, ElementCount(env.len(path, v.t)))
         case None => None
         case Some(vs) => Some(Many(OldElements(prev) + vs)))
    case MapOf(keyKind) =>
      if v.Table? && AllEntries(env, path, keyKind, f.kind, v, v.t.Keys) then
        Some(Dict(OldEntries(prev) + Rekey(env.lib, keyKind, Values(env, path, f.kind, v, v.t.Keys))))
      else None
  }

  ghost function EncodeElements(env: Env, path: Path, kind: Kind, v: Lua, n: Size): Option<seq<Value>>
    requires v.Table?
    decreases v, 2, n
  {
    if n == 0 then Some([])
    else
      match EncodeElements(env, path, kind, v, n - 1)
      case None => None
      case Some(us) =>
        match (if KInt(n) in v.t then EncodeValue(env, path + [KInt(n)], kind, v.t[KInt(n)])
               else FromNil(env.lib, kind))
        case None => None
        case Some(u) => Some(us + [u])
  }

  ghost predicate AllEntries(env: Env, path: Path, keyKind: Kind, kind: Kind, v: Lua, keys: set<Key>)
    requires v.Table? && keys <= v.t.Keys
    decreases v, 2, 0
  {
    forall k <- keys :: PullKey(env.lib, keyKind, k).Some? && EncodeValue(env, path + [k], kind, v.t[k]).Some?
  }

  ghost function Values(env: Env, path: Path, kind: Kind, v: Lua, keys: set<Key>): map<Key, Value>
    requires v.Table? && keys <= v.t.Keys
    requires forall k <- keys :: EncodeValue(env, path + [k], kind, v.t[k]).Some?
    decreases v, 2, 1
  {
    map k | k in keys :: EncodeValue(env, path + [k], kind, v.t[k]).value
  }

  /** The same map with every key converted; of two keys that convert alike one wins. */
  ghost function Rekey(lib: LuaLib, keyKind: Kind, vs: map<Key, Value>): map<Scalar, Value>
    requires forall k <- vs :: PullKey(lib, keyKind, k).Some?
  {
    map sc | sc in PulledKeys(lib, keyKind, vs.Keys) :: vs[KeyFor(lib, keyKind, vs.Keys, sc)]
  }

  ghost function PulledKeys(lib: LuaLib, keyKind: Kind, keys: set<Key>): set<Scalar>
    requires forall k <- keys :: PullKey(lib, keyKind, k).Some?
  {
    set k | k in keys :: PullKey(lib, keyKind, k).value
  }

  /** A key that converts to sc. */
  ghost function KeyFor(lib: LuaLib, keyKind: Kind, keys: set<Key>, sc: Scalar): (k: Key)
    requires exists k <- keys :: PullKey(lib, keyKind, k) == Some(sc)
    ensures k in keys && PullKey(lib, keyKind, k) == Some(sc)
  {
    var k :| k in keys && PullKey(lib, keyKind, k) == Some(sc);
    k
  }

  ghost function EncodeValue(env: Env, path: Path, kind: Kind, v: Lua): Option<Value>
    decreases v, 5, 0
  {
    if kind.MessageK? then
      if !v.Table? then None
      else
        match Encode(env, path, kind.typ, Fresh(env.schema, kind.typ), v)
        case None => None
        case Some(m) => Some(Sub(m))
    else
      match Pull(env.lib, kind, v)
      case None => None
      case Some(sc) => Some(Sc(sc))
  }

  // ---- Tables whose meaning does not depend on an order ----

  /**
   At most one member of each oneof is given, and map keys that convert to the
   same key carry values that convert to the same value.
   */
  ghost predicate Unambiguous(env: Env, path: Path, ty: string, v: Lua)
    decreases v, 3
  {
    var fs := FieldsOf(env.schema, ty);
    v.Table? ==>
      && (forall a, b :: KStr(a) in v.t && KStr(b) in v.t ==> !SharesOneof(fs, a, b))
      && (forall k <- v.t :: k.KStr? && k.s in fs ==> UnambiguousContent(env, path + [k], fs[k.s], v.t[k]))
  }

  ghost predicate UnambiguousContent(env: Env, path: Path, f: Field, v: Lua)
    decreases v, 5
  {
    match f.shape
    case Singular => UnambiguousValue(env, path, f.kind, v)
    case Repeated =>
      v.Table? ==> forall k <- v.t ::
        k.KInt? && 1 <= k.i <= ElementCount(env.len(path, v.t)) ==> UnambiguousValue(env, path + [k], f.kind, v.t[k])
    case MapOf(keyKind) =>
      v.Table? ==>
        && Consistent(env, path, keyKind, f.kind, v)
        && forall k <- v.t :: UnambiguousValue(env, path + [k], f.kind, v.t[k])
  }

  ghost predicate UnambiguousValue(env: Env, path: Path, kind: Kind, v: Lua)
    decreases v, 4
  {
    kind.MessageK? ==> Unambiguous(env, path, kind.typ, v)
  }

  /** Keys of a map field that convert alike have values that convert alike. */
  ghost predicate Consistent(env: Env, path: Path, keyKind: Kind, kind: Kind, v: Lua)
    requires v.Table?
  {
    forall a <- v.t, b <- v.t :: PullKey(env.lib, keyKind, a) == PullKey(env.lib, keyKind, b) != None ==>
      EncodeValue(env, path + [a], kind, v.t[a]) == EncodeValue(env, path + [b], kind, v.t[b])
  }

  // ---- The walk computes the reference ----

  ghost function KeySet(keys: seq<Key>): set<Key> {
    set k | k in keys
  }

  lemma KeySetCons(keys: seq<Key>)
    requires keys != []
    ensures KeySet(keys) == {keys[0]} + KeySet(keys[1..])
  {
    assert keys == [keys[0]] + keys[1..];
  }

  lemma SetMsgIsEncode(env: Env, order: Order, path: Path, ty: string, m: Msg, v: Lua)
    requires v.Table? && ValidOrder(order) && Unambiguous(env, path, ty, v)
    ensures SetMsg(env, order, path, ty, m, v) == Encode(env, path, ty, m, v)
    decreases v, 3, 0
  {
    var keys := order(path, v.t);
    assert Distinct(keys) && KeySet(keys) == v.t.Keys;
    SetKeysIsEncode(env, order, path, ty, m, v, keys);
  }

  /** The fields given by some of the keys, merged into m. */
  ghost function EncodeKeys(env: Env, path: Path, fs: Fields, m: Msg, v: Lua, keys: set<Key>): Option<Msg>
    requires v.Table? && keys <= v.t.Keys
  {
    if AllEncode(env, path, fs, m, v, keys) then Some(Merge(fs, m, Contents(env, path, fs, m, v, keys))) else None
  }

  lemma {:induction false} SetKeysIsEncode(
    env: Env, order: Order, path: Path, ty: string, m: Msg, v: Lua, keys: seq<Key>)
    requires v.Table? && ValidOrder(order) && Unambiguous(env, path, ty, v)
    requires Distinct(keys) && KeySet(keys) <= v.t.Keys
    ensures SetKeys(env, order, path, ty, m, v, keys) ==
            EncodeKeys(env, path, FieldsOf(env.schema, ty), m, v, KeySet(keys))
    decreases v, 2, |keys|
  {
    hide EncodeKeys, EncodeContent, SetContent, UnambiguousContent, Put;
    var fs := FieldsOf(env.schema, ty);
    if keys == [] {
      NoKeys(env, path, fs, m, v);
      assert KeySet(keys) == {};
    } else {
      var k := keys[0];
      KeySetCons(keys);
      if !k.KStr? {
        SetKeysIsEncode(env, order, path, ty, m, v, keys[1..]);
        SkipKey(env, path, fs, m, v, KeySet(keys[1..]), k);
      } else if k.s in fs {
        SetContentIsEncode(env, order, path + [k], fs[k.s], ContentAt(m, k.s), v.t[k]);
        var c := EncodeContent(env, path + [k], fs[k.s], ContentAt(m, k.s), v.t[k]);
        assert k == KStr(k.s);
        if c.Some? {
          var p := Put(fs, m, k.s, c.value);
          assert SetKeys(env, order, path, ty, m, v, keys) == SetKeys(env, order, path, ty, p, v, keys[1..]);
          SetKeysIsEncode(env, order, path, ty, p, v, keys[1..]);
          TakeKey(env, path, fs, m, v, KeySet(keys[1..]), k);
        } else {
          RefuseKey(env, path, fs, m, v, KeySet(keys), k);
        }
      } else {
        RefuseKey(env, path, fs, m, v, KeySet(keys), k);
      }
    }
  }

  lemma NoKeys(env: Env, path: Path, fs: Fields, m: Msg, v: Lua)
    requires v.Table?
    ensures EncodeKeys(env, path, fs, m, v, {}) == Some(m)
  {
    assert Contents(env, path, fs, m, v, {}) == map[];
    assert Merge(fs, m, map[]).fields == m.fields;
  }

  lemma RefuseKey(env: Env, path: Path, fs: Fields, m: Msg, v: Lua, keys: set<Key>, k: Key)
    requires v.Table? && keys <= v.t.Keys && k in keys && k.KStr?
    requires k.s in fs ==> EncodeContent(env, path + [k], fs[k.s], ContentAt(m, k.s), v.t[k]).None?
    ensures EncodeKeys(env, path, fs, m, v, keys).None?
  {
  }

  lemma SkipKey(env: Env, path: Path, fs: Fields, m: Msg, v: Lua, rest: set<Key>, k: Key)
    requires v.Table? && rest <= v.t.Keys && k in v.t && !k.KStr?
    ensures EncodeKeys(env, path, fs, m, v, {k} + rest) == EncodeKeys(env, path, fs, m, v, rest)
  {
    if AllEncode(env, path, fs, m, v, rest) {
      assert Contents(env, path, fs, m, v, {k} + rest) == Contents(env, path, fs, m, v, rest);
    }
  }

  /** Taking one key first and the others after it is taking all of them. */
  lemma TakeKey(env: Env, path: Path, fs: Fields, m: Msg, v: Lua, rest: set<Key>, k: Key)
    requires v.Table? && rest <= v.t.Keys && k in v.t && k !in rest && k.KStr? && k.s in fs
    requires forall a, b :: KStr(a) in v.t && KStr(b) in v.t ==> !SharesOneof(fs, a, b)
    requires EncodeContent(env, path + [k], fs[k.s], ContentAt(m, k.s), v.t[k]).Some?
    ensures var c := EncodeContent(env, path + [k], fs[k.s], ContentAt(m, k.s), v.t[k]).value;
            EncodeKeys(env, path, fs, Put(fs, m, k.s, c), v, rest) == EncodeKeys(env, path, fs, m, v, {k} + rest)
  {
    var c := EncodeContent(env, path + [k], fs[k.s], ContentAt(m, k.s), v.t[k]).value;
    var p := Put(fs, m, k.s, c);
    forall j <- rest | j.KStr?
      ensures ContentAt(p, j.s) == ContentAt(m, j.s)
    {
      assert j == KStr(j.s) && k == KStr(k.s);
      assert !SharesOneof(fs, j.s, k.s);
    }
    if AllEncode(env, path, fs, p, v, rest) {
      var given := Contents(env, path, fs, p, v, rest);
      assert Contents(env, path, fs, m, v, {k} + rest) == given[k.s := c];
      MergePut(fs, m, k.s, c, given);
    }
  }

  lemma MergePut(fs: Fields, m: Msg, name: string, c: Content, given: map<string, Content>)
    requires name in fs && name !in given
    requires forall g <- given :: !SharesOneof(fs, name, g)
    ensures Merge(fs, Put(fs, m, name, c), given) == Merge(fs, m, given[name := c])
  {
    var p := Put(fs, m, name, c);
    var l, r := Merge(fs, p, given).fields, Merge(fs, m, given[name := c]).fields;
    assert !Displaced(fs, given, name);
    hide Displaced, SharesOneof;
    forall n
      ensures n in l <==> n in r
      ensures n in l ==> l[n] == r[n]
    {
      DisplacedCons(fs, given, name, c, n);
    }
    assert l == r;
  }

  lemma DisplacedCons(fs: Fields, given: map<string, Content>, name: string, c: Content, n: string)
    ensures Displaced(fs, given[name := c], n) <==> Displaced(fs, given, n) || SharesOneof(fs, n, name)
  {
    hide SharesOneof;
    assert name in given[name := c];
    assert forall g <- given :: g in given[name := c];
  }

  lemma SetContentIsEncode(env: Env, order: Order, path: Path, f: Field, prev: Option<Content>, v: Lua)
    requires ValidOrder(order) && UnambiguousContent(env, path, f, v)
    ensures SetContent(env, order, path, f, prev, v) == EncodeContent(env, path, f, prev, v)
    decreases v, 5, 0
  {
    match f.shape
    case Singular =>
      if f.kind.MessageK? && v.Table? {
        SetMsgIsEncode(env, order, path, f.kind.typ, OldSub(env, f.kind.typ, prev), v);
      }
    case Repeated =>
      if v.Table? {
        AddElementsIsEncode(env, order, path, f.kind, OldElements(prev), v, ElementCount(env.len(path, v.t)));
      }
    case MapOf(keyKind) =>
      if v.Table? {
        var keys := order(path, v.t);
        assert Distinct(keys) && KeySet(keys) == v.t.Keys;
        AddEntriesIsEncode(env, order, path, keyKind, f.kind, OldEntries(prev), v, keys);
      }
  }

  lemma {:induction false} AddElementsIsEncode(
    env: Env, order: Order, path: Path, kind: Kind, vs: seq<Value>, v: Lua, n: Size)
    requires v.Table? && ValidOrder(order)
    requires forall k <- v.t :: k.KInt? && 1 <= k.i <= n ==> UnambiguousValue(env, path + [k], kind, v.t[k])
    ensures AddElements(env, order, path, kind, vs, v, n) ==
            match EncodeElements(env, path, kind, v, n) case None => None case Some(us) => Some(vs + us)
    decreases v, 2, n
  {
    if n == 0 {
      assert vs + [] == vs;
    } else {
      AddElementsIsEncode(env, order, path, kind, vs, v, n - 1);
      if KInt(n) in v.t {
        NewValueIsEncode(env, order, path + [KInt(n)], kind, v.t[KInt(n)]);
      }
      var us := EncodeElements(env, path, kind, v, n - 1);
      assert us.Some? ==> forall u :: vs + us.value + [u] == vs + (us.value + [u]);
    }
  }

  lemma NewValueIsEncode(env: Env, order: Order, path: Path, kind: Kind, v: Lua)
    requires ValidOrder(order) && UnambiguousValue(env, path, kind, v)
    ensures NewValue(env, order, path, kind, v) == EncodeValue(env, path, kind, v)
    decreases v, 5, 0
  {
    if kind.MessageK? && v.Table? {
      SetMsgIsEncode(env, order, path, kind.typ, Fresh(env.schema, kind.typ), v);
    }
  }

  /** The entries of some of the keys, added to d. */
  ghost function EncodeEntries(
    env: Env, path: Path, keyKind: Kind, kind: Kind, d: map<Scalar, Value>, v: Lua,
    keys: set<Key>): Option<map<Scalar, Value>>
    requires v.Table? && keys <= v.t.Keys
  {
    if AllEntries(env, path, keyKind, kind, v, keys) then
      Some(d + Rekey(env.lib, keyKind, Values(env, path, kind, v, keys)))
    else None
  }

  lemma {:induction false} AddEntriesIsEncode(
    env: Env, order: Order, path: Path, keyKind: Kind, kind: Kind, d: map<Scalar, Value>, v: Lua, keys: seq<Key>)
    requires v.Table? && ValidOrder(order) && Distinct(keys) && KeySet(keys) <= v.t.Keys
    requires Consistent(env, path, keyKind, kind, v)
    requires forall k <- v.t :: UnambiguousValue(env, path + [k], kind, v.t[k])
    ensures AddEntries(env, order, path, keyKind, kind, d, v, keys) ==
            EncodeEntries(env, path, keyKind, kind, d, v, KeySet(keys))
    decreases v, 2, |keys|
  {
    hide EncodeEntries, EncodeValue, NewValue, UnambiguousValue, PullKey, Consistent;
    if keys == [] {
      NoEntries(env, path, keyKind, kind, d, v);
      assert KeySet(keys) == {};
    } else {
      var k := keys[0];
      KeySetCons(keys);
      assert k in KeySet(keys);
      NewValueIsEncode(env, order, path + [k], kind, v.t[k]);
      var key := PullKey(env.lib, keyKind, k);
      var value := EncodeValue(env, path + [k], kind, v.t[k]);
      if key.Some? && value.Some? {
        AddEntriesIsEncode(env, order, path, keyKind, kind, d[key.value := value.value], v, keys[1..]);
        TakeEntry(env, path, keyKind, kind, d, v, KeySet(keys[1..]), k);
      } else {
        RefuseEntry(env, path, keyKind, kind, d, v, KeySet(keys), k);
      }
    }
  }

  lemma NoEntries(env: Env, path: Path, keyKind: Kind, kind: Kind, d: map<Scalar, Value>, v: Lua)
    requires v.Table?
    ensures EncodeEntries(env, path, keyKind, kind, d, v, {}) == Some(d)
  {
    assert Rekey(env.lib, keyKind, Values(env, path, kind, v, {})) == map[];
    assert d + map[] == d;
  }

  lemma RefuseEntry(
    env: Env, path: Path, keyKind: Kind, kind: Kind, d: map<Scalar, Value>, v: Lua, keys: set<Key>, k: Key)
    requires v.Table? && keys <= v.t.Keys && k in keys
    requires PullKey(env.lib, keyKind, k).None? || EncodeValue(env, path + [k], kind, v.t[k]).None?
    ensures EncodeEntries(env, path, keyKind, kind, d, v, keys).None?
  {
  }

  lemma TakeEntry(
    env: Env, path: Path, keyKind: Kind, kind: Kind, d: map<Scalar, Value>, v: Lua, rest: set<Key>, k: Key)
    requires v.Table? && rest <= v.t.Keys && k in v.t && k !in rest
    requires Consistent(env, path, keyKind, kind, v)
    requires PullKey(env.lib, keyKind, k).Some? && EncodeValue(env, path + [k], kind, v.t[k]).Some?
    ensures var sc := PullKey(env.lib, keyKind, k).value;
            var value := EncodeValue(env, path + [k], kind, v.t[k]).value;
            EncodeEntries(env, path, keyKind, kind, d[sc := value], v, rest) ==
            EncodeEntries(env, path, keyKind, kind, d, v, {k} + rest)
  {
    hide EncodeValue, PullKey, Rekey, AllEntries, Values, Consistent, Agree;
    AllEntriesCons(env, path, keyKind, kind, v, rest, k);
    if AllEntries(env, path, keyKind, kind, v, rest) {
      var sc := PullKey(env.lib, keyKind, k).value;
      var value := EncodeValue(env, path + [k], kind, v.t[k]).value;
      var others := Values(env, path, kind, v, rest);
      ValuesCons(env, path, keyKind, kind, v, rest, k);
      ValuesAgree(env, path, keyKind, kind, v, {k} + rest);
      RekeyCons(env.lib, keyKind, others, k, value);
      AddThenUpdate(d, Rekey(env.lib, keyKind, others), sc, value);
    }
  }

  lemma AllEntriesCons(env: Env, path: Path, keyKind: Kind, kind: Kind, v: Lua, rest: set<Key>, k: Key)
    requires v.Table? && rest <= v.t.Keys && k in v.t
    requires PullKey(env.lib, keyKind, k).Some? && EncodeValue(env, path + [k], kind, v.t[k]).Some?
    ensures AllEntries(env, path, keyKind, kind, v, {k} + rest) <==> AllEntries(env, path, keyKind, kind, v, rest)
    ensures AllEntries(env, path, keyKind, kind, v, rest) ==>
              forall j <- rest :: PullKey(env.lib, keyKind, j).Some? && EncodeValue(env, path + [j], kind, v.t[j]).Some?
  {
    hide EncodeValue, PullKey;
    assert forall j <- rest :: j in {k} + rest;
  }

  lemma ValuesCons(env: Env, path: Path, keyKind: Kind, kind: Kind, v: Lua, rest: set<Key>, k: Key)
    requires v.Table? && rest <= v.t.Keys && k in v.t && k !in rest
    requires forall j <- {k} + rest :: EncodeValue(env, path + [j], kind, v.t[j]).Some?
    ensures Values(env, path, kind, v, rest).Keys == rest
    ensures Values(env, path, kind, v, {k} + rest) ==
            Values(env, path, kind, v, rest)[k := EncodeValue(env, path + [k], kind, v.t[k]).value]
  {
    hide EncodeValue;
  }

  lemma AddThenUpdate<K, V>(d: map<K, V>, e: map<K, V>, k: K, v: V)
    requires k in e ==> e[k] == v
    ensures d[k := v] + e == d + e[k := v]
  {
  }

  /** Keys that convert alike have the same value. */
  ghost predicate Agree(lib: LuaLib, keyKind: Kind, vs: map<Key, Value>) {
    forall a <- vs, b <- vs :: PullKey(lib, keyKind, a) == PullKey(lib, keyKind, b) != None ==> vs[a] == vs[b]
  }

  lemma ValuesAgree(env: Env, path: Path, keyKind: Kind, kind: Kind, v: Lua, keys: set<Key>)
    requires v.Table? && keys <= v.t.Keys && Consistent(env, path, keyKind, kind, v)
    requires forall k <- keys :: EncodeValue(env, path + [k], kind, v.t[k]).Some?
    ensures Agree(env.lib, keyKind, Values(env, path, kind, v, keys))
  {
    hide EncodeValue, PullKey;
  }

  lemma RekeyAt(lib: LuaLib, keyKind: Kind, vs: map<Key, Value>, k: Key)
    requires forall j <- vs :: PullKey(lib, keyKind, j).Some?
    requires k in vs && Agree(lib, keyKind, vs)
    ensures PullKey(lib, keyKind, k).value in Rekey(lib, keyKind, vs)
    ensures Rekey(lib, keyKind, vs)[PullKey(lib, keyKind, k).value] == vs[k]
  {
    hide PullKey;
    var j := KeyFor(lib, keyKind, vs.Keys, PullKey(lib, keyKind, k).value);
    assert vs[j] == vs[k];
  }

  lemma PulledKeysCons(lib: LuaLib, keyKind: Kind, keys: set<Key>, k: Key)
    requires PullKey(lib, keyKind, k).Some? && forall j <- keys :: PullKey(lib, keyKind, j).Some?
    ensures PulledKeys(lib, keyKind, keys + {k}) == PulledKeys(lib, keyKind, keys) + {PullKey(lib, keyKind, k).value}
  {
    hide PullKey;
    assert forall j <- keys :: j in keys + {k};
    assert k in keys + {k};
  }

  lemma RekeyCons(lib: LuaLib, keyKind: Kind, vs: map<Key, Value>, k: Key, value: Value)
    requires k !in vs && PullKey(lib, keyKind, k).Some? && forall j <- vs :: PullKey(lib, keyKind, j).Some?
    requires Agree(lib, keyKind, vs[k := value])
    ensures var sc := PullKey(lib, keyKind, k).value;
            && (sc in Rekey(lib, keyKind, vs) ==> Rekey(lib, keyKind, vs)[sc] == value)
            && Rekey(lib, keyKind, vs[k := value]) == Rekey(lib, keyKind, vs)[sc := value]
  {
    hide PullKey, KeyFor, PulledKeys, Agree;
    var sc := PullKey(lib, keyKind, k).value;
    var ws := vs[k := value];
    assert ws.Keys == vs.Keys + {k};
    PulledKeysCons(lib, keyKind, vs.Keys, k);
    RekeyAt(lib, keyKind, ws, k);
    RekeyKeepsOthers(lib, keyKind, vs, k, value);
    assert Rekey(lib, keyKind, ws).Keys == Rekey(lib, keyKind, vs).Keys + {sc};
  }

  lemma RekeyKeepsOthers(lib: LuaLib, keyKind: Kind, vs: map<Key, Value>, k: Key, value: Value)
    requires k !in vs && PullKey(lib, keyKind, k).Some? && forall j <- vs :: PullKey(lib, keyKind, j).Some?
    requires Agree(lib, keyKind, vs[k := value])
    ensures forall x <- Rekey(lib, keyKind, vs) ::
              x in Rekey(lib, keyKind, vs[k := value]) &&
              Rekey(lib, keyKind, vs[k := value])[x] == Rekey(lib, keyKind, vs)[x]
  {
    hide PullKey, Rekey, Agree;
    var ws := vs[k := value];
    StillAgree(lib, keyKind, vs, k, value);
    forall x <- Rekey(lib, keyKind, vs)
      ensures x in Rekey(lib, keyKind, ws) && Rekey(lib, keyKind, ws)[x] == Rekey(lib, keyKind, vs)[x]
    {
      var j := EntryKey(lib, keyKind, vs, x);
      RekeyAt(lib, keyKind, ws, j);
      RekeyAt(lib, keyKind, vs, j);
    }
  }

  lemma StillAgree(lib: LuaLib, keyKind: Kind, vs: map<Key, Value>, k: Key, value: Value)
    requires k !in vs && Agree(lib, keyKind, vs[k := value])
    ensures Agree(lib, keyKind, vs)
  {
    hide PullKey;
    var ws := vs[k := value];
    assert forall j <- vs :: j in ws && ws[j] == vs[j];
  }

  lemma EntryKey(lib: LuaLib, keyKind: Kind, vs: map<Key, Value>, x: Scalar) returns (k: Key)
    requires forall j <- vs :: PullKey(lib, keyKind, j).Some?
    requires x in Rekey(lib, keyKind, vs)
    ensures k in vs && PullKey(lib, keyKind, k) == Some(x)
  {
    hide PullKey;
    k := KeyFor(lib, keyKind, vs.Keys, x);
  }
}
