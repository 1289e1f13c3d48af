/**
 Turning a protobuf message into a Lua table (MsgToTbl), and the two laws that
 tie it to MessageSetter: decoding and encoding again gives the same message,
 and encoding and decoding again is an idempotent normaliser of tables.
 */
module CodecDecode {
  import opened Common
  import opened CodecValues
  import opened CodecEncode
  import opened CodecReference

  // ---- ToTbl ----

  /** A field that ToTbl writes: a set oneof member, a set sub-message, or any other field. */
  predicate Shown(f: Field, c: Option<Content>) {
    c.Some? || DefaultContent(f).Some?
  }

  ghost function ToTbl(env: Env, ty: string, m: Msg): (v: Lua)
    ensures v.Table?
    decreases m, 1
  {
    var fs := FieldsOf(env.schema, ty);
    Table(map n | n in fs && Shown(fs[n], ContentAt(m, n)) ::
            KStr(n) := if n in m.fields then GetField(env, fs[n], m.fields[n])
                       else GetDefault(env, fs[n]))
  }

  function GetDefault(env: Env, f: Field): Lua {
    if f.shape.Singular? then Push(env.lib, Default(f.kind)) else Table(map[])
  }

  ghost function GetField(env: Env, f: Field, c: Content): Lua
    decreases c, 3
  {
    match c
    case One(v) => GetValue(env, f.kind, v)
    case Many(vs) => Table(map k | k in IndexKeys(|vs|) :: GetValue(env, f.kind, vs[k.i - 1]))
    case Dict(d) =>
      if f.shape.MapOf? then
        Table(map k | k in PushedKeys(d.Keys) ::
                var sc := KeyOf(env.lib, f.shape.key, k);
                if sc in d then GetValue(env, f.kind, d[sc]) else Nil)
      else Nil
  }

  /** 1 .. n as table keys. */
  ghost function IndexKeys(n: nat): (keys: set<Key>)
    ensures forall k :: k in keys <==> k.KInt? && 1 <= k.i <= n
  {
    set i: LuaInt | 1 <= i <= n :: KInt(i)
  }

  ghost function PushedKeys(scs: set<Scalar>): (keys: set<Key>)
    ensures forall sc <- scs :: PushKey(sc) in keys
    ensures forall k <- keys :: exists sc <- scs :: k == PushKey(sc)
  {
    set sc | sc in scs :: PushKey(sc)
  }

  /** The map key a table key was made from. */
  function KeyOf(lib: LuaLib, kind: Kind, k: Key): Scalar {
    match PullKey(lib, kind, k)
    case Some(sc) => sc
    case None => Default(kind)
  }

  ghost function GetValue(env: Env, kind: Kind, v: Value): Lua
    decreases v, 2
  {
    match v
    case Sc(sc) => Push(env.lib, sc)
    case Sub(m) => if kind.MessageK? then ToTbl(env, kind.typ, m) else Nil
  }

  lemma PushedKeysAdd(scs: set<Scalar>, sc: Scalar)
    ensures PushedKeys({}) == {}
    ensures PushedKeys(scs + {sc}) == PushedKeys(scs) + {PushKey(sc)}
  {
    hide PushKey;
  }

  // ---- Well-formed messages ----

  ghost predicate WellFormed(schema: Schema, ty: string, m: Msg)
    decreases m, 1
  {
    var fs := FieldsOf(schema, ty);
    && (forall n <- m.fields :: n in fs && WellFormedContent(schema, fs[n], m.fields[n]))
    && (forall n <- fs :: DefaultContent(fs[n]).Some? ==> n in m.fields)
    && (forall a <- m.fields, b <- m.fields :: !SharesOneof(fs, a, b))
  }

  ghost predicate WellFormedContent(schema: Schema, f: Field, c: Content)
    decreases c, 3
  {
    match f.shape
    case Singular => c.One? && WellFormedValue(schema, f.kind, c.v)
    case Repeated =>
      c.Many? && |c.vs| < 0x8000_0000 &&
      forall i :: 0 <= i < |c.vs| ==> WellFormedValue(schema, f.kind, c.vs[i])
    case MapOf(keyKind) =>
      c.Dict? && forall sc <- c.d :: HasKind(sc, keyKind) && WellFormedValue(schema, f.kind, c.d[sc])
  }

  ghost predicate WellFormedValue(schema: Schema, kind: Kind, v: Value)
    decreases v, 2
  {
    match v
    case Sc(sc) => HasKind(sc, kind)
    case Sub(m) => kind.MessageK? && WellFormed(schema, kind.typ, m)
  }

  // ---- Decode, then encode ----

  /** What ToTbl writes for a well-formed message: exactly the fields it holds. */
  lemma ToTblOfWellFormed(env: Env, ty: string, m: Msg)
    requires WellFormed(env.schema, ty, m)
    ensures var v := ToTbl(env, ty, m);
            && (forall k <- v.t :: k.KStr? && k.s in m.fields)
            && (forall n <- m.fields ::
                  n in FieldsOf(env.schema, ty) && KStr(n) in v.t &&
                  v.t[KStr(n)] == GetField(env, FieldsOf(env.schema, ty)[n], m.fields[n]))
  {
    hide GetField, WellFormedContent;
  }

  /** The main law: a well-formed message survives the trip through a Lua table. */
  lemma RoundTrip(env: Env, path: Path, ty: string, m: Msg)
    requires ValidEnv(env) && WellFormed(env.schema, ty, m)
    ensures Encode(env, path, ty, Fresh(env.schema, ty), ToTbl(env, ty, m)) == Some(m)
    decreases m, 1
  {
    hide GetField, WellFormedContent, EncodeContent, Merge, ToTbl;
    var fs := FieldsOf(env.schema, ty);
    var blank := Fresh(env.schema, ty);
    var v := ToTbl(env, ty, m);
    ToTblOfWellFormed(env, ty, m);
    forall k <- v.t
      ensures EncodeContent(env, path + [k], fs[k.s], ContentAt(blank, k.s), v.t[k]) == Some(m.fields[k.s])
    {
      ContentRoundTrip(env, path + [k], fs[k.s], ContentAt(blank, k.s), m.fields[k.s]);
    }
    assert AllEncode(env, path, fs, blank, v, v.t.Keys);
    var given := Contents(env, path, fs, blank, v, v.t.Keys);
    forall n <- m.fields
      ensures n in given && given[n] == m.fields[n]
    {
      assert KStr(n) in v.t;
    }
    assert given == m.fields;
    MergeAll(fs, blank, m);
  }

  lemma MergeAll(fs: Fields, blank: Msg, m: Msg)
    requires blank.fields.Keys <= m.fields.Keys
    ensures Merge(fs, blank, m.fields) == m
  {
    assert Merge(fs, blank, m.fields).fields == m.fields;
  }

  lemma ContentRoundTrip(env: Env, path: Path, f: Field, prev: Option<Content>, c: Content)
    requires ValidEnv(env) && WellFormedContent(env.schema, f, c)
    requires f.shape.MapOf? ==> IsKeyKind(f.shape.key)
    requires prev == DefaultContent(f)
    ensures EncodeContent(env, path, f, prev, GetField(env, f, c)) == Some(c)
    decreases c, 4
  {
    match f.shape
    case Singular =>
      ValueRoundTrip(env, path, f.kind, c.v);
    case Repeated =>
      ElementsRoundTrip(env, path, f, c);
    case MapOf(keyKind) =>
      EntriesRoundTrip(env, path, f, c);
  }

  lemma ValueRoundTrip(env: Env, path: Path, kind: Kind, v: Value)
    requires ValidEnv(env) && WellFormedValue(env.schema, kind, v)
    ensures EncodeValue(env, path, kind, GetValue(env, kind, v)) == Some(v)
    decreases v, 2
  {
    match v
    case Sc(sc) => PullAfterPush(env.lib, kind, sc);
    case Sub(m) => RoundTrip(env, path, kind.typ, m);
  }

  lemma BorderOfIndices(t: map<Key, Lua>, n: Size, count: Size)
    requires IsBorder(t, n) && t.Keys == IndexKeys(count)
    ensures n == count
  {
    assert n != 0 ==> KInt(n) in IndexKeys(count);
  }

  lemma RepeatedTable(env: Env, f: Field, c: Content)
    requires f.shape.Repeated? && WellFormedContent(env.schema, f, c)
    ensures c.Many? && |c.vs| < 0x8000_0000
    ensures GetField(env, f, c).Table? && GetField(env, f, c).t.Keys == IndexKeys(|c.vs|)
  {
    hide GetValue, WellFormedValue;
  }

  lemma ElementsRoundTrip(env: Env, path: Path, f: Field, c: Content)
    requires ValidEnv(env) && f.shape.Repeated? && WellFormedContent(env.schema, f, c)
    ensures EncodeContent(env, path, f, Some(Many([])), GetField(env, f, c)) == Some(c)
    decreases c, 2
  {
    hide WellFormedValue, EncodeElements, GetValue, GetField, WellFormedContent;
    RepeatedTable(env, f, c);
    var v := GetField(env, f, c);
    BorderOfIndices(v.t, env.len(path, v.t), |c.vs|);
    ElementsUpTo(env, path, f, c, |c.vs|);
    assert c.vs[..|c.vs|] == c.vs && [] + c.vs == c.vs;
  }

  lemma {:induction false} ElementsUpTo(env: Env, path: Path, f: Field, c: Content, n: Size)
    requires ValidEnv(env) && f.shape.Repeated? && WellFormedContent(env.schema, f, c) && n <= |c.vs|
    ensures EncodeElements(env, path, f.kind, GetField(env, f, c), n) == Some(c.vs[..n])
    decreases c, 1, n
  {
    if n != 0 {
      var v := GetField(env, f, c);
      assert KInt(n) in v.t && v.t[KInt(n)] == GetValue(env, f.kind, c.vs[n - 1]);
      ElementsUpTo(env, path, f, c, n - 1);
      ValueRoundTrip(env, path + [KInt(n)], f.kind, c.vs[n - 1]);
      assert c.vs[..n] == c.vs[..n - 1] + [c.vs[n - 1]];
    }
  }

  /** Pushing the keys of a map and pulling them back gives the map. */
  lemma RekeyPushed(lib: LuaLib, kk: Kind, d: map<Scalar, Value>, vs: map<Key, Value>)
    requires lib.Valid() && IsKeyKind(kk) && forall sc <- d :: HasKind(sc, kk)
    requires vs.Keys == PushedKeys(d.Keys) && forall sc <- d :: vs[PushKey(sc)] == d[sc]
    ensures forall k <- vs :: PullKey(lib, kk, k).Some?
    ensures Rekey(lib, kk, vs) == d
  {
    hide PullKey, PushKey, HasKind, PushedKeys, Rekey;
    forall sc <- d
      ensures PullKey(lib, kk, PushKey(sc)) == Some(sc)
    {
      PullKeyAfterPushKey(lib, kk, sc);
    }
    assert Agree(lib, kk, vs);
    forall sc <- d
      ensures sc in Rekey(lib, kk, vs) && Rekey(lib, kk, vs)[sc] == d[sc]
    {
      RekeyAt(lib, kk, vs, PushKey(sc));
    }
    RekeyKeys(lib, kk, vs);
    forall x <- Rekey(lib, kk, vs)
      ensures x in d
    {
      var k :| k in vs && PullKey(lib, kk, k) == Some(x);
    }
  }

  lemma RekeyKeys(lib: LuaLib, kk: Kind, vs: map<Key, Value>)
    requires forall k <- vs :: PullKey(lib, kk, k).Some?
    ensures forall x <- Rekey(lib, kk, vs) :: exists k <- vs :: PullKey(lib, kk, k) == Some(x)
  {
    hide PullKey;
  }

  /** The table of a well-formed map field gives each entry back. */
  lemma EntryAt(env: Env, path: Path, f: Field, c: Content, sc: Scalar)
    requires ValidEnv(env) && f.shape.MapOf? && IsKeyKind(f.shape.key) && WellFormedContent(env.schema, f, c)
    requires sc in c.d
    ensures var v := GetField(env, f, c);
            && PushKey(sc) in v.t
            && PullKey(env.lib, f.shape.key, PushKey(sc)) == Some(sc)
            && EncodeValue(env, path + [PushKey(sc)], f.kind, v.t[PushKey(sc)]) == Some(c.d[sc])
    decreases c, 2
  {
    PullKeyAfterPushKey(env.lib, f.shape.key, sc);
    ValueRoundTrip(env, path + [PushKey(sc)], f.kind, c.d[sc]);
  }

  lemma EntryKeys(env: Env, f: Field, c: Content)
    requires f.shape.MapOf? && WellFormedContent(env.schema, f, c)
    ensures c.Dict? && GetField(env, f, c).Table?
    ensures GetField(env, f, c).t.Keys == PushedKeys(c.d.Keys)
    ensures forall sc <- c.d :: HasKind(sc, f.shape.key)
  {
  }

  lemma EntriesRoundTrip(env: Env, path: Path, f: Field, c: Content)
    requires ValidEnv(env) && f.shape.MapOf? && IsKeyKind(f.shape.key) && WellFormedContent(env.schema, f, c)
    ensures EncodeContent(env, path, f, Some(Dict(map[])), GetField(env, f, c)) == Some(c)
    decreases c, 3
  {
    hide GetField, WellFormedContent, EncodeValue, PullKey, PushKey, Rekey, PushedKeys, HasKind;
    var kk := f.shape.key;
    var v := GetField(env, f, c);
    EntryKeys(env, f, c);
    forall sc <- c.d
      ensures PushKey(sc) in v.t && PullKey(env.lib, kk, PushKey(sc)) == Some(sc)
      ensures EncodeValue(env, path + [PushKey(sc)], f.kind, v.t[PushKey(sc)]) == Some(c.d[sc])
    {
      EntryAt(env, path, f, c, sc);
    }
    assert AllEntries(env, path, kk, f.kind, v, v.t.Keys);
    var vs := Values(env, path, f.kind, v, v.t.Keys);
    assert vs.Keys == PushedKeys(c.d.Keys);
    RekeyPushed(env.lib, kk, c.d, vs);
    assert map[] + c.d == c.d;
  }

  // ---- The program's own round trip, in any iteration order ----

  lemma ToTblIsUnambiguous(env: Env, path: Path, ty: string, m: Msg)
    requires ValidEnv(env) && WellFormed(env.schema, ty, m)
    ensures Unambiguous(env, path, ty, ToTbl(env, ty, m))
    decreases m, 1
  {
    hide GetField, WellFormedContent, UnambiguousContent, ToTbl;
    var fs := FieldsOf(env.schema, ty);
    var v := ToTbl(env, ty, m);
    ToTblOfWellFormed(env, ty, m);
    forall a, b | KStr(a) in v.t && KStr(b) in v.t
      ensures !SharesOneof(fs, a, b)
    {
      assert a in m.fields && b in m.fields;
    }
    forall k <- v.t
      ensures UnambiguousContent(env, path + [k], fs[k.s], v.t[k])
    {
      FieldIsUnambiguous(env, path + [k], fs[k.s], m.fields[k.s]);
    }
  }

  lemma FieldIsUnambiguous(env: Env, path: Path, f: Field, c: Content)
    requires ValidEnv(env) && WellFormedContent(env.schema, f, c)
    requires f.shape.MapOf? ==> IsKeyKind(f.shape.key)
    ensures UnambiguousContent(env, path, f, GetField(env, f, c))
    decreases c, 4
  {
    match f.shape
    case Singular => ValueIsUnambiguous(env, path, f.kind, c.v);
    case Repeated => ElementsAreUnambiguous(env, path, f, c);
    case MapOf(_) => EntriesAreUnambiguous(env, path, f, c);
  }

  lemma ElementsAreUnambiguous(env: Env, path: Path, f: Field, c: Content)
    requires ValidEnv(env) && f.shape.Repeated? && WellFormedContent(env.schema, f, c)
    ensures UnambiguousContent(env, path, f, GetField(env, f, c))
    decreases c, 3
  {
    var v := GetField(env, f, c);
    forall k <- v.t
      ensures UnambiguousValue(env, path + [k], f.kind, v.t[k])
    {
      ValueIsUnambiguous(env, path + [k], f.kind, c.vs[k.i - 1]);
    }
  }

  lemma EntriesAreUnambiguous(env: Env, path: Path, f: Field, c: Content)
    requires ValidEnv(env) && f.shape.MapOf? && IsKeyKind(f.shape.key) && WellFormedContent(env.schema, f, c)
    ensures UnambiguousContent(env, path, f, GetField(env, f, c))
    decreases c, 3
  {
    hide GetField, WellFormedContent, EncodeValue, PullKey, PushKey, PushedKeys, HasKind, UnambiguousValue;
    var v := GetField(env, f, c);
    EntryKeys(env, f, c);
    forall sc <- c.d
      ensures PushKey(sc) in v.t && PullKey(env.lib, f.shape.key, PushKey(sc)) == Some(sc)
      ensures UnambiguousValue(env, path + [PushKey(sc)], f.kind, v.t[PushKey(sc)])
    {
      EntryAt(env, path, f, c, sc);
      EntryIsUnambiguous(env, path, f, c, sc);
    }
  }

  lemma EntryIsUnambiguous(env: Env, path: Path, f: Field, c: Content, sc: Scalar)
    requires ValidEnv(env) && f.shape.MapOf? && IsKeyKind(f.shape.key) && WellFormedContent(env.schema, f, c)
    requires sc in c.d && PushKey(sc) in GetField(env, f, c).t
    ensures UnambiguousValue(env, path + [PushKey(sc)], f.kind, GetField(env, f, c).t[PushKey(sc)])
    decreases c, 2
  {
    PullKeyAfterPushKey(env.lib, f.shape.key, sc);
    ValueIsUnambiguous(env, path + [PushKey(sc)], f.kind, c.d[sc]);
  }

  lemma ValueIsUnambiguous(env: Env, path: Path, kind: Kind, v: Value)
    requires ValidEnv(env) && WellFormedValue(env.schema, kind, v)
    ensures UnambiguousValue(env, path, kind, GetValue(env, kind, v))
    decreases v, 2
  {
    if v.Sub? {
      ToTblIsUnambiguous(env, path, kind.typ, v.m);
    }
  }

  /** MessageSetter fills a new message with exactly what MsgToTbl took out, whatever order Lua iterates in. */
  lemma SetMsgAfterToTbl(env: Env, order: Order, path: Path, ty: string, m: Msg)
    requires ValidEnv(env) && ValidOrder(order) && WellFormed(env.schema, ty, m)
    ensures SetMsg(env, order, path, ty, Fresh(env.schema, ty), ToTbl(env, ty, m)) == Some(m)
  {
    ToTblIsUnambiguous(env, path, ty, m);
    SetMsgIsEncode(env, order, path, ty, Fresh(env.schema, ty), ToTbl(env, ty, m));
    RoundTrip(env, path, ty, m);
  }

  // ---- Encode, then decode ----

  /** A new message filled from a table holds the fields given and the defaults of the others. */
  lemma EncodeFreshFields(env: Env, path: Path, ty: string, v: Lua)
    requires ValidSchema(env.schema) && v.Table?
    requires Encode(env, path, ty, Fresh(env.schema, ty), v).Some?
    ensures var fs := FieldsOf(env.schema, ty);
            var m := Encode(env, path, ty, Fresh(env.schema, ty), v).value;
            && (forall n <- m.fields :: n in fs && (KStr(n) in v.t || DefaultContent(fs[n]).Some?))
            && (forall n <- fs :: KStr(n) in v.t || DefaultContent(fs[n]).Some? ==> n in m.fields)
            && (forall n <- m.fields ::
                  Some(m.fields[n]) ==
                  if KStr(n) in v.t then
                    EncodeContent(env, path + [KStr(n)], fs[n], DefaultContent(fs[n]), v.t[KStr(n)])
                  else DefaultContent(fs[n]))
  {
    hide EncodeContent, Contents, Merge;
    var fs := FieldsOf(env.schema, ty);
    var blank := Fresh(env.schema, ty);
    var given := Contents(env, path, fs, blank, v, v.t.Keys);
    ContentsAt(env, path, fs, blank, v);
    BlankIsNotDisplaced(env.schema, ty, given);
    forall n <- given
      ensures ContentAt(blank, n) == DefaultContent(fs[n])
    {
    }
  }

  lemma ContentsAt(env: Env, path: Path, fs: Fields, m: Msg, v: Lua)
    requires v.Table? && AllEncode(env, path, fs, m, v, v.t.Keys)
    ensures var given := Contents(env, path, fs, m, v, v.t.Keys);
            && (forall n :: n in given <==> KStr(n) in v.t)
            && (forall n <- given :: n in fs &&
                  EncodeContent(env, path + [KStr(n)], fs[n], ContentAt(m, n), v.t[KStr(n)]) == Some(given[n]))
  {
    hide EncodeContent;
    var given := Contents(env, path, fs, m, v, v.t.Keys);
    forall n
      ensures n in given <==> KStr(n) in v.t
    {
      assert KStr(n) in v.t ==> KStr(n).s in given;
    }
    forall n <- given
      ensures n in fs &&
              EncodeContent(env, path + [KStr(n)], fs[n], ContentAt(m, n), v.t[KStr(n)]) == Some(given[n])
    {
      assert KStr(n) in v.t && KStr(n).s == n;
    }
  }

  lemma BlankIsNotDisplaced(schema: Schema, ty: string, given: map<string, Content>)
    requires ValidSchema(schema)
    ensures Merge(FieldsOf(schema, ty), Fresh(schema, ty), given).fields == Fresh(schema, ty).fields + given
  {
    var fs := FieldsOf(schema, ty);
    forall n <- Fresh(schema, ty).fields
      ensures !Displaced(fs, given, n)
    {
      assert fs[n].oneof.None?;
    }
  }

  /** Filling a new message gives a well-formed one. */
  lemma EncodeIsWellFormed(env: Env, path: Path, ty: string, v: Lua)
    requires ValidEnv(env) && v.Table? && Unambiguous(env, path, ty, v)
    requires Encode(env, path, ty, Fresh(env.schema, ty), v).Some?
    ensures WellFormed(env.schema, ty, Encode(env, path, ty, Fresh(env.schema, ty), v).value)
    decreases v, 3
  {
    hide Encode, EncodeContent, WellFormedContent, UnambiguousContent, Fresh;
    var fs := FieldsOf(env.schema, ty);
    var m := Encode(env, path, ty, Fresh(env.schema, ty), v).value;
    EncodeFreshFields(env, path, ty, v);
    forall n <- m.fields
      ensures WellFormedContent(env.schema, fs[n], m.fields[n])
    {
      if KStr(n) in v.t {
        ContentIsWellFormed(env, path + [KStr(n)], fs[n], v.t[KStr(n)]);
      } else {
        DefaultIsWellFormed(env.schema, fs[n]);
      }
    }
    forall a <- m.fields, b <- m.fields
      ensures !SharesOneof(fs, a, b)
    {
      if fs[a].oneof.Some? && fs[b].oneof.Some? {
        assert KStr(a) in v.t && KStr(b) in v.t;
      }
    }
  }

  lemma DefaultIsWellFormed(schema: Schema, f: Field)
    requires DefaultContent(f).Some?
    ensures WellFormedContent(schema, f, DefaultContent(f).value)
  {
  }

  lemma ContentIsWellFormed(env: Env, path: Path, f: Field, v: Lua)
    requires ValidEnv(env) && UnambiguousContent(env, path, f, v)
    requires f.kind.EnumK? ==> forall e <- f.kind.names :: InRange(-0x8000_0000, f.kind.names[e], 0x8000_0000)
    requires f.shape.MapOf? ==> IsKeyKind(f.shape.key)
    requires EncodeContent(env, path, f, DefaultContent(f), v).Some?
    ensures WellFormedContent(env.schema, f, EncodeContent(env, path, f, DefaultContent(f), v).value)
    decreases v, 5
  {
    match f.shape
    case Singular => ValueIsWellFormed(env, path, f.kind, v);
    case Repeated => ElementsAreWellFormed(env, path, f.kind, v, ElementCount(env.len(path, v.t)));
    case MapOf(_) => EntriesAreWellFormed(env, path, f, v);
  }

  lemma EntriesAreWellFormed(env: Env, path: Path, f: Field, v: Lua)
    requires ValidEnv(env) && f.shape.MapOf? && IsKeyKind(f.shape.key) && UnambiguousContent(env, path, f, v)
    requires f.kind.EnumK? ==> forall e <- f.kind.names :: InRange(-0x8000_0000, f.kind.names[e], 0x8000_0000)
    requires EncodeContent(env, path, f, DefaultContent(f), v).Some?
    ensures WellFormedContent(env.schema, f, EncodeContent(env, path, f, DefaultContent(f), v).value)
    decreases v, 5, 0
  {
    hide PullKey, EncodeValue, UnambiguousValue, WellFormedValue, HasKind, Consistent;
    var vs := Values(env, path, f.kind, v, v.t.Keys);
    forall k <- v.t
      ensures HasKind(PullKey(env.lib, f.shape.key, k).value, f.shape.key)
      ensures WellFormedValue(env.schema, f.kind, vs[k])
    {
      KeyHasKind(env.lib, f.shape.key, k);
      ValueIsWellFormed(env, path + [k], f.kind, v.t[k]);
    }
    assert map[] + Rekey(env.lib, f.shape.key, vs) == Rekey(env.lib, f.shape.key, vs);
  }

  lemma KeyHasKind(lib: LuaLib, keyKind: Kind, k: Key)
    requires IsKeyKind(keyKind) && PullKey(lib, keyKind, k).Some?
    ensures HasKind(PullKey(lib, keyKind, k).value, keyKind)
  {
    PullHasKind(lib, keyKind, KeyToLua(k));
  }

  lemma {:induction false} ElementsAreWellFormed(env: Env, path: Path, kind: Kind, v: Lua, n: Size)
    requires ValidEnv(env) && v.Table?
    requires kind.EnumK? ==> forall e <- kind.names :: InRange(-0x8000_0000, kind.names[e], 0x8000_0000)
    requires forall k <- v.t :: k.KInt? && 1 <= k.i <= n ==> UnambiguousValue(env, path + [k], kind, v.t[k])
    requires EncodeElements(env, path, kind, v, n).Some?
    ensures var vs := EncodeElements(env, path, kind, v, n).value;
            |vs| == n && forall i :: 0 <= i < n ==> WellFormedValue(env.schema, kind, vs[i])
    decreases v, 3, n
  {
    if n != 0 {
      ElementsAreWellFormed(env, path, kind, v, n - 1);
      if KInt(n) in v.t {
        ValueIsWellFormed(env, path + [KInt(n)], kind, v.t[KInt(n)]);
      } else {
        PullHasKind(env.lib, kind, Nil);
      }
    }
  }

  lemma ValueIsWellFormed(env: Env, path: Path, kind: Kind, v: Lua)
    requires ValidEnv(env) && UnambiguousValue(env, path, kind, v)
    requires kind.EnumK? ==> forall e <- kind.names :: InRange(-0x8000_0000, kind.names[e], 0x8000_0000)
    requires EncodeValue(env, path, kind, v).Some?
    ensures WellFormedValue(env.schema, kind, EncodeValue(env, path, kind, v).value)
    decreases v, 4
  {
    if kind.MessageK? {
      EncodeIsWellFormed(env, path, kind.typ, v);
    } else {
      PullHasKind(env.lib, kind, v);
    }
  }

  /** The table that comes back when a table is encoded into a new message and decoded. */
  ghost function Normal(env: Env, path: Path, ty: string, v: Lua): Option<Lua>
    requires v.Table?
  {
    match Encode(env, path, ty, Fresh(env.schema, ty), v)
    case None => None
    case Some(m) => Some(ToTbl(env, ty, m))
  }

  lemma NormalIsIdempotent(env: Env, path: Path, ty: string, v: Lua)
    requires ValidEnv(env) && v.Table? && Unambiguous(env, path, ty, v)
    requires Normal(env, path, ty, v).Some?
    ensures Normal(env, path, ty, Normal(env, path, ty, v).value) == Normal(env, path, ty, v)
  {
    EncodeIsWellFormed(env, path, ty, v);
    RoundTrip(env, path, ty, Encode(env, path, ty, Fresh(env.schema, ty), v).value);
  }

  /** What the normaliser makes of one field's value. */
  ghost function NormalContent(env: Env, path: Path, f: Field, v: Lua): Option<Lua> {
    match EncodeContent(env, path, f, DefaultContent(f), v)
    case None => None
    case Some(c) => Some(GetField(env, f, c))
  }

  /** What it makes of one element or map value. */
  ghost function NormalValue(env: Env, path: Path, kind: Kind, v: Lua): Option<Lua> {
    if kind.MessageK? then if v.Table? then Normal(env, path, kind.typ, v) else None
    else (match Pull(env.lib, kind, v) case None => None case Some(sc) => Some(Push(env.lib, sc)))
  }

  /**
   Field by field: the result has the fields that were given and those with a
   default, no other key; a given field is normalised, any other is its default.
   */
  lemma NormalFields(env: Env, path: Path, ty: string, v: Lua)
    requires ValidEnv(env) && v.Table? && Unambiguous(env, path, ty, v)
    requires Normal(env, path, ty, v).Some?
    ensures var fs := FieldsOf(env.schema, ty);
            var w := Normal(env, path, ty, v).value;
            && w.Table?
            && (forall k <- w.t :: k.KStr? && k.s in fs)
            && (forall n <- fs :: KStr(n) in w.t <==> KStr(n) in v.t || DefaultContent(fs[n]).Some?)
            && (forall n <- fs ::
                  if KStr(n) in v.t then
                    NormalContent(env, path + [KStr(n)], fs[n], v.t[KStr(n)]) == Some(w.t[KStr(n)])
                  else KStr(n) in w.t ==> w.t[KStr(n)] == GetDefault(env, fs[n]))
  {
    hide Encode, EncodeContent, WellFormedContent, UnambiguousContent, Fresh, ToTbl, GetField;
    var fs := FieldsOf(env.schema, ty);
    var m := Encode(env, path, ty, Fresh(env.schema, ty), v).value;
    EncodeIsWellFormed(env, path, ty, v);
    EncodeFreshFields(env, path, ty, v);
    ToTblOfWellFormed(env, ty, m);
    forall n <- m.fields | KStr(n) !in v.t
      ensures GetField(env, fs[n], m.fields[n]) == GetDefault(env, fs[n])
    {
      DefaultIsShown(env, fs[n]);
    }
  }

  lemma DefaultIsShown(env: Env, f: Field)
    requires DefaultContent(f).Some?
    ensures GetField(env, f, DefaultContent(f).value) == GetDefault(env, f)
  {
  }

  lemma NormalValueIs(env: Env, path: Path, kind: Kind, v: Lua)
    ensures NormalValue(env, path, kind, v) ==
            match EncodeValue(env, path, kind, v) case None => None case Some(u) => Some(GetValue(env, kind, u))
  {
  }

  /** A singular scalar is converted (an enum name becomes its number), a sub-message is normalised. */
  lemma NormalSingular(env: Env, path: Path, f: Field, v: Lua)
    requires f.shape.Singular?
    ensures NormalContent(env, path, f, v) == NormalValue(env, path, f.kind, v)
    ensures f.kind.EnumK? && v.Str? && v.s in f.kind.names && -0x8000_0000 <= f.kind.names[v.s] < 0x8000_0000 ==>
              NormalContent(env, path, f, v) == Some(Int(f.kind.names[v.s]))
  {
    NormalValueIs(env, path, f.kind, v);
    var u := EncodeValue(env, path, f.kind, v);
    if u.Some? {
      assert EncodeContent(env, path, f, DefaultContent(f), v) == Some(One(u.value));
      assert GetField(env, f, One(u.value)) == GetValue(env, f.kind, u.value);
    }
  }

  /** A repeated field becomes the sequence 1 .. # of its normalised elements, a hole being read as nil. */
  lemma NormalRepeated(env: Env, path: Path, f: Field, v: Lua)
    requires f.shape.Repeated? && NormalContent(env, path, f, v).Some?
    ensures v.Table?
    ensures var w := NormalContent(env, path, f, v).value;
            && w.Table? && w.t.Keys == IndexKeys(ElementCount(env.len(path, v.t)))
            && forall k <- w.t.Keys ::
                 NormalValue(env, path + [k], f.kind, if k in v.t then v.t[k] else Nil) == Some(w.t[k])
  {
    hide EncodeValue, NormalValue, EncodeElements, GetValue, Pull;
    var n := ElementCount(env.len(path, v.t));
    ElementsAt(env, path, f.kind, v, n);
    var vs := EncodeElements(env, path, f.kind, v, n).value;
    assert [] + vs == vs;
    assert EncodeContent(env, path, f, DefaultContent(f), v) == Some(Many(vs));
    var w := GetField(env, f, Many(vs));
    forall k <- w.t.Keys
      ensures NormalValue(env, path + [k], f.kind, if k in v.t then v.t[k] else Nil) == Some(w.t[k])
    {
      NormalValueIs(env, path + [k], f.kind, if k in v.t then v.t[k] else Nil);
      assert k == KInt(k.i);
    }
  }

  lemma {:induction false} ElementsAt(env: Env, path: Path, kind: Kind, v: Lua, n: Size)
    requires v.Table? && EncodeElements(env, path, kind, v, n).Some?
    ensures var vs := EncodeElements(env, path, kind, v, n).value;
            && |vs| == n
            && forall i: LuaInt :: 1 <= i <= n ==>
                 EncodeValue(env, path + [KInt(i)], kind, if KInt(i) in v.t then v.t[KInt(i)] else Nil) ==
                 Some(vs[i - 1])
    decreases n
  {
    if n != 0 {
      ElementsAt(env, path, kind, v, n - 1);
      assert EncodeValue(env, path + [KInt(n)], kind, Nil) == FromNil(env.lib, kind);
    }
  }

  /** A map field keeps one entry for each converted key. */
  lemma NormalMap(env: Env, path: Path, f: Field, v: Lua)
    requires ValidEnv(env) && f.shape.MapOf? && IsKeyKind(f.shape.key)
    requires v.Table? && Consistent(env, path, f.shape.key, f.kind, v)
    requires NormalContent(env, path, f, v).Some?
    ensures var w := NormalContent(env, path, f, v).value;
            && w.Table?
            && (forall j <- v.t.Keys :: PullKey(env.lib, f.shape.key, j).Some?)
            && w.t.Keys == PushedKeys(PulledKeys(env.lib, f.shape.key, v.t.Keys))
            && (forall j <- v.t.Keys ::
                  NormalValue(env, path + [j], f.kind, v.t[j]) ==
                  Some(w.t[PushKey(PullKey(env.lib, f.shape.key, j).value)]))
  {
    hide PullKey, PushKey, EncodeValue, Rekey, NormalValue, PulledKeys, Consistent, Agree;
    var kk := f.shape.key;
    assert AllEntries(env, path, kk, f.kind, v, v.t.Keys);
    var vs := Values(env, path, f.kind, v, v.t.Keys);
    var d := Rekey(env.lib, kk, vs);
    assert map[] + d == d;
    assert EncodeContent(env, path, f, DefaultContent(f), v) == Some(Dict(d));
    assert vs.Keys == v.t.Keys;
    ValuesAgree(env, path, kk, f.kind, v, v.t.Keys);
    RekeyDomain(env.lib, kk, vs);
    forall j <- v.t.Keys
      ensures PushKey(PullKey(env.lib, kk, j).value) in GetField(env, f, Dict(d)).t
      ensures NormalValue(env, path + [j], f.kind, v.t[j]) ==
              Some(GetField(env, f, Dict(d)).t[PushKey(PullKey(env.lib, kk, j).value)])
    {
      var sc := PullKey(env.lib, kk, j).value;
      NormalValueIs(env, path + [j], f.kind, v.t[j]);
      RekeyAt(env.lib, kk, vs, j);
      PulledKeyHasKind(env.lib, kk, j);
      DictAt(env, f, d, sc);
    }
  }

  lemma RekeyDomain(lib: LuaLib, kk: Kind, vs: map<Key, Value>)
    requires forall k <- vs :: PullKey(lib, kk, k).Some?
    ensures Rekey(lib, kk, vs).Keys == PulledKeys(lib, kk, vs.Keys)
  {
    hide PullKey, PulledKeys;
  }

  lemma PulledKeyHasKind(lib: LuaLib, kk: Kind, k: Key)
    requires lib.Valid() && IsKeyKind(kk) && PullKey(lib, kk, k).Some?
    ensures PullKey(lib, kk, PushKey(PullKey(lib, kk, k).value)) == PullKey(lib, kk, k)
  {
    PullHasKind(lib, kk, KeyToLua(k));
    PullKeyAfterPushKey(lib, kk, PullKey(lib, kk, k).value);
  }

  lemma DictAt(env: Env, f: Field, d: map<Scalar, Value>, sc: Scalar)
    requires f.shape.MapOf? && sc in d && PullKey(env.lib, f.shape.key, PushKey(sc)) == Some(sc)
    ensures GetField(env, f, Dict(d)).Table?
    ensures PushKey(sc) in GetField(env, f, Dict(d)).t
    ensures GetField(env, f, Dict(d)).t[PushKey(sc)] == GetValue(env, f.kind, d[sc])
  {
  }

  /** The keys of a well-formed map field stay apart as table keys. */
  lemma PushIsInjective(lib: LuaLib, kk: Kind, a: Scalar, b: Scalar)
    requires lib.Valid() && IsKeyKind(kk) && HasKind(a, kk) && HasKind(b, kk) && PushKey(a) == PushKey(b)
    ensures a == b
  {
    PullKeyAfterPushKey(lib, kk, a);
    PullKeyAfterPushKey(lib, kk, b);
  }

  /** A table with the pushed keys and the decoded values is the decoded map field. */
  lemma DictTable(env: Env, f: Field, c: Content, t: map<Key, Lua>)
    requires env.lib.Valid() && f.shape.MapOf? && IsKeyKind(f.shape.key) && WellFormedContent(env.schema, f, c)
    requires t.Keys == PushedKeys(c.d.Keys)
    requires forall sc <- c.d :: t[PushKey(sc)] == GetValue(env, f.kind, c.d[sc])
    ensures Table(t) == GetField(env, f, c)
  {
    hide GetField, GetValue, PushKey, PushedKeys, PullKey, HasKind, WellFormedContent;
    EntryKeys(env, f, c);
    var w := GetField(env, f, c);
    forall k <- t
      ensures t[k] == w.t[k]
    {
      var sc :| sc in c.d && k == PushKey(sc);
      PullKeyAfterPushKey(env.lib, f.shape.key, sc);
      DictAt(env, f, c.d, sc);
    }
    assert t == w.t;
  }
}
