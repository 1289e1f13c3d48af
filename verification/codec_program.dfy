/**
 The two classes of the codec. MessageSetter updates its message in loops over
 a Lua table; MsgToTbl fills a Lua table in loops over its message. Each is
 proved to compute the function the laws are about.
 */
module CodecProgram {
  import opened Common
  import opened CodecValues
  import opened CodecEncode
  import D = CodecDecode

  class MessageSetter {
    const env: Env
    const order: Order
    const ty: string
    var msg: Msg

    constructor (env: Env, order: Order, ty: string, msg: Msg)
      ensures this.env == env && this.order == order && this.ty == ty && this.msg == msg
    {
      this.env, this.order, this.ty, this.msg := env, order, ty, msg;
    }

    /** ok is false when the program raises an exception, which may be half-way through the table. */
    method SetMsg(path: Path, v: Lua) returns (ok: bool)
      requires v.Table? && ValidOrder(order)
      modifies this
      ensures var r := CodecEncode.SetMsg(env, order, path, ty, old(msg), v);
              (ok <==> r.Some?) && (ok ==> msg == r.value)
      decreases v, 3, 0
    {
      var keys := order(path, v.t);
      var i := 0;
      while i < |keys|
        invariant 0 <= i <= |keys|
        invariant forall k <- keys[i..] :: k in v.t
        invariant SetKeys(env, order, path, ty, old(msg), v, keys) ==
                  SetKeys(env, order, path, ty, msg, v, keys[i..])
      {
        var key := keys[i];
        assert keys[i..][0] == key && keys[i..][1..] == keys[i + 1..];
        assert key in v.t;
        if key.KStr? {
          ok := SetField(path, key.s, v.t[key]);
          if !ok {
            return;
          }
        }
        i := i + 1;
      }
      ok := true;
    }

    method SetField(path: Path, name: string, v: Lua) returns (ok: bool)
      requires ValidOrder(order)
      modifies this
      ensures var r := CodecEncode.SetField(env, order, path, ty, old(msg), name, v);
              (ok <==> r.Some?) && (ok ==> msg == r.value)
      decreases v, 6, 0
    {
      var fs := FieldsOf(env.schema, ty);
      if name !in fs {
        return false;
      }
      var f := fs[name];
      var here := path + [KStr(name)];
      var prev := ContentAt(msg, name);
      if !f.shape.Singular? {
        var c: Option<Content> := None;
        if f.shape.Repeated? {
          c := SetRepeatedField(here, f, prev, v);
        } else {
          c := SetRepeatedMapField(here, f, prev, v);
        }
        if c.None? {
          return false;
        }
        msg := Put(fs, msg, name, c.value);
        return true;
      }
      if f.kind.MessageK? {
        if !v.Table? {
          return false;
        }
        var sub := new MessageSetter(env, order, f.kind.typ, OldSub(env, f.kind.typ, prev));
        ok := sub.SetMsg(here, v);
        if ok {
          msg := Put(fs, msg, name, One(Sub(sub.msg)));
        }
        return;
      }
      var sc := Pull(env.lib, f.kind, v);
      if sc.None? {
        return false;
      }
      msg := Put(fs, msg, name, One(Sc(sc.value)));
      return true;
    }

    method SetRepeatedField(path: Path, f: Field, prev: Option<Content>, v: Lua) returns (c: Option<Content>)
      requires ValidOrder(order) && f.shape.Repeated?
      ensures c == SetContent(env, order, path, f, prev, v)
      decreases v, 5, 0
    {
      if !v.Table? {
        return None;
      }
      var len := SignedWrap(env.len(path, v.t), 0x8000_0000);
      ghost var count := ElementCount(env.len(path, v.t));
      var vs := OldElements(prev);
      var index := 1;
      while index <= len
        invariant 1 <= index <= count + 1
        invariant AddElements(env, order, path, f.kind, OldElements(prev), v, index - 1) == Some(vs)
      {
        var u: Option<Value> := FromNil(env.lib, f.kind);
        if KInt(index) in v.t {
          u := AddToRepeatedField(path + [KInt(index)], f.kind, v.t[KInt(index)]);
        }
        if u.None? {
          ElementsFail(path, f.kind, OldElements(prev), v, index, count);
          return None;
        }
        vs := vs + [u.value];
        index := index + 1;
      }
      return Some(Many(vs));
    }

    lemma {:induction false} ElementsFail(path: Path, kind: Kind, vs: seq<Value>, v: Lua, at: Size, len: Size)
      requires v.Table? && ValidOrder(order) && at <= len
      requires AddElements(env, order, path, kind, vs, v, at).None?
      ensures AddElements(env, order, path, kind, vs, v, len).None?
      decreases len
    {
      if at < len {
        ElementsFail(path, kind, vs, v, at, len - 1);
      }
    }

    method SetRepeatedMapField(path: Path, f: Field, prev: Option<Content>, v: Lua) returns (c: Option<Content>)
      requires ValidOrder(order) && f.shape.MapOf?
      ensures c == SetContent(env, order, path, f, prev, v)
      decreases v, 5, 0
    {
      if !v.Table? {
        return None;
      }
      var keys := order(path, v.t);
      var d := OldEntries(prev);
      var i := 0;
      while i < |keys|
        invariant 0 <= i <= |keys|
        invariant forall k <- keys[i..] :: k in v.t
        invariant AddEntries(env, order, path, f.shape.key, f.kind, OldEntries(prev), v, keys) ==
                  AddEntries(env, order, path, f.shape.key, f.kind, d, v, keys[i..])
      {
        assert keys[i..][0] == keys[i] && keys[i..][1..] == keys[i + 1..];
        assert keys[i] in v.t;
        var e := AddToMapField(path + [keys[i]], f, d, keys[i], v.t[keys[i]]);
        if e.None? {
          return None;
        }
        d := e.value;
        i := i + 1;
      }
      return Some(Dict(d));
    }

    /** A new map entry: its key is set, then its value. */
    method AddToMapField(path: Path, f: Field, d: map<Scalar, Value>, k: Key, v: Lua)
      returns (e: Option<map<Scalar, Value>>)
      requires ValidOrder(order) && f.shape.MapOf?
      ensures var key := PullKey(env.lib, f.shape.key, k);
              var value := NewValue(env, order, path, f.kind, v);
              e == if key.Some? && value.Some? then Some(d[key.value := value.value]) else None
      decreases v, 5, 1
    {
      var key := PullKey(env.lib, f.shape.key, k);
      if key.None? {
        return None;
      }
      var value := AddToRepeatedField(path, f.kind, v);
      return if value.Some? then Some(d[key.value := value.value]) else None;
    }

    /** One new element, or the value of a new map entry. */
    method AddToRepeatedField(path: Path, kind: Kind, v: Lua) returns (u: Option<Value>)
      requires ValidOrder(order)
      ensures u == NewValue(env, order, path, kind, v)
      decreases v, 5, 0
    {
      if kind.MessageK? {
        if !v.Table? {
          return None;
        }
        var sub := new MessageSetter(env, order, kind.typ, Fresh(env.schema, kind.typ));
        var ok := sub.SetMsg(path, v);
        return if ok then Some(Sub(sub.msg)) else None;
      }
      var sc := Pull(env.lib, kind, v);
      return if sc.Some? then Some(Sc(sc.value)) else None;
    }
  }

  class MsgToTbl {
    const env: Env
    const ty: string
    const msg: Msg

    constructor (env: Env, ty: string, msg: Msg)
      ensures this.env == env && this.ty == ty && this.msg == msg
    {
      this.env, this.ty, this.msg := env, ty, msg;
    }

    /** Assigning nil to a table entry leaves it out. */
    function Assign(tbl: map<Key, Lua>, key: Key, v: Lua): map<Key, Lua> {
      if v.Nil? then tbl - {key} else tbl[key := v]
    }

    /** The entries for those of the names that the message holds. */
    ghost function EntriesOf(names: set<string>): map<Key, Lua>
      requires D.WellFormed(env.schema, ty, msg)
    {
      map n | n in names && n in msg.fields :: KStr(n) := D.GetField(env, FieldsOf(env.schema, ty)[n], msg.fields[n])
    }

    lemma AddEntry(names: set<string>, n: string, v: Lua)
      requires D.WellFormed(env.schema, ty, msg)
      requires n in msg.fields ==> v == D.GetField(env, FieldsOf(env.schema, ty)[n], msg.fields[n]) && !v.Nil?
      requires n !in msg.fields ==> v == Nil
      requires n !in names
      ensures EntriesOf(names + {n}) == Assign(EntriesOf(names), KStr(n), v)
    {
      hide D.GetField, D.WellFormed;
    }

    lemma AllEntriesAreToTbl()
      requires D.WellFormed(env.schema, ty, msg)
      ensures Table(EntriesOf(msg.fields.Keys)) == D.ToTbl(env, ty, msg)
    {
      hide D.GetField, D.ToTbl;
      D.ToTblOfWellFormed(env, ty, msg);
      assert EntriesOf(msg.fields.Keys) == D.ToTbl(env, ty, msg).t;
    }

    /** The names of fs in or outside the given oneofs. */
    ghost function Plain(names: set<string>): set<string> {
      set n | n in names && n in FieldsOf(env.schema, ty) && FieldsOf(env.schema, ty)[n].oneof.None?
    }

    ghost function Members(oneofs: set<string>): set<string> {
      set n | n in FieldsOf(env.schema, ty) && FieldsOf(env.schema, ty)[n].oneof.Some? &&
              FieldsOf(env.schema, ty)[n].oneof.value in oneofs
    }

    method ToTbl() returns (tbl: Lua)
      requires ValidSchema(env.schema) && env.lib.Valid() && D.WellFormed(env.schema, ty, msg)
      ensures tbl == D.ToTbl(env, ty, msg)
      decreases msg, 2
    {
      var t, oneofs := PlainFields();
      t := OneofFields(t, oneofs);
      AllEntriesAreToTbl();
      tbl := Table(t);
    }

    /** The first loop: fields outside oneofs are written, oneofs are remembered. */
    method PlainFields() returns (t: map<Key, Lua>, oneofs: set<string>)
      requires ValidSchema(env.schema) && env.lib.Valid() && D.WellFormed(env.schema, ty, msg)
      ensures t == EntriesOf(Plain(FieldsOf(env.schema, ty).Keys))
      ensures forall n <- FieldsOf(env.schema, ty) ::
                FieldsOf(env.schema, ty)[n].oneof.Some? ==> FieldsOf(env.schema, ty)[n].oneof.value in oneofs
      decreases msg, 1
    {
      hide D.GetField, EntriesOf, Assign;
      var fs := FieldsOf(env.schema, ty);
      t, oneofs := map[], {};
      var names := fs.Keys;
      assert EntriesOf({}) == map[] by { NoEntries(); }
      assert Plain(fs.Keys - names) == {};
      while names != {}
        invariant names <= fs.Keys
        invariant t == EntriesOf(Plain(fs.Keys - names))
        invariant forall n <- fs.Keys - names :: fs[n].oneof.Some? ==> fs[n].oneof.value in oneofs
        decreases |names|
      {
        var n :| n in names;
        if fs[n].oneof.Some? {
          oneofs := oneofs + {fs[n].oneof.value};
          assert Plain(fs.Keys - (names - {n})) == Plain(fs.Keys - names);
        } else {
          var v := GetField(n);
          AddEntry(Plain(fs.Keys - names), n, v);
          assert Plain(fs.Keys - (names - {n})) == Plain(fs.Keys - names) + {n};
          t := Assign(t, KStr(n), v);
        }
        names := names - {n};
      }
      assert fs.Keys - {} == fs.Keys;
    }

    lemma NoEntries()
      requires D.WellFormed(env.schema, ty, msg)
      ensures EntriesOf({}) == map[]
    {
    }

    /** The second loop: of each oneof the member that is set. */
    method OneofFields(plain: map<Key, Lua>, oneofs: set<string>) returns (t: map<Key, Lua>)
      requires ValidSchema(env.schema) && env.lib.Valid() && D.WellFormed(env.schema, ty, msg)
      requires plain == EntriesOf(Plain(FieldsOf(env.schema, ty).Keys))
      requires forall n <- FieldsOf(env.schema, ty) ::
                 FieldsOf(env.schema, ty)[n].oneof.Some? ==> FieldsOf(env.schema, ty)[n].oneof.value in oneofs
      ensures t == EntriesOf(msg.fields.Keys)
      decreases msg, 1
    {
      hide D.GetField, EntriesOf, Assign, D.WellFormedContent;
      var fs := FieldsOf(env.schema, ty);
      t := plain;
      var rest := oneofs;
      ghost var done := Plain(fs.Keys);
      while rest != {}
        invariant rest <= oneofs && t == EntriesOf(done)
        invariant forall n <- done :: n in fs && (fs[n].oneof.None? || fs[n].oneof.value !in rest)
        invariant forall n <- fs :: n in msg.fields && n !in done ==> fs[n].oneof.Some? && fs[n].oneof.value in rest
        decreases |rest|
      {
        var o :| o in rest;
        var member := OneofMember(o);
        if member.Some? {
          var v := GetField(member.value);
          AddEntry(done, member.value, v);
          done := done + {member.value};
          t := Assign(t, KStr(member.value), v);
        }
        rest := rest - {o};
      }
      SameEntries(done);
    }

    lemma SameEntries(names: set<string>)
      requires D.WellFormed(env.schema, ty, msg) && msg.fields.Keys <= names
      ensures EntriesOf(names) == EntriesOf(msg.fields.Keys)
    {
    }

    /** The set member of a oneof. */
    method OneofMember(o: string) returns (member: Option<string>)
      requires D.WellFormed(env.schema, ty, msg)
      ensures match member
              case Some(n) => n in msg.fields && n in FieldsOf(env.schema, ty) &&
                              FieldsOf(env.schema, ty)[n].oneof == Some(o)
              case None => forall n <- msg.fields :: FieldsOf(env.schema, ty)[n].oneof != Some(o)
    {
      var fs := FieldsOf(env.schema, ty);
      var names := msg.fields.Keys;
      while names != {}
        invariant names <= msg.fields.Keys
        invariant forall n <- msg.fields.Keys - names :: fs[n].oneof != Some(o)
        decreases |names|
      {
        var n :| n in names;
        if fs[n].oneof == Some(o) {
          return Some(n);
        }
        names := names - {n};
      }
      return None;
    }

    method GetField(n: string) returns (v: Lua)
      requires ValidSchema(env.schema) && env.lib.Valid() && D.WellFormed(env.schema, ty, msg)
      requires n in FieldsOf(env.schema, ty)
      requires n in msg.fields || FieldsOf(env.schema, ty)[n].oneof.None?
      ensures if n in msg.fields then v == D.GetField(env, FieldsOf(env.schema, ty)[n], msg.fields[n]) && !v.Nil?
              else v == Nil
      decreases msg, 0
    {
      var f := FieldsOf(env.schema, ty)[n];
      if n !in msg.fields {
        return Nil;
      }
      var c := msg.fields[n];
      match f.shape {
        case Singular => v := GetValue(f.kind, c.v);
        case Repeated => v := GetRepeatedField(f, c);
        case MapOf(_) => v := GetMapField(f, c);
      }
    }

    method GetValue(kind: Kind, u: Value) returns (v: Lua)
      requires ValidSchema(env.schema) && env.lib.Valid() && D.WellFormedValue(env.schema, kind, u)
      ensures v == D.GetValue(env, kind, u) && !v.Nil?
      decreases u, 2
    {
      match u {
        case Sc(sc) => v := Push(env.lib, sc);
        case Sub(m) =>
          var sub := new MsgToTbl(env, kind.typ, m);
          v := sub.ToTbl();
      }
    }

    method GetRepeatedField(f: Field, c: Content) returns (v: Lua)
      requires ValidSchema(env.schema) && env.lib.Valid()
      requires f.shape.Repeated? && D.WellFormedContent(env.schema, f, c)
      ensures v == D.GetField(env, f, c)
      decreases c, 3
    {
      hide D.GetValue, D.WellFormedValue;
      var t: map<Key, Lua> := map[];
      for index := 0 to |c.vs|
        invariant t.Keys == D.IndexKeys(index)
        invariant forall k <- t :: t[k] == D.GetValue(env, f.kind, c.vs[k.i - 1])
      {
        var u := GetValue(f.kind, c.vs[index]);
        t := Assign(t, KInt(index + 1), u);
      }
      assert t == D.GetField(env, f, c).t;
      v := Table(t);
    }

    /** t holds the entries of the map field under the keys done. */
    ghost predicate HoldsEntries(t: map<Key, Lua>, f: Field, c: Content, done: set<Scalar>)
      requires c.Dict? && done <= c.d.Keys
    {
      && t.Keys == D.PushedKeys(done)
      && forall sc <- done :: t[PushKey(sc)] == D.GetValue(env, f.kind, c.d[sc])
    }

    lemma HoldsOneMore(t: map<Key, Lua>, f: Field, c: Content, done: set<Scalar>, sc: Scalar, u: Lua)
      requires env.lib.Valid() && f.shape.MapOf? && IsKeyKind(f.shape.key) && D.WellFormedContent(env.schema, f, c)
      requires sc in c.d && done <= c.d.Keys && sc !in done && HoldsEntries(t, f, c, done)
      requires u == D.GetValue(env, f.kind, c.d[sc]) && !u.Nil?
      ensures HoldsEntries(Assign(t, PushKey(sc), u), f, c, done + {sc})
    {
      hide D.GetValue, D.PushedKeys, D.WellFormedValue, PushKey, PullKey, HasKind;
      D.PushedKeysAdd(done, sc);
      forall other <- done
        ensures PushKey(other) != PushKey(sc)
      {
        if PushKey(other) == PushKey(sc) {
          D.PushIsInjective(env.lib, f.shape.key, other, sc);
        }
      }
    }

    lemma MapFieldEntries(f: Field, c: Content)
      requires f.shape.MapOf? && D.WellFormedContent(env.schema, f, c)
      ensures c.Dict? && HoldsEntries(map[], f, c, {})
      ensures forall sc <- c.d :: D.WellFormedValue(env.schema, f.kind, c.d[sc])
    {
      hide D.WellFormedValue, HasKind, PushKey;
      D.PushedKeysAdd({}, VInt(0));
    }

    method GetMapField(f: Field, c: Content) returns (v: Lua)
      requires ValidSchema(env.schema) && env.lib.Valid()
      requires f.shape.MapOf? && IsKeyKind(f.shape.key) && D.WellFormedContent(env.schema, f, c)
      ensures v == D.GetField(env, f, c)
      decreases c, 3
    {
      hide D.GetField, D.GetValue, D.WellFormedValue, D.WellFormedContent, HasKind, PushKey, Assign, HoldsEntries;
      MapFieldEntries(f, c);
      var t: map<Key, Lua> := map[];
      var keys := c.d.Keys;
      ghost var done: set<Scalar> := {};
      while keys != {}
        invariant done <= c.d.Keys && keys == c.d.Keys - done
        invariant HoldsEntries(t, f, c, done)
        decreases |keys|
      {
        var sc :| sc in keys;
        var u := GetValue(f.kind, c.d[sc]);
        HoldsOneMore(t, f, c, done, sc, u);
        t := Assign(t, PushKey(sc), u);
        keys, done := keys - {sc}, done + {sc};
      }
      assert done == c.d.Keys;
      EntriesAreGetField(t, f, c);
      v := Table(t);
    }

    lemma EntriesAreGetField(t: map<Key, Lua>, f: Field, c: Content)
      requires env.lib.Valid() && f.shape.MapOf? && IsKeyKind(f.shape.key) && D.WellFormedContent(env.schema, f, c)
      requires HoldsEntries(t, f, c, c.d.Keys)
      ensures Table(t) == D.GetField(env, f, c)
    {
      hide D.GetField, D.GetValue, D.WellFormedValue, HasKind;
      D.DictTable(env, f, c, t);
    }
  }
}
