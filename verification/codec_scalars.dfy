/**
 Which Lua values a scalar field takes, and what it then holds. Said as a
 relation: a string or number is read as Lua reads it, an integer is kept modulo
 the width of the field, anything but nil and false is true.
 */
module CodecScalars {
  import opened Common
  import opened CodecValues
  import opened CodecEncode
  import opened CodecReference
  import opened CodecOrder
  import D = CodecDecode

  // ---- The relation ----

  predicate ReadsAsNumber(lib: LuaLib, v: Lua, d: Double) {
    || v == Num(d)
    || (v.Int? && lib.intToNum(v.i) == d)
    || (v.Str? && lib.strToNum(v.s) == Some(d))
  }

  predicate ReadsAsInteger(lib: LuaLib, v: Lua, i: LuaInt) {
    || v == Int(i)
    || (v.Num? && lib.numToInt(v.d) == Some(i))
    || (v.Str? && lib.strToInt(v.s) == Some(i))
  }

  predicate ReadsAsString(lib: LuaLib, v: Lua, s: string) {
    || v == Str(s)
    || (v.Int? && lib.intToStr(v.i) == s)
    || (v.Num? && lib.numToStr(v.d) == s)
  }

  /** n is in a range of the given size and congruent to i modulo that size. */
  predicate IsModulo(n: int, i: int, lo: int, size: int)
    requires size > 0
  {
    lo <= n < lo + size && (n - i) % size == 0
  }

  /** An integer kind keeps n of the Lua integer i. */
  predicate Keeps(kind: Kind, i: LuaInt, n: int) {
    match kind
    case UInt32 => IsModulo(n, i, 0, 0x1_0000_0000)
    case UInt64 => IsModulo(n, i, 0, 0x1_0000_0000_0000_0000)
    case Int64 => n == i
    case _ => IsModulo(n, i, -0x8000_0000, 0x1_0000_0000)
  }

  ghost predicate TakenAsInteger(lib: LuaLib, kind: Kind, v: Lua, x: Scalar) {
    x.VInt? && exists i :: ReadsAsInteger(lib, v, i) && Keeps(kind, i, x.i)
  }

  /** A field of this kind, given v, holds x. */
  ghost predicate TakenAs(lib: LuaLib, kind: Kind, v: Lua, x: Scalar) {
    match kind
    case DoubleK => x.VDouble? && ReadsAsNumber(lib, v, x.d)
    case FloatK => x.VFloat? && exists d :: ReadsAsNumber(lib, v, d) && x.f == lib.toFloat(d)
    case BoolK => x == VBool(!(v == Nil || v == Bool(false)))
    case StringK => x.VStr? && ReadsAsString(lib, v, x.s)
    case EnumK(names) => if v.Str? && v.s in names then x == VInt(names[v.s]) else TakenAsInteger(lib, kind, v, x)
    case MessageK(_) => false
    case _ => TakenAsInteger(lib, kind, v, x)
  }

  // ---- The conversions meet it ----

  lemma WrapsAreKept(i: LuaInt, n: int)
    ensures Keeps(UInt32, i, n) <==> n == Wrap(i, 0x1_0000_0000)
    ensures Keeps(UInt64, i, n) <==> n == Wrap(i, 0x1_0000_0000_0000_0000)
    ensures Keeps(Int32, i, n) <==> n == SignedWrap(i, 0x8000_0000)
  {
  }

  lemma IntegerIsTakenAs(lib: LuaLib, kind: Kind, v: Lua, x: Scalar)
    requires kind.Int32? || kind.Int64? || kind.UInt32? || kind.UInt64? || kind.EnumK?
    ensures PullInt(lib, kind, v) == Some(x) <==> TakenAsInteger(lib, kind, v, x)
  {
    if x.VInt? {
      forall i: LuaInt
        ensures Keeps(kind, i, x.i) <==> PullInt(lib, kind, Int(i)) == Some(x)
      {
        WrapsAreKept(i, x.i);
      }
      var i := CheckInteger(lib, v);
      assert i.Some? ==> ReadsAsInteger(lib, v, i.value);
      assert forall j: LuaInt :: ReadsAsInteger(lib, v, j) ==> i == Some(j);
      hide Wrap, SignedWrap, Keeps;
    }
  }

  /** The conversion takes exactly the values the relation takes, and gives what the relation says. */
  lemma PullIsTakenAs(lib: LuaLib, kind: Kind, v: Lua, x: Scalar)
    ensures Pull(lib, kind, v) == Some(x) <==> TakenAs(lib, kind, v, x)
  {
    if kind.FloatK? {
      var d := CheckNumber(lib, v);
      assert d.Some? ==> ReadsAsNumber(lib, v, d.value);
      assert forall e :: ReadsAsNumber(lib, v, e) ==> d == Some(e);
    } else if !kind.DoubleK? && !kind.BoolK? && !kind.StringK? && !kind.MessageK? {
      hide PullInt, TakenAsInteger;
      IntegerIsTakenAs(lib, kind, v, x);
    }
  }

  // ---- What a message then holds ----

  predicate IsScalarField(f: Field) {
    f.shape.Singular? && !f.kind.MessageK?
  }

  /** A singular scalar field is set exactly by the values it takes, and holds what it takes them as. */
  lemma ScalarField(env: Env, order: Order, path: Path, ty: string, m: Msg, name: string, v: Lua, x: Scalar)
    requires ValidOrder(order)
    requires ty in env.schema && name in env.schema[ty] && IsScalarField(env.schema[ty][name])
    ensures var r := SetField(env, order, path, ty, m, name, v);
            r.Some? && ContentAt(r.value, name) == Some(One(Sc(x))) <==>
            TakenAs(env.lib, env.schema[ty][name].kind, v, x)
  {
    hide Pull, TakenAs;
    PullIsTakenAs(env.lib, env.schema[ty][name].kind, v, x);
  }

  /** The same for a table given to SetMsg, in any order and into any message: each of its scalars. */
  lemma ScalarOfMessage(env: Env, order: Order, path: Path, ty: string, m: Msg, v: Lua, name: string, x: Scalar)
    requires v.Table? && ValidOrder(order) && SetMsg(env, order, path, ty, m, v).Some?
    requires NoOneofClash(FieldsOf(env.schema, ty), v.t)
    requires ty in env.schema && name in env.schema[ty] && IsScalarField(env.schema[ty][name]) && KStr(name) in v.t
    ensures ContentAt(SetMsg(env, order, path, ty, m, v).value, name) == Some(One(Sc(x))) <==>
            TakenAs(env.lib, env.schema[ty][name].kind, v.t[KStr(name)], x)
  {
    hide Pull, TakenAs, SetMsg, NoOneofClash, ValidOrder;
    FieldIsItsContent(env, order, path, ty, m, v, name);
    PullIsTakenAs(env.lib, env.schema[ty][name].kind, v.t[KStr(name)], x);
  }

  /** A table with a scalar that its field does not take is refused. */
  lemma UntakenScalarIsRefused(env: Env, order: Order, path: Path, ty: string, m: Msg, v: Lua, name: string)
    requires v.Table? && ValidOrder(order)
    requires ty in env.schema && name in env.schema[ty] && IsScalarField(env.schema[ty][name]) && KStr(name) in v.t
    requires forall x :: !TakenAs(env.lib, env.schema[ty][name].kind, v.t[KStr(name)], x)
    ensures SetMsg(env, order, path, ty, m, v).None?
  {
    hide Pull, TakenAs, SetMsg, ValidOrder;
    var f := env.schema[ty][name];
    SetMsgSucceedsIff(env, order, path, ty, m, v);
    if Pull(env.lib, f.kind, v.t[KStr(name)]).Some? {
      PullIsTakenAs(env.lib, f.kind, v.t[KStr(name)], Pull(env.lib, f.kind, v.t[KStr(name)]).value);
    }
    assert !AcceptsContent(env, path + [KStr(name)], f, v.t[KStr(name)]);
  }

  /** Elements of repeated fields and values of map entries are taken alike, and a hole is taken as nil. */
  lemma ElementIsTakenAs(env: Env, order: Order, path: Path, kind: Kind, v: Lua, x: Scalar)
    requires ValidOrder(order) && !kind.MessageK?
    ensures NewValue(env, order, path, kind, v) == Some(Sc(x)) <==> TakenAs(env.lib, kind, v, x)
    ensures FromNil(env.lib, kind) == Some(Sc(x)) <==> TakenAs(env.lib, kind, Nil, x)
  {
    hide Pull, TakenAs;
    PullIsTakenAs(env.lib, kind, v, x);
    PullIsTakenAs(env.lib, kind, Nil, x);
  }

  /** A table key as the Lua value it is. */
  predicate IsValueOf(v: Lua, k: Key) {
    match k
    case KInt(i) => v == Int(i)
    case KStr(s) => v == Str(s)
    case KBool(b) => v == Bool(b)
    case KNum(d) => v == Num(d)
    case KOther(id) => v == Other(id)
  }

  /** So are the keys of map fields. */
  lemma MapKeyIsTakenAs(lib: LuaLib, kind: Kind, k: Key, v: Lua, x: Scalar)
    requires IsValueOf(v, k)
    ensures PullKey(lib, kind, k) == Some(x) <==> TakenAs(lib, kind, v, x)
  {
    PullIsTakenAs(lib, kind, v, x);
  }

  /** Which shapes of Lua value which kinds take. */
  lemma WhichShapesAreTaken(lib: LuaLib, kind: Kind, v: Lua)
    requires !kind.MessageK?
    ensures var taken := exists x :: TakenAs(lib, kind, v, x);
            match v
            case Int(_) => taken
            case Num(d) =>
              taken <==> kind.DoubleK? || kind.FloatK? || kind.BoolK? || kind.StringK? || lib.numToInt(d).Some?
            case Str(s) =>
              taken <==>
                || kind.BoolK? || kind.StringK? || (kind.EnumK? && s in kind.names)
                || (if kind.DoubleK? || kind.FloatK? then lib.strToNum(s).Some? else lib.strToInt(s).Some?)
            case _ => taken <==> kind.BoolK?
  {
    if Pull(lib, kind, v).Some? {
      PullIsTakenAs(lib, kind, v, Pull(lib, kind, v).value);
    }
    forall x
      ensures Pull(lib, kind, v) == Some(x) <==> TakenAs(lib, kind, v, x)
    {
      PullIsTakenAs(lib, kind, v, x);
    }
  }

  // ---- What Lua is shown ----

  /** Integers of 64 bits are shown modulo 2^64, floats widened, anything else as it is. */
  predicate ShownAs(lib: LuaLib, x: Scalar, v: Lua) {
    match x
    case VInt(i) => v.Int? && (v.i - i) % 0x1_0000_0000_0000_0000 == 0
    case VDouble(d) => v == Num(d)
    case VFloat(f) => v == Num(lib.ofFloat(f))
    case VBool(b) => v == Bool(b)
    case VStr(s) => v == Str(s)
  }

  lemma PushIsShownAs(lib: LuaLib, x: Scalar)
    ensures ShownAs(lib, x, Push(lib, x))
  {
  }

  /** What a field of a message that was never set shows, if it shows anything. */
  predicate ShownUnset(lib: LuaLib, f: Field, v: Lua) {
    if !f.shape.Singular? then v == Table(map[])
    else
      match f.kind
      case DoubleK => v == Num(Double(0))
      case FloatK => v == Num(lib.ofFloat(Float(0)))
      case BoolK => v == Bool(false)
      case StringK => v == Str("")
      case _ => v == Int(0)
  }

  /** A new message shows zeros, empty strings and empty tables; no unset oneof member and no unset sub-message. */
  lemma NewMessageShows(env: Env, ty: string, name: string)
    requires ValidSchema(env.schema) && name in FieldsOf(env.schema, ty)
    ensures var f := FieldsOf(env.schema, ty)[name];
            var w := D.ToTbl(env, ty, Fresh(env.schema, ty));
            if f.shape.Singular? && (f.oneof.Some? || f.kind.MessageK?) then KStr(name) !in w.t
            else KStr(name) in w.t && ShownUnset(env.lib, f, w.t[KStr(name)])
  {
  }
}
