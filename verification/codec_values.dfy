/**
 Protobuf messages, Lua values, and the scalar conversions between them
 (LuaType.h). A schema maps a message type to its fields, so message types may
 refer to each other and to themselves. Doubles and floats are opaque tokens;
 what Lua does to turn numbers and strings into one another is a parameter.
 */
module CodecValues {
  import opened Common

  // ---- Lua ----

  type LuaInt = i: int | -0x8000_0000_0000_0000 <= i < 0x8000_0000_0000_0000

  datatype Double = Double(bits: nat)
  datatype Float = Float(bits: nat)

  datatype Key = KInt(i: LuaInt) | KStr(s: string) | KBool(b: bool) | KNum(d: Double) | KOther(id: nat)

  datatype Lua =
    | Nil
    | Bool(b: bool)
    | Int(i: LuaInt)
    | Num(d: Double)
    | Str(s: string)
    | Table(t: map<Key, Lua>)
    | Other(id: nat)

  /** Lua's own conversions, and the cast between float and double. */
  datatype LuaLib = LuaLib(
    numToInt: Double -> Option<LuaInt>,
    strToInt: string -> Option<LuaInt>,
    intToNum: LuaInt -> Double,
    strToNum: string -> Option<Double>,
    intToStr: LuaInt -> string,
    numToStr: Double -> string,
    toFloat: Double -> Float,
    ofFloat: Float -> Double)
  {
    /** A float survives being widened to a double. */
    ghost predicate Valid() {
      forall f :: toFloat(ofFloat(f)) == f
    }
  }

  // ---- Protobuf ----

  datatype Kind =
    | Int32 | Int64 | UInt32 | UInt64 | DoubleK | FloatK | BoolK | StringK
    | EnumK(names: map<string, int>)
    | MessageK(typ: string)

  datatype Shape = Singular | Repeated | MapOf(key: Kind)

  datatype Field = Field(kind: Kind, shape: Shape, oneof: Option<string>)

  type Fields = map<string, Field>
  type Schema = map<string, Fields>

  datatype Scalar = VInt(i: int) | VDouble(d: Double) | VFloat(f: Float) | VBool(b: bool) | VStr(s: string)
  datatype Value = Sc(v: Scalar) | Sub(m: Msg)
  datatype Content = One(v: Value) | Many(vs: seq<Value>) | Dict(d: map<Scalar, Value>)

  /**
   A message holds the content of its fields by name. Singular scalars outside
   a oneof, repeated fields and map fields are always there (implicit
   presence); sub-messages and oneof members are there when they are set.
   */
  datatype Msg = Msg(fields: map<string, Content>)

  predicate InRange(lo: int, i: int, hi: int) {
    lo <= i < hi
  }

  predicate HasKind(v: Scalar, kind: Kind) {
    match kind
    case Int32 => v.VInt? && InRange(-0x8000_0000, v.i, 0x8000_0000)
    case Int64 => v.VInt? && InRange(-0x8000_0000_0000_0000, v.i, 0x8000_0000_0000_0000)
    case UInt32 => v.VInt? && InRange(0, v.i, 0x1_0000_0000)
    case UInt64 => v.VInt? && InRange(0, v.i, 0x1_0000_0000_0000_0000)
    case EnumK(_) => v.VInt? && InRange(-0x8000_0000, v.i, 0x8000_0000)
    case DoubleK => v.VDouble?
    case FloatK => v.VFloat?
    case BoolK => v.VBool?
    case StringK => v.VStr?
    case MessageK(_) => false
  }

  function Default(kind: Kind): Scalar {
    match kind
    case DoubleK => VDouble(Double(0))
    case FloatK => VFloat(Float(0))
    case BoolK => VBool(false)
    case StringK => VStr("")
    case _ => VInt(0)
  }

  /** Kinds protobuf allows as the key of a map field. */
  predicate IsKeyKind(kind: Kind) {
    kind.Int32? || kind.Int64? || kind.UInt32? || kind.UInt64? || kind.BoolK? || kind.StringK?
  }

  /** Map fields have proper keys, oneof members are singular, enum numbers fit. */
  ghost predicate ValidSchema(schema: Schema) {
    forall ty <- schema, name <- schema[ty] ::
      var f := schema[ty][name];
      && (f.shape.MapOf? ==> IsKeyKind(f.shape.key))
      && (f.oneof.Some? ==> f.shape.Singular?)
      && (f.kind.MessageK? ==> f.kind.typ in schema)
      && (f.kind.EnumK? ==> forall e <- f.kind.names :: InRange(-0x8000_0000, f.kind.names[e], 0x8000_0000))
  }

  function FieldsOf(schema: Schema, ty: string): Fields {
    if ty in schema then schema[ty] else map[]
  }

  /** Content of a field that has not been set, if it has any. */
  function DefaultContent(f: Field): Option<Content> {
    match f.shape
    case Repeated => Some(Many([]))
    case MapOf(_) => Some(Dict(map[]))
    case Singular => if f.oneof.Some? || f.kind.MessageK? then None else Some(One(Sc(Default(f.kind))))
  }

  function Fresh(schema: Schema, ty: string): Msg {
    var fs := FieldsOf(schema, ty);
    Msg(map name | name in fs && DefaultContent(fs[name]).Some? :: DefaultContent(fs[name]).value)
  }

  // ---- Scalar conversions ----

  function Wrap(i: int, bits: int): int
    requires bits > 0
  {
    i % bits
  }

  /** Two's complement reading of i modulo 2 * half. */
  function SignedWrap(i: int, half: int): int
    requires half > 0
  {
    (i + half) % (2 * half) - half
  }

  function CheckInteger(lib: LuaLib, v: Lua): Option<LuaInt> {
    match v
    case Int(i) => Some(i)
    case Num(d) => lib.numToInt(d)
    case Str(s) => lib.strToInt(s)
    case _ => None
  }

  function CheckNumber(lib: LuaLib, v: Lua): Option<Double> {
    match v
    case Num(d) => Some(d)
    case Int(i) => Some(lib.intToNum(i))
    case Str(s) => lib.strToNum(s)
    case _ => None
  }

  function CheckString(lib: LuaLib, v: Lua): Option<string> {
    match v
    case Str(s) => Some(s)
    case Int(i) => Some(lib.intToStr(i))
    case Num(d) => Some(lib.numToStr(d))
    case _ => None
  }

  function PullInt(lib: LuaLib, kind: Kind, v: Lua): Option<Scalar> {
    match CheckInteger(lib, v)
    case None => None
    case Some(i) =>
      match kind
      case Int64 => Some(VInt(i))
      case UInt32 => Some(VInt(Wrap(i, 0x1_0000_0000)))
      case UInt64 => Some(VInt(Wrap(i, 0x1_0000_0000_0000_0000)))
      case _ => Some(VInt(SignedWrap(i, 0x8000_0000)))
  }

  /** Reading a Lua value as a protobuf scalar; None stands for the Lua error. */
  function Pull(lib: LuaLib, kind: Kind, v: Lua): Option<Scalar> {
    match kind
    case DoubleK => (match CheckNumber(lib, v) case Some(d) => Some(VDouble(d)) case None => None)
    case FloatK => (match CheckNumber(lib, v) case Some(d) => Some(VFloat(lib.toFloat(d))) case None => None)
    case BoolK => Some(VBool(!v.Nil? && v != Bool(false)))
    case StringK => (match CheckString(lib, v) case Some(s) => Some(VStr(s)) case None => None)
    case EnumK(names) =>
      if v.Str? && v.s in names then Some(VInt(names[v.s])) else PullInt(lib, kind, v)
    case MessageK(_) => None
    case _ => PullInt(lib, kind, v)
  }

  /** Writing a protobuf scalar as a Lua value; unsigned 64-bit values wrap to Lua integers. */
  function Push(lib: LuaLib, v: Scalar): Lua {
    match v
    case VInt(i) => Int(SignedWrap(i, 0x8000_0000_0000_0000))
    case VDouble(d) => Num(d)
    case VFloat(f) => Num(lib.ofFloat(f))
    case VBool(b) => Bool(b)
    case VStr(s) => Str(s)
  }

  function KeyToLua(key: Key): Lua {
    match key
    case KInt(i) => Int(i)
    case KStr(s) => Str(s)
    case KBool(b) => Bool(b)
    case KNum(d) => Num(d)
    case KOther(id) => Other(id)
  }

  function PullKey(lib: LuaLib, kind: Kind, key: Key): Option<Scalar> {
    Pull(lib, kind, KeyToLua(key))
  }

  function PushKey(v: Scalar): Key {
    match v
    case VInt(i) => KInt(SignedWrap(i, 0x8000_0000_0000_0000))
    case VBool(b) => KBool(b)
    case VStr(s) => KStr(s)
    case VDouble(d) => KNum(d)
    case VFloat(f) => KOther(f.bits)
  }

  /** Wrapping to a signed integer and reading it back unsigned loses nothing. */
  lemma UnsignedSurvivesSigned(i: int)
    requires InRange(0, i, 0x1_0000_0000_0000_0000)
    ensures Wrap(SignedWrap(i, 0x8000_0000_0000_0000), 0x1_0000_0000_0000_0000) == i
  {
  }

  lemma PullAfterPush(lib: LuaLib, kind: Kind, v: Scalar)
    requires lib.Valid() && HasKind(v, kind)
    ensures Pull(lib, kind, Push(lib, v)) == Some(v)
  {
    if kind.UInt64? {
      UnsignedSurvivesSigned(v.i);
    }
  }

  lemma PullKeyAfterPushKey(lib: LuaLib, kind: Kind, v: Scalar)
    requires lib.Valid() && HasKind(v, kind) && IsKeyKind(kind)
    ensures PullKey(lib, kind, PushKey(v)) == Some(v)
  {
    PullAfterPush(lib, kind, v);
    assert KeyToLua(PushKey(v)) == Push(lib, v);
  }

  /** Whatever Lua value is read, the scalar has the field's kind. */
  lemma PullHasKind(lib: LuaLib, kind: Kind, v: Lua)
    requires kind.EnumK? ==> forall e <- kind.names :: InRange(-0x8000_0000, kind.names[e], 0x8000_0000)
    ensures Pull(lib, kind, v).Some? ==> HasKind(Pull(lib, kind, v).value, kind)
  {
  }
}
