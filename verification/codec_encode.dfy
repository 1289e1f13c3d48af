/**
 Filling a protobuf message from a Lua table (MessageSetter). A table is walked
 in an order Lua chooses freely for every table it meets; the order and the
 length Lua reports for a table with holes are parameters, given the path of
 keys that leads to the table.
 */
module CodecEncode {
  import opened Common
  import opened CodecValues

  type Path = seq<Key>

  /** next-order of the table at a path, and the # operator on it. */
  type Order = (Path, map<Key, Lua>) -> seq<Key>
  type Size = n: nat | n < 0x8000_0000_0000_0000
  type Length = (Path, map<Key, Lua>) -> Size

  datatype Env = Env(schema: Schema, lib: LuaLib, len: Length)

  ghost predicate Distinct(keys: seq<Key>) {
    forall i, j :: 0 <= i < j < |keys| ==> keys[i] != keys[j]
  }

  /** Iteration visits every key once. */
  ghost predicate ValidOrder(order: Order) {
    forall path, t ::
      Distinct(order(path, t)) && (forall k :: k in order(path, t) <==> k in t)
  }

  /** n is a border of t: the last index before a missing one. */
  predicate IsBorder(t: map<Key, Lua>, n: Size) {
    && (n == 0 || KInt(n) in t)
    && (n + 1 < 0x8000_0000_0000_0000 ==> KInt(n + 1) !in t)
  }

  ghost predicate ValidEnv(env: Env) {
    && ValidSchema(env.schema)
    && env.lib.Valid()
    && forall path, t :: IsBorder(t, env.len(path, t))
  }

  /** The length is kept in an int: cut to 32 bits, and a negative one counts no element. */
  function ElementCount(n: Size): (count: Size)
    ensures count < 0x8000_0000
    ensures n < 0x8000_0000 ==> count == n
  {
    var len := SignedWrap(n, 0x8000_0000);
    if len < 0 then 0 else len
  }

  /** The sub-message to fill: the one that is there, or a new one. */
  function OldSub(env: Env, ty: string, prev: Option<Content>): Msg {
    if prev.Some? && prev.value.One? && prev.value.v.Sub? then prev.value.v.m else Fresh(env.schema, ty)
  }

  function OldElements(prev: Option<Content>): seq<Value> {
    if prev.Some? && prev.value.Many? then prev.value.vs else []
  }

  function OldEntries(prev: Option<Content>): map<Scalar, Value> {
    if prev.Some? && prev.value.Dict? then prev.value.d else map[]
  }

  function ContentAt(m: Msg, name: string): Option<Content> {
    if name in m.fields then Some(m.fields[name]) else None
  }

  /** Setting a oneof member clears the other members of its oneof. */
  function Put(fs: Fields, m: Msg, name: string, c: Content): Msg
    requires name in fs
  {
    Msg((map n | n in m.fields && !SharesOneof(fs, n, name) :: m.fields[n])[name := c])
  }

  predicate SharesOneof(fs: Fields, a: string, b: string) {
    a != b && a in fs && b in fs && fs[a].oneof.Some? && fs[a].oneof == fs[b].oneof
  }

  // ---- The walk ----

  /** SetMsg: all the entries of a table, in its order; None stands for the exception. */
  ghost function SetMsg(env: Env, order: Order, path: Path, ty: string, m: Msg, v: Lua): Option<Msg>
    requires v.Table? && ValidOrder(order)
    decreases v, 3, 0
  {
    SetKeys(env, order, path, ty, m, v, order(path, v.t))
  }

  ghost function SetKeys(
    env: Env, order: Order, path: Path, ty: string, m: Msg, v: Lua, keys: seq<Key>): Option<Msg>
    requires v.Table? && ValidOrder(order) && forall k <- keys :: k in v.t
    decreases v, 2, |keys|
  {
    if keys == [] then Some(m)
    else if !keys[0].KStr? then SetKeys(env, order, path, ty, m, v, keys[1..])
    else
      match SetField(env, order, path, ty, m, keys[0].s, v.t[keys[0]])
      case None => None
      case Some(n) => SetKeys(env, order, path, ty, n, v, keys[1..])
  }

  ghost function SetField(
    env: Env, order: Order, path: Path, ty: string, m: Msg, name: string, v: Lua): Option<Msg>
    requires ValidOrder(order)
    decreases v, 6, 0
  {
    var fs := FieldsOf(env.schema, ty);
    if name !in fs then None
    else
      match SetContent(env, order, path + [KStr(name)], fs[name], ContentAt(m, name), v)
      case None => None
      case Some(c) => Some(Put(fs, m, name, c))
  }

  ghost function SetContent(
    env: Env, order: Order, path: Path, f: Field, prev: Option<Content>, v: Lua): Option<Content>
    requires ValidOrder(order)
    decreases v, 5, 0
  {
    match f.shape
    case Singular =>
      if f.kind.MessageK? then
        if !v.Table? then None
        else
          match SetMsg(env, order, path, f.kind.typ, OldSub(env, f.kind.typ, prev), v)
          case None => None
          case Some(m) => Some(One(Sub(m)))
      else (match Pull(env.lib, f.kind, v) case None => None case Some(sc) => Some(One(Sc(sc))))
    case Repeated =>
      if !v.Table? then None
      else
        (match AddElements(env, order, path, f.kind, OldElements(prev), v, ElementCount(env.len(path, v.t)))
         case None => None
         case Some(vs) => Some(Many(vs)))
    case MapOf(keyKind) =>
      if !v.Table? then None
      else
        (match AddEntries(env, order, path, keyKind, f.kind, OldEntries(prev), v, order(path, v.t))
         case None => None
         case Some(d) => Some(Dict(d)))
  }

  /** Reading nil as one element: most kinds refuse it. */
  function FromNil(lib: LuaLib, kind: Kind): Option<Value> {
    match Pull(lib, kind, Nil)
    case None => None
    case Some(sc) => Some(Sc(sc))
  }

  /** The elements at 1 .. n are appended in that order. */
  ghost function AddElements(
    env: Env, order: Order, path: Path, kind: Kind, vs: seq<Value>, v: Lua, n: Size): Option<seq<Value>>
    requires v.Table? && ValidOrder(order)
    decreases v, 2, n
  {
    if n == 0 then Some(vs)
    else
      match AddElements(env, order, path, kind, vs, v, n - 1)
      case None => None
      case Some(us) =>
        match (if KInt(n) in v.t then NewValue(env, order, path + [KInt(n)], kind, v.t[KInt(n)])
               else FromNil(env.lib, kind))
        case None => None
        case Some(u) => Some(us + [u])
  }

  /** Each entry is a new map-entry message with a key and a value; a later one replaces an equal key. */
  ghost function AddEntries(
    env: Env, order: Order, path: Path, keyKind: Kind, kind: Kind, d: map<Scalar, Value>, v: Lua,
    keys: seq<Key>): Option<map<Scalar, Value>>
    requires v.Table? && ValidOrder(order) && forall k <- keys :: k in v.t
    decreases v, 2, |keys|
  {
    if keys == [] then Some(d)
    else
      match PullKey(env.lib, keyKind, keys[0])
      case None => None
      case Some(key) =>
        match NewValue(env, order, path + [keys[0]], kind, v.t[keys[0]])
        case None => None
        case Some(value) => AddEntries(env, order, path, keyKind, kind, d[key := value], v, keys[1..])
  }

  /** One element of a repeated field or one map value; a sub-message starts fresh. */
  ghost function NewValue(env: Env, order: Order, path: Path, kind: Kind, v: Lua): Option<Value>
    requires ValidOrder(order)
    decreases v, 5, 0
  {
    if kind.MessageK? then
      if !v.Table? then None
      else
        match SetMsg(env, order, path, kind.typ, Fresh(env.schema, kind.typ), v)
        case None => None
        case Some(m) => Some(Sub(m))
    else
      match Pull(env.lib, kind, v)
      case None => None
      case Some(sc) => Some(Sc(sc))
  }
}
