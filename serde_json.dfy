/**
 * The serde_json backend (`src/impls/serde_json.rs`): `serde_json::Value` as
 * a node, with no metadata and plain `String` keys. Its number type
 * (`serde_json::Number`) is the type parameter N.
 */
module SerdeJson {
  import opened Wrappers
  import Maps
  import References
  import Values
  import JsonTrait

  /** `serde_json::Value`. */
  datatype Value<N> =
    | Null
    | Bool(b: bool)
    | Number(n: N)
    | String(s: string)
    | Array(a: seq<Value<N>>)
    | Object(o: Maps.Map<string, Value<N>>)
  {
    function Kind(): References.Kind {
      match this
      case Null => References.NullKind
      case Bool(_) => References.BoolKind
      case Number(_) => References.NumberKind
      case String(_) => References.StringKind
      case Array(_) => References.ArrayKind
      case Object(_) => References.ObjectKind
    }
  }

  /** The generic owned value over this backend, `Value<serde_json::Value>`. */
  type GenericValue<N> = Values.Value<N, string, Value<N>>

  /** The generic shared view over this backend, `ValueRef<serde_json::Value>`. */
  type GenericRef<N> = References.ValueRef<N, string, Value<N>>

  /** `metadata`: this backend attaches nothing. */
  function Metadata<N>(v: Value<N>): (m: ())
    ensures m == ()
  {
    ()
  }

  /** `From<serde_json::Value> for Value<serde_json::Value>`. */
  function IntoValue<N>(v: Value<N>): (r: GenericValue<N>)
    ensures r.Kind() == v.Kind()
    ensures r.AsBool() == (if v.Bool? then Some(v.b) else None)
    ensures r.AsNumber() == (if v.Number? then Some(v.n) else None)
    ensures r.AsStr() == (if v.String? then Some(v.s) else None)
    ensures r.AsObject() == (if v.Object? then Some(v.o) else None)
    ensures v.Array? ==> r == Values.Value.Array(v.a)
  {
    match v
    case Null => Values.Value.Null
    case Bool(b) => Values.Value.Bool(b)
    case Number(n) => Values.Value.Number(n)
    case String(s) => Values.Value.String(s)
    case Array(a) => Values.Value.Array(a)
    case Object(o) => Values.Value.Object(o)
  }

  /** `From<Value<serde_json::Value>> for serde_json::Value`: inverse of `IntoValue`. */
  function FromValue<N>(v: GenericValue<N>): (r: Value<N>)
    ensures IntoValue(r) == v
  {
    match v
    case Null => Value.Null
    case Bool(b) => Value.Bool(b)
    case Number(n) => Value.Number(n)
    case String(s) => Value.String(s)
    case Array(a) => Value.Array(a)
    case Object(o) => Value.Object(o)
  }

  /** `as_ref`: the view `as_value_ref` gives of the node converted to a generic value. */
  function AsRef<N>(v: Value<N>): (r: GenericRef<N>)
    ensures r == IntoValue(v).AsValueRef()
  {
    match v
    case Null => References.ValueRef.Null
    case Bool(b) => References.ValueRef.Bool(b)
    case Number(n) => References.ValueRef.Number(n)
    case String(s) => References.ValueRef.String(s)
    case Array(a) => References.ValueRef.Array(a)
    case Object(o) => References.ValueRef.Object(o)
  }

  /** `as_mut`: the variant-preserving exclusive view. */
  function AsMut<N>(v: Value<N>): (r: References.ValueMut<N, string, Value<N>>)
    ensures r.Kind() == v.Kind()
    ensures r == IntoValue(v).AsValueMut()
  {
    match v
    case Null => References.ValueMut.Null
    case Bool(b) => References.ValueMut.Bool(b)
    case Number(n) => References.ValueMut.Number(n)
    case String(s) => References.ValueMut.String(s)
    case Array(a) => References.ValueMut.Array(a)
    case Object(o) => References.ValueMut.Object(o)
  }

  /** `From<ValueRef<serde_json::Value>> for serde_json::Value`: copies the viewed payload. */
  function FromValueRef<N>(r: GenericRef<N>): (v: Value<N>)
    ensures AsRef(v) == r
  {
    match r
    case Null => Value.Null
    case Bool(b) => Value.Bool(b)
    case Number(n) => Value.Number(n)
    case String(s) => Value.String(s)
    case Array(a) => Value.Array(a)
    case Object(o) => Value.Object(o)
  }

  /** Converting to the generic value and back gives the node unchanged. */
  lemma IntoFromRoundTrip<N>(v: Value<N>)
    ensures FromValue(IntoValue(v)) == v
  {
  }

  /** Copying a node out of its own view gives the node back. */
  lemma FromRefOfAsRef<N>(v: Value<N>)
    ensures FromValueRef(AsRef(v)) == v
  {
  }

  /** This backend's `Json` implementation: keys are their own text. */
  function Backend<N>(): JsonTrait.Json<Value<N>, (), N, string> {
    JsonTrait.Json(Metadata, AsRef, (k: string) => k)
  }

  /**
   * The trait's default methods on a serde node classify it by its own
   * variant, and `get` on an object finds the node stored under the key.
   */
  lemma DefaultsOnSerde<N>(v: Value<N>, key: string)
    ensures JsonTrait.IsNull(Backend(), v) <==> v.Null?
    ensures JsonTrait.IsString(Backend(), v) <==> v.String?
    ensures JsonTrait.IsArray(Backend(), v) <==> v.Array?
    ensures JsonTrait.IsObject(Backend(), v) <==> v.Object?
    ensures JsonTrait.AsStr(Backend(), v) == (if v.String? then Some(v.s) else None)
    ensures JsonTrait.IsEmpty(Backend(), v) <==>
      v.Null? || v == Value.String("") || v == Value.Array([]) || v == Value.Object([])
    ensures v.Object? && Maps.Sorted((k: string) => k, v.o) ==>
      forall i :: 0 <= i < |v.o| && v.o[i].key == key ==> JsonTrait.Get(Backend(), v, key) == Some(v.o[i].value)
  {
  }
}
