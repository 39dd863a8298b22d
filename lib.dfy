/**
 * The `Json` capability trait (`src/lib.rs`) and its default methods. A
 * backend is passed as the record of the members it must supply: its
 * `metadata` and `as_ref`, and the text its `Key: AsRef<str>` type borrows.
 * Every default method then works on `as_ref()` of the node only.
 */
module JsonTrait {
  import opened Wrappers
  import opened References
  import Maps

  /** An implementation of `Json` for nodes T with metadata M, numbers N and keys K. */
  datatype Json<!T, M, N, !K> = Json(metadata: T -> M, asRef: T -> ValueRef<N, K, T>, keyText: K -> string)

  function IsNull<T, M, N, K>(j: Json<T, M, N, K>, x: T): (r: bool)
    ensures r <==> j.asRef(x).Kind() == NullKind
  {
    j.asRef(x).IsNull()
  }

  /** Documented as: true iff the value is `null`, the empty string, the empty array or the empty object. */
  function IsEmpty<T, M, N, K>(j: Json<T, M, N, K>, x: T): (r: bool)
    ensures r <==> IsNull(j, x) || AsStr(j, x) == Some("")
                   || (IsArray(j, x) && |j.asRef(x).a| == 0)
                   || (AsObject(j, x).Some? && |AsObject(j, x).value| == 0)
  {
    j.asRef(x).IsEmpty()
  }

  function IsString<T, M, N, K>(j: Json<T, M, N, K>, x: T): (r: bool)
    ensures r <==> j.asRef(x).Kind() == StringKind
  {
    j.asRef(x).IsString()
  }

  function IsArray<T, M, N, K>(j: Json<T, M, N, K>, x: T): (r: bool)
    ensures r <==> j.asRef(x).Kind() == ArrayKind
  {
    j.asRef(x).IsArray()
  }

  function IsObject<T, M, N, K>(j: Json<T, M, N, K>, x: T): (r: bool)
    ensures r <==> j.asRef(x).Kind() == ObjectKind
  {
    j.asRef(x).IsObject()
  }

  function AsBool<T, M, N, K>(j: Json<T, M, N, K>, x: T): (r: Option<bool>)
    ensures r.Some? <==> j.asRef(x).Kind() == BoolKind
    ensures r.Some? ==> j.asRef(x) == ValueRef.Bool(r.value)
  {
    j.asRef(x).AsBool()
  }

  function AsStr<T, M, N, K>(j: Json<T, M, N, K>, x: T): (r: Option<string>)
    ensures r.Some? <==> IsString(j, x)
    ensures r.Some? ==> j.asRef(x) == ValueRef.String(r.value)
  {
    j.asRef(x).AsStr()
  }

  function AsNumber<T, M, N, K>(j: Json<T, M, N, K>, x: T): (r: Option<N>)
    ensures r.Some? <==> j.asRef(x).Kind() == NumberKind
    ensures r.Some? ==> j.asRef(x) == ValueRef.Number(r.value)
  {
    j.asRef(x).AsNumber()
  }

  function AsObject<T, M, N, K>(j: Json<T, M, N, K>, x: T): (r: Option<Maps.Map<K, T>>)
    ensures r.Some? <==> IsObject(j, x)
    ensures r.Some? ==> j.asRef(x) == ValueRef.Object(r.value)
  {
    j.asRef(x).AsObject()
  }

  /**
   * If the node is an object, the node stored under `key`, if any. The
   * object's own `get` looks the `&str` up against the keys' borrowed text.
   */
  function Get<T, M, N, K>(j: Json<T, M, N, K>, x: T, key: string): (r: Option<T>)
    ensures !IsObject(j, x) ==> r == None
    ensures r.Some? ==> exists i :: 0 <= i < |j.asRef(x).o| && j.keyText(j.asRef(x).o[i].key) == key
                                     && j.asRef(x).o[i].value == r.value
    ensures IsObject(j, x) && Maps.Sorted(j.keyText, j.asRef(x).o) ==>
      (r.Some? <==> Maps.HasKey(j.keyText, j.asRef(x).o, key))
  {
    match j.asRef(x)
    case Object(obj) => Maps.Get(j.keyText, obj, key)
    case _ => None
  }

  /** Each default method is the same method of the view `as_ref()` returns. */
  lemma DefaultsDelegateToView<T, M, N, K>(j: Json<T, M, N, K>, x: T)
    ensures IsNull(j, x) == j.asRef(x).IsNull() && IsEmpty(j, x) == j.asRef(x).IsEmpty()
    ensures IsString(j, x) == j.asRef(x).IsString() && IsArray(j, x) == j.asRef(x).IsArray()
    ensures IsObject(j, x) == j.asRef(x).IsObject()
    ensures AsBool(j, x) == j.asRef(x).AsBool() && AsStr(j, x) == j.asRef(x).AsStr()
    ensures AsNumber(j, x) == j.asRef(x).AsNumber() && AsObject(j, x) == j.asRef(x).AsObject()
  {
  }
}
