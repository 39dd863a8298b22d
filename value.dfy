/**
 * The owned JSON value (`src/value.rs`): a closed sum of six variants over a
 * backend with numbers N, object keys K and nodes T.
 */
module Values {
  import opened Wrappers
  import opened References
  import Maps

  /** `Value<T: Json>`. */
  datatype Value<N, K, T> =
    | Null
    | Bool(b: bool)
    | Number(n: N)
    | String(s: string)
    | Array(a: seq<T>)
    | Object(o: Maps.Map<K, T>)
  {
    function Kind(): Kind {
      match this
      case Null => NullKind
      case Bool(_) => BoolKind
      case Number(_) => NumberKind
      case String(_) => StringKind
      case Array(_) => ArrayKind
      case Object(_) => ObjectKind
    }

    function IsNull(): (r: bool)
      ensures r <==> Kind() == NullKind
    {
      Null?
    }

    /** True for `null`, the empty string, the empty array and the empty object. */
    function IsEmpty(): (r: bool)
      ensures r <==> IsNull() || AsStr() == Some("") || (IsArray() && |a| == 0) || (AsObject().Some? && |AsObject().value| == 0)
      ensures Kind() == BoolKind || Kind() == NumberKind ==> !r
    {
      match this
      case Null => true
      case String(s) => |s| == 0
      case Array(a) => |a| == 0
      case Object(o) => |o| == 0
      case _ => false
    }

    function IsNumber(): (r: bool)
      ensures r <==> Kind() == NumberKind
    {
      Number?
    }

    function IsString(): (r: bool)
      ensures r <==> Kind() == StringKind
    {
      String?
    }

    function IsArray(): (r: bool)
      ensures r <==> Kind() == ArrayKind
    {
      Array?
    }

    function IsObject(): (r: bool)
      ensures r <==> Kind() == ObjectKind
    {
      Object?
    }

    function AsBool(): (r: Option<bool>)
      ensures r.Some? <==> Kind() == BoolKind
      ensures r.Some? ==> this == Value.Bool(r.value)
    {
      match this
      case Bool(b) => Some(b)
      case _ => None
    }

    function AsNumber(): (r: Option<N>)
      ensures r.Some? <==> IsNumber()
      ensures r.Some? ==> this == Value.Number(r.value)
    {
      match this
      case Number(n) => Some(n)
      case _ => None
    }

    function AsStr(): (r: Option<string>)
      ensures r.Some? <==> IsString()
      ensures r.Some? ==> this == Value.String(r.value)
    {
      match this
      case String(s) => Some(s)
      case _ => None
    }

    function AsObject(): (r: Option<Maps.Map<K, T>>)
      ensures r.Some? <==> IsObject()
      ensures r.Some? ==> this == Value.Object(r.value)
    {
      match this
      case Object(o) => Some(o)
      case _ => None
    }

    /** `as_value_ref`: the shared view, of the same variant and with the same payload. */
    function AsValueRef(): (r: ValueRef<N, K, T>)
      ensures r.Kind() == Kind()
      ensures r.AsBool() == AsBool() && r.AsNumber() == AsNumber() && r.AsStr() == AsStr()
      ensures r.AsObject() == AsObject()
      ensures Array? ==> r == ValueRef.Array(a)
    {
      match this
      case Null => ValueRef.Null
      case Bool(b) => ValueRef.Bool(b)
      case Number(n) => ValueRef.Number(n)
      case String(s) => ValueRef.String(s)
      case Array(a) => ValueRef.Array(a)
      case Object(o) => ValueRef.Object(o)
    }

    /** `as_value_mut`: the exclusive view, of the same variant and holding the same payload. */
    function AsValueMut(): (r: ValueMut<N, K, T>)
      ensures r.Kind() == Kind()
      ensures Bool? ==> r == ValueMut.Bool(b)
      ensures Number? ==> r == ValueMut.Number(n)
      ensures String? ==> r == ValueMut.String(s)
      ensures Array? ==> r == ValueMut.Array(a)
      ensures Object? ==> r == ValueMut.Object(o)
      ensures WriteBack(r) == this
    {
      match this
      case Null => ValueMut.Null
      case Bool(b) => ValueMut.Bool(b)
      case Number(n) => ValueMut.Number(n)
      case String(s) => ValueMut.String(s)
      case Array(a) => ValueMut.Array(a)
      case Object(o) => ValueMut.Object(o)
    }

    /**
     * What this value holds once a caller has written through the `ValueMut`
     * borrow that `as_value_mut` handed out, the borrow now holding `w`. The
     * borrow only reaches the payload, so `w` has this value's variant.
     */
    function WriteBack(w: ValueMut<N, K, T>): (r: Value<N, K, T>)
      requires w.Kind() == Kind()
      ensures r.Kind() == Kind()
    {
      match w
      case Null => Value.Null
      case Bool(b) => Value.Bool(b)
      case Number(n) => Value.Number(n)
      case String(s) => Value.String(s)
      case Array(a) => Value.Array(a)
      case Object(o) => Value.Object(o)
    }
  }

  /** Every classifier and every extractor gives the same answer on a value and on its shared view. */
  lemma ViewAgrees<N, K, T>(v: Value<N, K, T>)
    ensures v.AsValueRef().IsNull() == v.IsNull()
    ensures v.AsValueRef().IsEmpty() == v.IsEmpty()
    ensures v.AsValueRef().IsNumber() == v.IsNumber()
    ensures v.AsValueRef().IsString() == v.IsString()
    ensures v.AsValueRef().IsArray() == v.IsArray()
    ensures v.AsValueRef().IsObject() == v.IsObject()
  {
  }

  /** At most one classifier holds on any value. */
  lemma ClassifiersExclusive<N, K, T>(v: Value<N, K, T>)
    ensures v.IsNull() ==> !v.IsNumber() && !v.IsString() && !v.IsArray() && !v.IsObject()
    ensures v.IsNumber() ==> !v.IsString() && !v.IsArray() && !v.IsObject()
    ensures v.IsString() ==> !v.IsArray() && !v.IsObject()
    ensures v.IsArray() ==> !v.IsObject()
  {
  }

  /**
   * Writing a new payload through `as_value_mut` keeps the variant, and the
   * value then reads back exactly what was written.
   */
  lemma WriteBackReadsBack<N, K, T>(v: Value<N, K, T>, w: ValueMut<N, K, T>)
    requires w.Kind() == v.Kind()
    ensures v.WriteBack(w).AsValueMut() == w
    ensures w.Bool? ==> v.WriteBack(w).AsBool() == Some(w.b)
    ensures w.String? ==> v.WriteBack(w).AsStr() == Some(w.s)
    ensures w.Number? ==> v.WriteBack(w).AsNumber() == Some(w.n)
    ensures w.Array? ==> v.WriteBack(w) == Value.Array(w.a)
    ensures w.Object? ==> v.WriteBack(w).AsObject() == Some(w.o)
  {
  }
}
