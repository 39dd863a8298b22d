/**
 * The borrowed views of a JSON node (`src/reference.rs`). A backend has
 * numbers of type N, object keys of type K and nodes of type T; a view holds
 * the node's payload (a reference to it in Rust, the payload itself here).
 */
module References {
  import opened Wrappers
  import Maps

  /** The six variants, used to say that two enums have "the same variant". */
  datatype Kind = NullKind | BoolKind | NumberKind | StringKind | ArrayKind | ObjectKind

  /** `ValueRef<'a, T>`: shared, read-only view of a node. */
  datatype ValueRef<N, K, T> =
    | Null
    | Bool(b: bool)
    | Number(n: N)
    | String(s: string)
    | Array(a: seq<T>)
    | Object(o: Maps.Map<K, T>)
  {
    function Kind(): Kind {
      match this
      case Null => NullKind
      case Bool(_) => BoolKind
      case Number(_) => NumberKind
      case String(_) => StringKind
      case Array(_) => ArrayKind
      case Object(_) => ObjectKind
    }

    function IsNull(): (r: bool)
      ensures r <==> Kind() == NullKind
    {
      match this
      case Null => true
      case _ => false
    }

    /** True for `null`, the empty string, the empty array and the empty object. */
    function IsEmpty(): (r: bool)
      ensures r <==> IsNull() || AsStr() == Some("") || (IsArray() && |a| == 0) || (IsObject() && |o| == 0)
      ensures Kind() == BoolKind || Kind() == NumberKind ==> !r
    {
      match this
      case Null => true
      case String(s) => |s| == 0
      case Array(a) => |a| == 0
      case Object(o) => |o| == 0
      case _ => false
    }

    function IsNumber(): (r: bool)
      ensures r <==> Kind() == NumberKind
    {
      match this
      case Number(_) => true
      case _ => false
    }

    function IsString(): (r: bool)
      ensures r <==> Kind() == StringKind
    {
      match this
      case String(_) => true
      case _ => false
    }

    function IsArray(): (r: bool)
      ensures r <==> Kind() == ArrayKind
    {
      match this
      case Array(_) => true
      case _ => false
    }

    function IsObject(): (r: bool)
      ensures r <==> Kind() == ObjectKind
    {
      match this
      case Object(_) => true
      case _ => false
    }

    function AsBool(): (r: Option<bool>)
      ensures r.Some? <==> Kind() == BoolKind
      ensures r.Some? ==> this == ValueRef.Bool(r.value)
    {
      match this
      case Bool(b) => Some(b)
      case _ => None
    }

    function AsNumber(): (r: Option<N>)
      ensures r.Some? <==> IsNumber()
      ensures r.Some? ==> this == ValueRef.Number(r.value)
    {
      match this
      case Number(n) => Some(n)
      case _ => None
    }

    function AsStr(): (r: Option<string>)
      ensures r.Some? <==> IsString()
      ensures r.Some? ==> this == ValueRef.String(r.value)
    {
      match this
      case String(s) => Some(s)
      case _ => None
    }

    function AsObject(): (r: Option<Maps.Map<K, T>>)
      ensures r.Some? <==> IsObject()
      ensures r.Some? ==> this == ValueRef.Object(r.value)
    {
      match this
      case Object(o) => Some(o)
      case _ => None
    }

    /** `PartialEq<&str>`: a view equals a string slice only when it is that string. */
    function EqStr(s: string): (r: bool)
      ensures r <==> AsStr() == Some(s)
    {
      match this
      case String(t) => t == s
      case _ => false
    }
  }

  /** `ValueMut<'a, T>`: exclusive view of a node, holding the payload it lets the caller overwrite. */
  datatype ValueMut<N, K, T> =
    | Null
    | Bool(b: bool)
    | Number(n: N)
    | String(s: string)
    | Array(a: seq<T>)
    | Object(o: Maps.Map<K, T>)
  {
    function Kind(): Kind {
      match this
      case Null => NullKind
      case Bool(_) => BoolKind
      case Number(_) => NumberKind
      case String(_) => StringKind
      case Array(_) => ArrayKind
      case Object(_) => ObjectKind
    }
  }

  /** At most one classifier holds, and each one picks out exactly its variant. */
  lemma ClassifiersExclusive<N, K, T>(r: ValueRef<N, K, T>)
    ensures r.IsNull() ==> !r.IsNumber() && !r.IsString() && !r.IsArray() && !r.IsObject()
    ensures r.IsNumber() ==> !r.IsString() && !r.IsArray() && !r.IsObject()
    ensures r.IsString() ==> !r.IsArray() && !r.IsObject()
    ensures r.IsArray() ==> !r.IsObject()
    ensures r.IsNull() <==> r.Null?
    ensures r.IsNumber() <==> r.Number?
    ensures r.IsString() <==> r.String?
    ensures r.IsArray() <==> r.Array?
    ensures r.IsObject() <==> r.Object?
  {
  }

  /** `as_bool` gives `Some(b)` exactly for `Bool(b)`. */
  lemma AsBoolExact<N, K, T>(r: ValueRef<N, K, T>, b: bool)
    ensures r.AsBool() == Some(b) <==> r == ValueRef.Bool(b)
  {
  }

  /** `== s` is false on every variant but `String`, and on `String(t)` compares the texts. */
  lemma EqStrExact<N, K, T>(r: ValueRef<N, K, T>, s: string)
    ensures !r.String? ==> !r.EqStr(s)
    ensures r.EqStr(s) <==> r == ValueRef.String(s)
  {
  }
}
