/**
 * The reference backend (`src/metavalue.rs`): every node pairs a metadata
 * value with a `Value`; object keys carry metadata too but compare and order
 * by their text alone. Objects are `BTreeMap<Key<M>, MetaValue<M>>`. The
 * number type (`json_number::NumberBuf`) is the type parameter N.
 */
module Meta {
  import opened Wrappers
  import opened StrOrd
  import Maps
  import References
  import Values

  /**
   * `Key<M>`: an object key. Its text is a small-buffer string (inline up to
   * 16 bytes), which changes storage only, not behaviour.
   */
  datatype Key<M> = Key(meta: M, key: string) {

    /** `AsRef<str>`: the key's text, whatever its metadata. */
    function AsRef(): (s: string)
      ensures s == key
    {
      key
    }

    /** `Borrow<str>`: the text a `&str` lookup in the object map compares with. */
    function Borrow(): (s: string)
      ensures s == AsRef()
    {
      key
    }

    /** `PartialEq`: equal texts, metadata ignored. */
    function Eq(other: Key<M>): (r: bool)
      ensures r <==> AsRef() == other.AsRef()
    {
      key == other.key
    }

    /** `Ord::cmp`: the order of the texts; `Equal` exactly when `eq` holds. */
    function Cmp(other: Key<M>): (r: Ordering)
      ensures r == StrOrd.Cmp(AsRef(), other.AsRef())
      ensures r == Equal <==> Eq(other)
    {
      CmpEqualIff(key, other.key);
      StrOrd.Cmp(key, other.key)
    }

    /** `PartialOrd::partial_cmp`: always defined, and agrees with `cmp`. */
    function PartialCmp(other: Key<M>): (r: Option<Ordering>)
      ensures r == Some(Cmp(other))
    {
      Some(StrOrd.Cmp(key, other.key))
    }
  }

  /** The key text the object map's `&str` lookups use. */
  function KeyText<M>(k: Key<M>): string {
    k.Borrow()
  }

  /**
   * Key order is a total order up to `eq`: reversing a comparison reverses its
   * answer, `Less` is transitive, and keys differing only in metadata are equal
   * and compare `Equal` to each other and alike to every third key.
   */
  lemma {:induction false} KeyOrderIsTotal<M>(k1: Key<M>, k2: Key<M>, k3: Key<M>)
    ensures k2.Cmp(k1) == k1.Cmp(k2).Reverse()
    ensures k1.Cmp(k2) == Less && k2.Cmp(k3) == Less ==> k1.Cmp(k3) == Less
    ensures k1.Cmp(k2) != Greater && k2.Cmp(k1) != Greater ==> k1.Eq(k2)
    ensures k1.Eq(k2) ==> k1.Cmp(k3) == k2.Cmp(k3)
  {
    CmpReverse(k1.key, k2.key);
    if k1.Cmp(k2) == Less && k2.Cmp(k3) == Less {
      CmpTransitive(k1.key, k2.key, k3.key);
    }
    CmpEqualIff(k1.key, k2.key);
  }

  /**
   * In a map kept in `Key` order, looking a `&str` up by the keys' borrowed
   * text finds the node stored under that text, and nothing when no key has it.
   */
  lemma BorrowLookupAgreesWithKeyOrder<M, T>(m: Maps.Map<Key<M>, T>, key: string)
    requires forall i, j :: 0 <= i < j < |m| ==> m[i].key.Cmp(m[j].key) == Less
    ensures forall i :: 0 <= i < |m| && m[i].key.AsRef() == key ==> Maps.Get(KeyText, m, key) == Some(m[i].value)
    ensures (forall i :: 0 <= i < |m| ==> m[i].key.AsRef() != key) ==> Maps.Get(KeyText, m, key) == None
  {
  }

  /** `MetaValue<M>`: a node, its metadata and its value. */
  class MetaValue<M, N> {
    var meta: M
    var value: Values.Value<N, Key<M>, MetaValue<M, N>>

    /** `new`: pairs a value with its metadata. */
    constructor (value: Values.Value<N, Key<M>, MetaValue<M, N>>, metadata: M)
      ensures this.value == value && this.meta == metadata
      ensures Metadata() == metadata
      ensures AsValueRef() == value.AsValueRef()
    {
      this.meta := metadata;
      this.value := value;
    }

    /** `value`: the JSON value without its metadata. */
    function Value(): (v: Values.Value<N, Key<M>, MetaValue<M, N>>)
      reads this
      ensures v == value
    {
      value
    }

    /** `as_value_ref`: the shared view of the value, which the metadata plays no part in. */
    function AsValueRef(): (r: References.ValueRef<N, Key<M>, MetaValue<M, N>>)
      reads this
      ensures r.Kind() == value.Kind()
      ensures r == Value().AsValueRef()
    {
      value.AsValueRef()
    }

    /** `metadata`. */
    function Metadata(): (m: M)
      reads this
      ensures m == meta
    {
      meta
    }

    /** `as_pair`: the view and the metadata together. */
    function AsPair(): (p: (References.ValueRef<N, Key<M>, MetaValue<M, N>>, M))
      reads this
      ensures p == (AsValueRef(), Metadata())
    {
      (value.AsValueRef(), meta)
    }

    /** `value_mut` followed by the caller storing `v` through the returned `&mut Value`. */
    method ValueMut(v: Values.Value<N, Key<M>, MetaValue<M, N>>)
      modifies this`value
      ensures value == v
      ensures meta == old(meta)
    {
      value := v;
    }

    /**
     * `as_value_mut` followed by the caller writing through the returned
     * borrow, which then holds `w`: only the payload changes.
     */
    method AsValueMut(w: References.ValueMut<N, Key<M>, MetaValue<M, N>>)
      requires w.Kind() == value.Kind()
      modifies this`value
      ensures value == old(value).WriteBack(w)
      ensures value.Kind() == old(value).Kind() && value.AsValueMut() == w
      ensures meta == old(meta)
    {
      value := value.WriteBack(w);
    }

    /**
     * `as_pair_mut`: as `AsValueMut`, and hands out the metadata, which the
     * write leaves as it was.
     */
    method AsPairMut(w: References.ValueMut<N, Key<M>, MetaValue<M, N>>) returns (m: M)
      requires w.Kind() == value.Kind()
      modifies this`value
      ensures value == old(value).WriteBack(w)
      ensures m == meta && meta == old(meta)
    {
      value := value.WriteBack(w);
      m := meta;
    }
  }

  /**
   * A node built by `new(v, m)` reports `m` as its metadata, `v` as its value
   * and the view of `v`, whatever `m` is.
   */
  method MetadataOfNew<M, N>(v: Values.Value<N, Key<M>, MetaValue<M, N>>, m: M)
    returns (meta: M, value: Values.Value<N, Key<M>, MetaValue<M, N>>, view: References.ValueRef<N, Key<M>, MetaValue<M, N>>)
    ensures meta == m
    ensures value == v
    ensures view == v.AsValueRef()
  {
    var x := new MetaValue(v, m);
    meta := x.Metadata();
    value := x.Value();
    view := x.AsValueRef();
  }

  /** Two nodes holding the same value have the same view, whatever their metadata. */
  lemma ViewIgnoresMetadata<M, N>(x: MetaValue<M, N>, y: MetaValue<M, N>)
    requires x.Value() == y.Value()
    ensures x.AsValueRef() == y.AsValueRef()
    ensures x.AsPair().0 == y.AsPair().0
  {
  }
}
