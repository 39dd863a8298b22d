/**
 * `std::cmp::Ordering` and the total order Rust gives `str`. Rust compares two
 * strings by their UTF-8 bytes, which orders them exactly as comparing their
 * Unicode scalar values one by one does; a Dafny `char` is such a scalar value.
 */
module StrOrd {

  datatype Ordering = Less | Equal | Greater {

    /** `Ordering::reverse`: the answer of the comparison made the other way round. */
    function Reverse(): Ordering {
      match this
      case Less => Greater
      case Equal => Equal
      case Greater => Less
    }
  }

  /** `Ord::cmp` on `str`: lexicographic, a proper prefix comes first. */
  function Cmp(a: string, b: string): Ordering
    decreases |a|
  {
    if |a| == 0 then (if |b| == 0 then Equal else Less)
    else if |b| == 0 then Greater
    else if a[0] < b[0] then Less
    else if b[0] < a[0] then Greater
    else Cmp(a[1..], b[1..])
  }

  /** `a <= b` for `str`. */
  predicate Le(a: string, b: string) {
    Cmp(a, b) != Greater
  }

  /** `cmp` answers `Equal` exactly for equal texts. */
  lemma {:induction false} CmpEqualIff(a: string, b: string)
    ensures Cmp(a, b) == Equal <==> a == b
  {
    if |a| > 0 && |b| > 0 && a[0] == b[0] {
      CmpEqualIff(a[1..], b[1..]);
      assert a == [a[0]] + a[1..];
      assert b == [b[0]] + b[1..];
    }
  }

  /** Comparing the other way round reverses the answer. */
  lemma {:induction false} CmpReverse(a: string, b: string)
    ensures Cmp(b, a) == Cmp(a, b).Reverse()
  {
    if |a| > 0 && |b| > 0 && a[0] == b[0] {
      CmpReverse(a[1..], b[1..]);
    }
  }

  /** `Less` is transitive. */
  lemma {:induction false} CmpTransitive(a: string, b: string, c: string)
    requires Cmp(a, b) == Less && Cmp(b, c) == Less
    ensures Cmp(a, c) == Less
  {
    if |a| > 0 && |b| > 0 && |c| > 0 && a[0] == b[0] && b[0] == c[0] {
      CmpTransitive(a[1..], b[1..], c[1..]);
    }
  }

  /** `<=` on `str` is a total order: reflexive, antisymmetric, transitive and total. */
  lemma LeIsTotalOrder()
    ensures forall a :: Le(a, a)
    ensures forall a, b :: Le(a, b) && Le(b, a) ==> a == b
    ensures forall a, b, c :: Le(a, b) && Le(b, c) ==> Le(a, c)
    ensures forall a, b :: Le(a, b) || Le(b, a)
  {
    forall a ensures Le(a, a) {
      CmpEqualIff(a, a);
    }
    forall a, b | Le(a, b) && Le(b, a) ensures a == b {
      CmpReverse(a, b);
      CmpEqualIff(a, b);
    }
    forall a, b, c | Le(a, b) && Le(b, c) ensures Le(a, c) {
      CmpEqualIff(a, b);
      CmpEqualIff(b, c);
      if Cmp(a, b) == Less && Cmp(b, c) == Less {
        CmpTransitive(a, b, c);
      }
    }
    forall a, b ensures Le(a, b) || Le(b, a) {
      CmpReverse(a, b);
    }
  }
}
