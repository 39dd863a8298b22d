/**
 * The ordered key-to-node mapping both backends use for JSON objects
 * (`BTreeMap<Key<M>, MetaValue<M>>` and serde_json's `Map<String, Value>`):
 * a list of entries kept in strictly increasing order of the keys' text.
 * `text` is the key type's `AsRef<str>` / `Borrow<str>` view.
 */
module Maps {
  import opened Wrappers
  import opened StrOrd

  datatype Entry<K, T> = Entry(key: K, value: T)

  type Map<K, T> = seq<Entry<K, T>>

  /** The map's invariant: keys strictly increasing, hence no key text twice. */
  ghost predicate Sorted<K, T>(text: K -> string, m: Map<K, T>) {
    forall i, j :: 0 <= i < j < |m| ==> Cmp(text(m[i].key), text(m[j].key)) == Less
  }

  /** Some entry of `m` has a key whose text is `key`. */
  ghost predicate HasKey<K, T>(text: K -> string, m: Map<K, T>, key: string) {
    exists i :: 0 <= i < |m| && text(m[i].key) == key
  }

  /**
   * `Get<&str>::get`: looks `key` up by comparing it with the borrowed text of
   * the keys in order, stopping as soon as a key passes it.
   */
  function Get<K, T>(text: K -> string, m: Map<K, T>, key: string): (r: Option<T>)
    ensures r.Some? ==> exists i :: 0 <= i < |m| && text(m[i].key) == key && m[i].value == r.value
    ensures Sorted(text, m) ==>
      forall i :: 0 <= i < |m| && text(m[i].key) == key ==> r == Some(m[i].value)
    ensures Sorted(text, m) ==> (r.Some? <==> HasKey(text, m, key))
  {
    if |m| == 0 then None
    else
      var c := Cmp(text(m[0].key), key);
      CmpEqualIff(text(m[0].key), key);
      if c == Equal then Some(m[0].value)
      else if c == Greater then None
      else
        var r := Get(text, m[1..], key);
        assert r.Some? ==> exists i :: 0 <= i < |m| && text(m[i].key) == key && m[i].value == r.value by {
          if r.Some? {
            var i :| 0 <= i < |m[1..]| && text(m[1..][i].key) == key && m[1..][i].value == r.value;
            assert m[i + 1] == m[1..][i];
          }
        }
        r
  }
}
