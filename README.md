# generic-json value model in Dafny

This project models the core of `generic-json`, a Rust crate that presents
JSON-like trees stored by different backends through one six-variant
interface: Null, Bool, Number, String, Array and Object.

- `reference.dfy` (module `References`): the borrowed views `ValueRef` and
  `ValueMut`, with the classifiers (`is_*`), the extractors (`as_*`),
  `is_empty` and comparison with a string slice. `Kind` names the variant, so
  "same variant" can be said of the different enums.
- `value.dfy` (module `Values`): the owned `Value`, the same accessors, and the
  conversions to the shared view (`as_value_ref`) and to the exclusive view
  (`as_value_mut`). Writing through an exclusive view is `WriteBack`: the value
  keeps its variant and holds the payload that was written.
- `lib.dfy` (module `JsonTrait`): the default methods of the `Json` trait. A
  backend is passed as the record of what it supplies: `metadata`, `as_ref`,
  and the text of its key type (`Key: AsRef<str>`).
- `metavalue.dfy` (module `Meta`): the reference backend. `Key<M>` is a
  datatype whose equality and order use the text only. `MetaValue` is a class
  with fields `meta` and `value`. Its mutating accessors are methods that may
  change `value` and nothing else.
- `serde_json.dfy` (module `SerdeJson`): `serde_json::Value` as a backend,
  with its `as_ref` / `as_mut` and the three `From` conversions.
- `maps.dfy` (module `Maps`): the ordered key-to-node map (`BTreeMap`, serde's
  `Map`). It is a list of entries, assumed to be kept in strictly increasing key-text order.
  `Get` is the `&str` lookup.
- `str_ord.dfy` (module `StrOrd`): `Ordering` and the lexicographic order on
  `str`. Key ordering rests on it.

The type parameters stand for the backend's associated types. `N` is the
number type: `json_number::NumberBuf` or `serde_json::Number`, both opaque
here. `K` is the object key type: `Key<M>` or `String`. `T` is the node type.
Arrays are `seq<T>`. Strings are their text (`seq<char>`). Rust compares
`str` by its UTF-8 bytes, which gives the same order as comparing Unicode
scalar values, so the model compares characters.

`src/value.rs`, `src/reference.rs`, `src/lib.rs`, `src/metavalue.rs` and
`src/impls/serde_json.rs` come from different revisions of the crate. The
model takes one name and the union of the operations:

- The bool variant is `Bool`, as in `src/value.rs:14` and `src/reference.rs:8`.
  `src/impls/serde_json.rs` calls it `Boolean`.
- The trait defaults of `src/lib.rs` go with the `as_ref`/`as_mut` revision,
  which the serde adapter implements. `SerdeJson.Backend` instantiates them.
  `MetaValue` belongs to the later `new`/`as_value_ref`/`as_pair` revision.
- `ValueMut::Bool` holds the bool to be overwritten, as `src/reference.rs:18`
  declares (`&'a mut bool`). `src/impls/serde_json.rs:39` passes a copy
  (`*b`), so in that revision a write through it would not reach the node.
  The model follows the type declaration.
- The modelled files define no `is_bool`, `as_array`, `into_parts` or
  `cloned`, and no cross-backend comparison, so the model has none either.
  `into_parts` appears only in the ijson adapter (`src/impls/ijson.rs:59`),
  which belongs to a later revision and is not modelled.

Some members are wiring or library semantics and carry no promise of their
own. `StrOrd.Cmp` is Rust's `Ord` on `str`, which `Key::cmp` delegates to.
Its properties are the `StrOrd` lemmas in the table. `SerdeJson.Backend`
is the `impl Json for serde_json::Value` record of `metadata`, `as_ref` and
the key text (`src/impls/serde_json.rs:8-46`). `SerdeJson.DefaultsOnSerde`
states what the trait defaults do through it. The plain accessors
`Meta.Key.AsRef`, `Meta.MetaValue.Value`, `Meta.MetaValue.Metadata` and
`SerdeJson.Metadata` (always the unit value) return a field or a constant.
What they promise is stated by `Meta.Key.Borrow`, `Meta.Key.Eq`,
`Meta.MetadataOfNew`, `Meta.MetaValue.constructor` and
`Meta.MetaValue.ValueMut`.

## Model

| member | source | states |
|---|---|---|
| StrOrd.CmpEqualIff | src/metavalue.rs:51-55 | comparing two texts answers `Equal` exactly when they are the same text |
| StrOrd.CmpReverse | src/metavalue.rs:45-55 | comparing the other way round reverses the answer (antisymmetry) |
| StrOrd.CmpTransitive | src/metavalue.rs:51-55 | `Less` is transitive |
| StrOrd.LeIsTotalOrder | src/metavalue.rs:51-55 | `<=` on text is reflexive, antisymmetric, transitive and total |
| Maps.Get | src/lib.rs:104 | the object's `&str` lookup returns only a node stored under that key text; on a sorted map it returns the node stored under the key, and `None` exactly when no key has that text |
| References.ValueRef.IsNull | src/reference.rs:26-31 | holds exactly for the Null variant |
| References.ValueRef.IsEmpty | src/reference.rs:33-41 | true exactly for null, the empty string, the empty array and the empty object; false for Bool and Number |
| References.ValueRef.IsNumber | src/reference.rs:43-48 | holds exactly for the Number variant |
| References.ValueRef.IsString | src/reference.rs:50-55 | holds exactly for the String variant |
| References.ValueRef.IsArray | src/reference.rs:57-62 | holds exactly for the Array variant |
| References.ValueRef.IsObject | src/reference.rs:64-69 | holds exactly for the Object variant |
| References.ValueRef.AsBool | src/reference.rs:71-76 | present exactly for the Bool variant, and then the view is `Bool` of the result |
| References.ValueRef.AsNumber | src/reference.rs:78-83 | present exactly when `is_number` holds, and then returns the view's number |
| References.ValueRef.AsStr | src/reference.rs:85-90 | present exactly when `is_string` holds, and then returns the view's text |
| References.ValueRef.AsObject | src/reference.rs:92-97 | present exactly when `is_object` holds, and then returns the view's object |
| References.ValueRef.EqStr | src/reference.rs:100-106 | a view equals a string slice exactly when `as_str` gives that slice |
| References.ClassifiersExclusive | src/reference.rs:26-69 | at most one of `is_null`, `is_number`, `is_string`, `is_array`, `is_object` holds, each exactly for its variant |
| References.AsBoolExact | src/reference.rs:71-76 | `as_bool` is `Some(b)` exactly for `Bool(b)` |
| References.EqStrExact | src/reference.rs:100-106 | `== s` is false on every non-string variant and true exactly for `String(s)` |
| Values.Value.IsNull | src/value.rs:30-32 | holds exactly for the Null variant |
| Values.Value.IsEmpty | src/value.rs:34-42 | true exactly for null, the empty string, the empty array and the empty object; false for Bool and Number |
| Values.Value.IsNumber | src/value.rs:44-46 | holds exactly for the Number variant |
| Values.Value.IsString | src/value.rs:48-50 | holds exactly for the String variant |
| Values.Value.IsArray | src/value.rs:52-54 | holds exactly for the Array variant |
| Values.Value.IsObject | src/value.rs:56-58 | holds exactly for the Object variant |
| Values.Value.AsBool | src/value.rs:60-65 | present exactly for the Bool variant, and then the value is `Bool` of the result |
| Values.Value.AsNumber | src/value.rs:67-72 | present exactly when `is_number` holds, and then returns that number |
| Values.Value.AsStr | src/value.rs:74-79 | present exactly when `is_string` holds, and then returns exactly the string's text |
| Values.Value.AsObject | src/value.rs:81-86 | present exactly when `is_object` holds, and then returns that object |
| Values.Value.AsValueRef | src/value.rs:88-97 | the view has the value's variant and gives the same bool, number, text, array and object |
| Values.Value.AsValueMut | src/value.rs:99-108 | the exclusive view has the value's variant and holds its bool, number, text, array or object, and writing its payload back unchanged leaves the value unchanged |
| Values.Value.WriteBack | src/value.rs:99-108 | a write through the exclusive view keeps the value's variant |
| Values.ViewAgrees | src/value.rs:88-97 | every classifier and `is_empty` give the same answer on a value and on its view |
| Values.ClassifiersExclusive | src/value.rs:30-58 | at most one of `is_null`, `is_number`, `is_string`, `is_array`, `is_object` holds |
| Values.WriteBackReadsBack | src/value.rs:99-108 | after a write through the exclusive view, the value holds exactly the written payload: its bool, number, text, array or object is the one written |
| JsonTrait.IsNull | src/lib.rs:52-54 | holds exactly when `as_ref()` is the Null variant |
| JsonTrait.IsEmpty | src/lib.rs:56-63 | true iff the node is null, the empty string, the empty array or the empty object, as documented |
| JsonTrait.IsString | src/lib.rs:65-68 | holds exactly when `as_ref()` is the String variant |
| JsonTrait.IsArray | src/lib.rs:70-73 | holds exactly when `as_ref()` is the Array variant |
| JsonTrait.IsObject | src/lib.rs:75-78 | holds exactly when `as_ref()` is the Object variant |
| JsonTrait.AsBool | src/lib.rs:80-83 | present exactly when `as_ref()` is `Bool`, and then gives its bool |
| JsonTrait.AsStr | src/lib.rs:85-88 | present exactly when `is_string` holds, and then gives the text of `as_ref()` |
| JsonTrait.AsNumber | src/lib.rs:90-93 | present exactly when `as_ref()` is `Number`, and then gives its number |
| JsonTrait.AsObject | src/lib.rs:95-98 | present exactly when `is_object` holds, and then gives the object of `as_ref()` |
| JsonTrait.Get | src/lib.rs:100-107 | `None` when the node is not an object; otherwise only a node stored under `key`, and on a sorted object present exactly when some key has that text |
| JsonTrait.DefaultsDelegateToView | src/lib.rs:52-98 | each default classifier and extractor equals the same method of `as_ref()` |
| Meta.Key.Borrow | src/metavalue.rs:57-61 | the borrowed text is the same text `as_ref` gives |
| Meta.Key.Eq | src/metavalue.rs:37-41 | two keys are equal exactly when their texts are, whatever their metadata |
| Meta.Key.Cmp | src/metavalue.rs:51-55 | the lexicographic order of the texts, `Equal` exactly when `eq` holds |
| Meta.Key.PartialCmp | src/metavalue.rs:45-49 | always present and equal to `cmp` |
| Meta.KeyOrderIsTotal | src/metavalue.rs:37-55 | key order is antisymmetric and transitive, keys that compare both ways are `eq`, and `eq` keys compare alike to any third key |
| Meta.BorrowLookupAgreesWithKeyOrder | src/metavalue.rs:57-61 | in a map ordered by key `cmp`, a `&str` lookup on the borrowed text finds the node stored under that text, and nothing when no key has it |
| Meta.MetaValue.constructor | src/metavalue.rs:83-88 | `new(v, m)` has metadata `m` and the view of `v`, whatever `m` is |
| Meta.MetaValue.AsValueRef | src/metavalue.rs:90-93 | the view of the node's value; the metadata plays no part |
| Meta.MetaValue.AsPair | src/metavalue.rs:105-108 | the pair of `as_value_ref` and `metadata` |
| Meta.MetaValue.ValueMut | src/metavalue.rs:18-20 | storing through `value_mut` replaces the value and leaves the metadata unchanged |
| Meta.MetaValue.AsValueMut | src/metavalue.rs:95-98 | writing through `as_value_mut` changes only the value's payload, keeps its variant and leaves the metadata unchanged |
| Meta.MetaValue.AsPairMut | src/metavalue.rs:110-113 | as `as_value_mut`, and returns the metadata, which stays unchanged |
| Meta.MetadataOfNew | src/metavalue.rs:100-103 | a node built by `new(v, m)` reports `m` as its metadata, `v` as its value and the view of `v`, whatever `m` is |
| Meta.ViewIgnoresMetadata | src/metavalue.rs:90-108 | two nodes with the same value have the same view and the same first component of `as_pair`, whatever their metadata |
| SerdeJson.IntoValue | src/impls/serde_json.rs:76-88 | converting to the generic value keeps the variant and passes the bool, number, text, array and object through unchanged |
| SerdeJson.FromValue | src/impls/serde_json.rs:48-60 | converting a generic value to serde and back gives it unchanged |
| SerdeJson.AsRef | src/impls/serde_json.rs:25-34 | `as_ref` maps each variant to the same view variant with the same payload: it is `as_value_ref` of the converted node |
| SerdeJson.AsMut | src/impls/serde_json.rs:36-45 | `as_mut` keeps the variant and is `as_value_mut` of the converted node |
| SerdeJson.FromValueRef | src/impls/serde_json.rs:62-74 | building a node from a view by copying its payload, then taking `as_ref`, gives the view back |
| SerdeJson.IntoFromRoundTrip | src/impls/serde_json.rs:76-88 | converting a serde node to the generic value and back gives it unchanged |
| SerdeJson.FromRefOfAsRef | src/impls/serde_json.rs:62-74 | copying a node out of its own view gives the node back |
| SerdeJson.DefaultsOnSerde | src/impls/serde_json.rs:8-34 | through `as_ref`, the trait defaults on a serde node classify it by its own variant, and `get` on a sorted object returns the node stored under the key |

## Left out

- `src/number.rs`: the number coercions are declared without an implementation, and half are floating point. Numbers are an opaque type parameter.
- `src/aliases.rs`: trait aliases and compile-time capability bounds (`Clone`, `Hash`, `Send`, `Sync`). They have no behaviour.
- `src/impls/ijson.rs`: a wrapper over a library whose destructuring functions and constants are not part of this model.
- `src/impls/json.rs`: its `as_ref`/`as_mut` are unimplemented (`panic!`), and the rest converts into an external crate.
- Cross-backend equality, ordering and hashing: the modelled source files contain no such code.
- Lifetimes and borrow-checker aliasing: a view holds the payload itself, not a reference. That references never outlive their owner, and that an exclusive borrow excludes others, is left to Rust's type system.
- `Maps.Sorted`: a `BTreeMap` always keeps its keys in order, but the model does not enforce this. An object payload is any entry list, and every lookup guarantee takes sortedness as a hypothesis.
- `Maps.Get`: `BTreeMap`'s tree descent is modelled as an in-order walk that stops at the first key past the one sought. On a sorted map both give the same result. Insertion, removal and iteration belong to the collection libraries and are not modelled.
- Meta.MetaValue.ValueMut, Meta.MetaValue.AsValueMut, Meta.MetaValue.AsPairMut: Rust hands out a borrow that the caller writes through later. Each method takes that write as an argument and performs it.
- `SmallString`'s inline buffer of 16 bytes (`SMALL_CAPACITY`) changes only storage, so a key's text is a plain string.
