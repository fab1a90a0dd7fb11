# msgpack adaptor for boost::variant, modelled in Dafny

This project models `src/msgpack_boost_variant.hpp`. The header teaches msgpack-c how to serialise a
`boost::variant<Ts...>`. It keeps two dispatch tables in function-local statics, built by template
recursion over `Ts...`. The pack table holds one pack handler per alternative; it is a static of the
pack operator, which is a template over the stream type, so there is one per stream type and variant
type, built on the first pack. The unpack table holds one unpack handler per alternative; there is one
per variant type, built on the first convert. It then writes a variant as the 2-element msgpack array
`[which(), payload]`. Reading one back checks the array shape, reads the tag with `as<int>`, and
dispatches through the bounds-checked `std::array::at`.

Modules:

- `Msgpack` (msgpack.dfy) gives the msgpack facts the adaptor relies on. It has the object tree
  `Obj` with its `Kind()`, `as<int>` (`AsInt`) and the `int` to `size_t` conversion (`ToSizeT`). It
  also has the packer stream, a `Packer` class whose `tokens` grow with each `pack_array` and `pack`.
  Apart from array and map headers, tokens carry no structure.
- `BoostVariant` (variant.dfy) models the variant side. An `Alternative` is one template argument with
  its msgpack hooks (`encode`, `convert`, the default-constructed `init`) and a type identity `id`. A
  `Variant` is `(which, payload)`. The module also has `boost::get<T>` (`Get`), the converting
  assignment `v = item` (`Assign`, which uses `IndexOf`), and the invariant `Holds`.
- `VariantAdaptor` (adaptor.dfy) is the header itself: the handlers, the recursive table builders,
  `std::array::at`, the envelope `Encode` and `Decode`, and the class `VariantCodec`. That class holds
  the two static tables and the two adaptor operators `Pack` and `Convert`.
- `Scenarios` (scenarios.dfy) instantiates the adaptor for the `variant<double, int, bool>` of the unit
  tests.

Handlers are Dafny function values stored in arrays. A pack handler returns the object it would
write. An unpack handler returns the variant it would assign to the destination. Exceptions are the
`Err` cases of `Result`. The tables are built as in the source: a recursive method writes the slot
`N - sizeof...(Ts) - 1` for the head type and recurses on the tail. `CreatePackers` and
`CreateUnpackers` prove that slot *k* ends up holding the handler of the *k*-th type.
`PackerEntry` and `UnpackerEntry` prove what that handler does. `Pack` is proved against `Encode`,
`Convert` against `Decode`, and `RoundTrip` relates the two.

Dispatch on the decoded tag goes through `UNPACKERS.at(type_index)` (line 154), which is
bounds-checked and throws `std::out_of_range`. A negative `int` becomes a huge `size_t` there and
fails the same check. In the model an out-of-range tag is the `OutOfRange` error, which is distinct
from the `TypeError` (`msgpack::type_error`) raised for a bad shape.

## Model

| member | source | states |
|---|---|---|
| Msgpack.Obj.Kind | src/msgpack_boost_variant.hpp:148 | an object reports ARRAY exactly when it is an array |
| Msgpack.AsInt | src/msgpack_boost_variant.hpp:151 | `as<int>` succeeds exactly on integer objects within `int`, and yields their value; otherwise it throws `type_error` |
| Msgpack.ToSizeT | src/msgpack_boost_variant.hpp:154 | converting an `int` to `size_t` keeps non-negative values and maps negative ones to `i + 2^64` |
| Msgpack.SerializePair | src/msgpack_boost_variant.hpp:122-128 | writing `pack_array(2)` and then two objects produces the same stream as packing the 2-element array of those objects |
| Msgpack.Packer.PackArray | src/msgpack_boost_variant.hpp:122 | `pack_array(n)` appends one array header and changes nothing else |
| Msgpack.Packer.Pack | src/msgpack_boost_variant.hpp:125 | `pack(x)` appends the serialisation of x's object |
| BoostVariant.IndexOf | src/msgpack_boost_variant.hpp:81 | the position the converting assignment selects: the first position holding that type, with no earlier one holding it |
| BoostVariant.IndexOfOwnPosition | src/msgpack_boost_variant.hpp:81 | when the types are distinct, assigning a value of the k-th type makes k the active index |
| BoostVariant.Get | src/msgpack_boost_variant.hpp:38 | `boost::get<T>(v)` yields the payload exactly when T is the active type, and throws `bad_get` otherwise |
| BoostVariant.Assign | src/msgpack_boost_variant.hpp:81 | `v = item` keeps the item as payload and moves to a position that holds the item's type |
| VariantAdaptor.EmptyPacker | src/msgpack_boost_variant.hpp:56 | a slot of the freshly declared pack array holds an empty `std::function`, which throws `bad_function_call` when called; `CreatePackers` shows no such slot remains |
| VariantAdaptor.EmptyUnpacker | src/msgpack_boost_variant.hpp:98 | a slot of the freshly declared unpack array holds an empty `std::function`; `CreateUnpackers` shows no such slot remains |
| VariantAdaptor.PackerFor | src/msgpack_boost_variant.hpp:37-39 | the pack lambda for type T encodes `boost::get<T>(v)`; what it does on each variant is stated by `PackerEntry` |
| VariantAdaptor.UnpackerFor | src/msgpack_boost_variant.hpp:78-82 | the unpack lambda for type T: `T item; o.convert(item); v = item;`; what it yields is stated by `UnpackerEntry` |
| VariantAdaptor.SlotIndex | src/msgpack_boost_variant.hpp:35 | `N - sizeof...(Ts) - 1` stays below N; with `Ts` the tail after the head, it is the head's position in the type list |
| VariantAdaptor.CreatePackersImpl | src/msgpack_boost_variant.hpp:28-42 | one recursion over `T, Ts...` fills each slot from its head's index to N-1 with that type's handler and leaves every earlier slot as it was |
| VariantAdaptor.CreatePackers | src/msgpack_boost_variant.hpp:44-59 | the built array is new, has N entries, and entry k is the pack handler of the k-th template argument |
| VariantAdaptor.CreateUnpackersImpl | src/msgpack_boost_variant.hpp:69-85 | as for the packers: each slot from the head's index on gets its type's unpack handler, and earlier slots are untouched |
| VariantAdaptor.CreateUnpackers | src/msgpack_boost_variant.hpp:87-101 | the built array is new, has N entries, and entry k is the unpack handler of the k-th template argument |
| VariantAdaptor.PackerEntry | src/msgpack_boost_variant.hpp:37-39 | pack entry k encodes the bare payload of a variant whose active index is k, and throws `bad_get` for any other index |
| VariantAdaptor.UnpackerEntry | src/msgpack_boost_variant.hpp:78-82 | unpack entry k converts into a default-constructed k-th type; on success it yields a variant with active index k holding that value, and on failure it yields the converter's error |
| VariantAdaptor.At | src/msgpack_boost_variant.hpp:154 | `at(type_index)` converts the index to `size_t`; it yields that entry exactly when the converted index is below the length, and throws `out_of_range` otherwise |
| VariantAdaptor.SizeTIndexInRange | src/msgpack_boost_variant.hpp:151-154 | an `int` tag passes `at` on a table of at most INT_MAX entries exactly when 0 <= tag < N, so negative tags are rejected |
| VariantAdaptor.Encode | src/msgpack_boost_variant.hpp:122-128 | the envelope is an ARRAY of exactly 2 elements; element 0 reads back through `as<int>` as `which()`, and element 1 is the alternative's own encoding, unwrapped |
| VariantAdaptor.Decode | src/msgpack_boost_variant.hpp:148-154 | a non-array, an array whose size is not 2, a non-`int` tag and a tag outside [0, N) are each rejected with their error; a success has shape `[which, p]` and a payload converted from p by that alternative's converter |
| VariantAdaptor.DecodeDispatchesOnTag | src/msgpack_boost_variant.hpp:151-154 | for `[t, p]`, the tag alone picks the converter: alternative t's converter runs when 0 <= t < N, and otherwise the result is a range error, whatever p is |
| VariantAdaptor.DecodeHolds | src/msgpack_boost_variant.hpp:78-82 | when every converter yields values of its own type, a decoded variant satisfies boost::variant's invariant |
| VariantAdaptor.RoundTrip | src/msgpack_boost_variant.hpp:111-158 | decoding the envelope of a valid variant gives back the same active index and payload, provided that alternative's hooks round-trip |
| VariantAdaptor.EncodeInjective | src/msgpack_boost_variant.hpp:122-128 | two valid variants with equal envelopes are equal, so the envelope loses neither the tag nor the payload |
| VariantAdaptor.VariantCodec.constructor | src/msgpack_boost_variant.hpp:119-120 | the static tables, once built, are exactly the pack and unpack tables in template argument order |
| VariantAdaptor.VariantCodec.Pack | src/msgpack_boost_variant.hpp:113-131 | packing appends to the stream exactly the tokens of the envelope of `v`; the result depends on nothing but `v`, and the tables are never written |
| VariantAdaptor.VariantCodec.Convert | src/msgpack_boost_variant.hpp:140-157 | on success the destination becomes the decoded variant; on every failure (shape, tag, range, payload) the error is returned and the destination is unchanged |
| Scenarios.SimpleTypesSound | src/unit_test/unit_test.cpp:51 | `variant<double, int, bool>` has distinct types, and each of its alternatives round-trips and converts into its own type |
| Scenarios.ScenariosAB | src/unit_test/unit_test.cpp:54-72 | 3.14, 7 and true each decode from their envelopes as the same alternative with the same value |
| Scenarios.TagDisambiguates | src/msgpack_boost_variant.hpp:151-154 | with the same payload object, tag 1 converts as int and tag 2 as bool; each rejects the other's payload |
| Scenarios.ScenarioD | src/msgpack_boost_variant.hpp:154 | tag 99 with three alternatives is a range error for every payload |
| Scenarios.PackUnpack | src/unit_test/unit_test.cpp:33-48 | packing a valid variant, then converting the object its stream holds, sets the destination to that same variant |
| Scenarios.SimpleTest | src/unit_test/unit_test.cpp:50-73 | the rotation v1 -> v2 -> v3 -> v1 of the Simple test leaves each variant holding the value and alternative packed from its predecessor |
| Scenarios.ScenarioDConvert | src/msgpack_boost_variant.hpp:151-154 | converting an envelope with tag 99 fails with `out_of_range`, and the destination keeps its old value |

## Left out

- The msgpack byte format and `msgpack::unpack` are not modelled. A stream is a sequence of tokens, and the test helper `PackUnpack` converts the object whose tokens the stream holds.
- The `Stream` template parameter and type erasure through `std::function` are not modelled. Handlers are Dafny function values, and a handler's writes are the object it returns.
- Thread-safe, lazy initialisation of the function-local `static const` tables is reduced to construction. It is concurrency the language guarantees, so `VariantCodec`'s constructor stands for first use and builds both tables together, although the source builds the pack table on the first pack and the unpack table on the first convert.
- One pack table per stream type is not modelled: with the `Stream` parameter gone, `VariantCodec` holds a single pack table.
- The per-type msgpack hooks are parameters (`encode`, `convert`, `init`), so encoding a payload cannot fail in the model. The payload-encode error of a foreign type is not modelled.
- msgpack's POSITIVE_INTEGER and NEGATIVE_INTEGER kinds are merged into one `Integer` object, and BIN and EXT objects are not represented. The adaptor only distinguishes ARRAY from the rest.
- `size_t` is taken to be 64 bits wide.
- The Complex unit test (pair, vector and `unordered_map` of `unordered_set`) is not instantiated. Those are library containers; `RoundTrip` covers any alternative whose own hooks round-trip.
- Floating point is not modelled. A double is its binary64 bit pattern, and `Scenarios.DoubleType` converts only float objects, although msgpack also converts integer objects into a double.
- VariantAdaptor.VariantCodec.Pack: requires the active index to be below N. That is the invariant `boost::variant` itself keeps, so the `at` and `bad_get` failures of the pack path are shown to be unreachable rather than modelled as results.
- The alternatives are assumed to be distinct types (`DistinctTypes`). `boost::get<T>` and the converting assignment need this for the variants the adaptor is used with.
