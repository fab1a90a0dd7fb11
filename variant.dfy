/**
 * The parts of boost::variant<Ts...> that the adaptor uses, and the msgpack
 * hooks it relies on for each alternative type. Payload values of every
 * alternative live in one universe V; each alternative says which of them
 * belong to its type.
 */
module BoostVariant {
  import opened Msgpack

  /**
   * One template argument T of the variant, with the msgpack hooks for it.
   * `id` stands for the C++ type itself; `init` is a default-constructed T;
   * `convert(o, x)` is `o.convert(x)` applied to a T holding x.
   */
  datatype Alternative<!V> = Alternative(
    id: nat,
    accepts: V -> bool,
    encode: V -> Obj,
    convert: (Obj, V) -> Result<V>,
    init: V)

  /** A variant value: the index of its active alternative, `which()`, and the payload it holds. */
  datatype Variant<V> = Variant(which: nat, payload: V)

  /** The invariant boost::variant keeps: a valid index and a payload of that alternative's type. */
  ghost predicate Holds<V>(alts: seq<Alternative<V>>, v: Variant<V>) {
    v.which < |alts| && alts[v.which].accepts(v.payload)
  }

  /** The template arguments name distinct types. */
  ghost predicate DistinctTypes<V>(alts: seq<Alternative<V>>) {
    forall i, j :: 0 <= i < j < |alts| ==> alts[i].id != alts[j].id
  }

  /** What a well-formed `boost::variant<Ts...>` demands of its type list. */
  ghost predicate WellFormed<V>(alts: seq<Alternative<V>>) {
    1 <= |alts| <= INT_MAX && DistinctTypes(alts)
  }

  /** The msgpack hooks of one alternative restore every value of its type. */
  ghost predicate RoundTrips<V(!new)>(a: Alternative<V>) {
    forall x :: a.accepts(x) ==> a.convert(a.encode(x), a.init) == Ok(x)
  }

  /** Converting into a default-constructed T yields a T, when it succeeds. */
  ghost predicate ConvertsInto<V>(a: Alternative<V>) {
    forall o :: a.convert(o, a.init).Ok? ==> a.accepts(a.convert(o, a.init).value)
  }

  /** The position of the type `id` in the type list, or |alts| when it is absent. */
  function IndexOf<V>(alts: seq<Alternative<V>>, id: nat): (r: nat)
    ensures r <= |alts|
    ensures r < |alts| ==> alts[r].id == id
    ensures forall k :: 0 <= k < r ==> alts[k].id != id
    decreases |alts|
  {
    if alts == [] then 0
    else if alts[0].id == id then 0
    else 1 + IndexOf(alts[1..], id)
  }

  /** In a list of distinct types, each type is found at its own position. */
  lemma IndexOfOwnPosition<V>(alts: seq<Alternative<V>>, k: nat)
    requires DistinctTypes(alts) && k < |alts|
    ensures IndexOf(alts, alts[k].id) == k
  {
  }

  /** boost::get<T>(v), T being the type `id`: the payload when T is the active type, bad_get otherwise. */
  function Get<V>(alts: seq<Alternative<V>>, id: nat, v: Variant<V>): (r: Result<V>)
    ensures r.Ok? <==> v.which < |alts| && alts[v.which].id == id
    ensures r.Ok? ==> r.value == v.payload
    ensures r.Err? ==> r.error == BadGet
  {
    if v.which < |alts| && alts[v.which].id == id then Ok(v.payload) else Err(BadGet)
  }

  /** `v = item` for an item of type `id`: the variant switches to the position of that type. */
  function Assign<V>(alts: seq<Alternative<V>>, id: nat, item: V): (v: Variant<V>)
    ensures (exists k :: 0 <= k < |alts| && alts[k].id == id) ==> v.which < |alts| && alts[v.which].id == id
    ensures v.payload == item
  {
    Variant(IndexOf(alts, id), item)
  }
}
