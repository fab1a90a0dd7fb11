/**
 * The msgpack adaptor for boost::variant<Ts...>: the two dispatch tables,
 * each built on its first use by recursion over the template arguments,
 * and the envelope codec `[which(), payload]` that uses them.
 */
module VariantAdaptor {
  import opened Msgpack
  import opened BoostVariant

  /** A pack handler: what `p.pack(boost::get<T>(v))` writes, or the exception it throws. */
  type PackerFn<!V> = Variant<V> -> Result<Obj>

  /** An unpack handler: the value it assigns to the destination variant, or the exception it throws. */
  type UnpackerFn<V> = Obj -> Result<Variant<V>>

  /** A default-constructed std::function: calling it throws. */
  function EmptyPacker<V>(): PackerFn<V> {
    (v: Variant<V>) => Err(BadFunctionCall)
  }

  function EmptyUnpacker<V>(): UnpackerFn<V> {
    (o: Obj) => Err(BadFunctionCall)
  }

  /** The lambda stored for type `t`: encode `boost::get<T>(v)`. */
  function PackerFor<V>(alts: seq<Alternative<V>>, t: Alternative<V>): PackerFn<V> {
    (v: Variant<V>) =>
      match Get(alts, t.id, v)
      case Ok(x) => Ok(t.encode(x))
      case Err(e) => Err(e)
  }

  /** The lambda stored for type `t`: `T item; o.convert(item); v = item;`. */
  function UnpackerFor<V>(alts: seq<Alternative<V>>, t: Alternative<V>): UnpackerFn<V> {
    (o: Obj) =>
      match t.convert(o, t.init)
      case Ok(item) => Ok(Assign(alts, t.id, item))
      case Err(e) => Err(e)
  }

  /** The pack table in template argument order: entry k is the handler of the k-th type. */
  function PackerTable<V>(alts: seq<Alternative<V>>): seq<PackerFn<V>> {
    seq(|alts|, k requires 0 <= k < |alts| => PackerFor(alts, alts[k]))
  }

  function UnpackerTable<V>(alts: seq<Alternative<V>>): seq<UnpackerFn<V>> {
    seq(|alts|, k requires 0 <= k < |alts| => UnpackerFor(alts, alts[k]))
  }

  /** `Index = N - sizeof...(Ts) - 1`: the slot of the head type when `rest` types follow it. */
  function SlotIndex(n: nat, rest: nat): (i: nat)
    requires rest < n
    ensures i < n && i + rest + 1 == n
  {
    n - rest - 1
  }

  /**
   * create_packers_impl<Stream, Var, N, T, Ts...>: `ts` is the pack `T, Ts...`
   * still to be placed, the suffix of the type list. Each level writes the slot
   * of its head type and no other; the base case (`ts` empty) writes nothing.
   */
  method CreatePackersImpl<V>(arr: array<PackerFn<V>>, alts: seq<Alternative<V>>, ts: seq<Alternative<V>>)
    requires arr.Length == |alts|
    requires |ts| <= |alts| && ts == alts[|alts| - |ts|..]
    modifies arr
    ensures forall k :: |alts| - |ts| <= k < |alts| ==> arr[k] == PackerFor(alts, alts[k])
    ensures forall k :: 0 <= k < |alts| - |ts| ==> arr[k] == old(arr[k])
    decreases |ts|
  {
    if ts != [] {
      var index := SlotIndex(arr.Length, |ts[1..]|);
      arr[index] := PackerFor(alts, ts[0]);
      CreatePackersImpl(arr, alts, ts[1..]);
    }
  }

  /** create_packers<Stream, N, T, Ts...>: the runtime array of pack functions in template argument order. */
  method CreatePackers<V>(alts: seq<Alternative<V>>) returns (arr: array<PackerFn<V>>)
    requires |alts| >= 1
    ensures fresh(arr)
    ensures arr.Length == |alts| && arr[..] == PackerTable(alts)
  {
    arr := new PackerFn<V>[|alts|](_ => EmptyPacker());
    CreatePackersImpl(arr, alts, alts);
  }

  /** create_unpackers_impl<Var, N, T, Ts...>, laid out like CreatePackersImpl. */
  method CreateUnpackersImpl<V>(arr: array<UnpackerFn<V>>, alts: seq<Alternative<V>>, ts: seq<Alternative<V>>)
    requires arr.Length == |alts|
    requires |ts| <= |alts| && ts == alts[|alts| - |ts|..]
    modifies arr
    ensures forall k :: |alts| - |ts| <= k < |alts| ==> arr[k] == UnpackerFor(alts, alts[k])
    ensures forall k :: 0 <= k < |alts| - |ts| ==> arr[k] == old(arr[k])
    decreases |ts|
  {
    if ts != [] {
      var index := SlotIndex(arr.Length, |ts[1..]|);
      arr[index] := UnpackerFor(alts, ts[0]);
      CreateUnpackersImpl(arr, alts, ts[1..]);
    }
  }

  /** create_unpackers<N, T, Ts...>: the runtime array of unpack functions in template argument order. */
  method CreateUnpackers<V>(alts: seq<Alternative<V>>) returns (arr: array<UnpackerFn<V>>)
    requires |alts| >= 1
    ensures fresh(arr)
    ensures arr.Length == |alts| && arr[..] == UnpackerTable(alts)
  {
    arr := new UnpackerFn<V>[|alts|](_ => EmptyUnpacker());
    CreateUnpackersImpl(arr, alts, alts);
  }

  /** Entry k of the pack table encodes exactly the variants whose active alternative is k. */
  lemma PackerEntry<V>(alts: seq<Alternative<V>>, k: nat, v: Variant<V>)
    requires DistinctTypes(alts) && k < |alts| && v.which < |alts|
    ensures PackerTable(alts)[k](v) == if v.which == k then Ok(alts[k].encode(v.payload)) else Err(BadGet)
  {
    assert alts[v.which].id == alts[k].id <==> v.which == k by {
      if v.which < k {
        assert alts[v.which].id != alts[k].id;
      } else if v.which > k {
        assert alts[k].id != alts[v.which].id;
      }
    }
    var g := Get(alts, alts[k].id, v);
    assert PackerTable(alts)[k](v) == match g case Ok(x) => Ok(alts[k].encode(x)) case Err(e) => Err(e);
  }

  /** Entry k of the unpack table converts into the k-th type and makes it the active alternative. */
  lemma UnpackerEntry<V>(alts: seq<Alternative<V>>, k: nat, o: Obj)
    requires DistinctTypes(alts) && k < |alts|
    ensures UnpackerTable(alts)[k](o) == ConvertAs(alts, k, o)
  {
    IndexOfOwnPosition(alts, k);
  }

  /** std::array::at(pos) called with an `int`: the index converts to size_t first. */
  function At<H>(arr: array<H>, i: int): (r: Result<H>)
    reads arr
    ensures r.Ok? <==> ToSizeT(i) < arr.Length
    ensures r.Ok? ==> r.value == arr[ToSizeT(i)]
    ensures r.Err? ==> r.error == OutOfRange
  {
    var pos := ToSizeT(i);
    if pos < arr.Length then Ok(arr[pos]) else Err(OutOfRange)
  }

  /** An `int` index passes at() on a table of at most INT_MAX entries exactly when it is in [0, n). */
  lemma SizeTIndexInRange(i: int, n: nat)
    requires INT_MIN <= i <= INT_MAX && n <= INT_MAX
    ensures ToSizeT(i) < n <==> 0 <= i < n
  {
  }

  /** Decoding a payload as alternative t: alternative t's converter runs on a default-constructed value. */
  function ConvertAs<V>(alts: seq<Alternative<V>>, t: nat, p: Obj): Result<Variant<V>>
    requires t < |alts|
  {
    match alts[t].convert(p, alts[t].init)
    case Ok(x) => Ok(Variant(t, x))
    case Err(e) => Err(e)
  }

  /** The envelope `[which(), payload]` that pack<boost::variant<Ts...>> writes. */
  function Encode<V>(alts: seq<Alternative<V>>, v: Variant<V>): (o: Obj)
    requires v.which < |alts|
    ensures o.Kind() == ArrayType && |o.elems| == 2
    ensures v.which <= INT_MAX ==> AsInt(o.elems[0]) == Ok(v.which)
    ensures o.elems[1] == alts[v.which].encode(v.payload)
  {
    Arr([Integer(v.which), alts[v.which].encode(v.payload)])
  }

  /** What convert<boost::variant<Ts...>> makes of an object: the variant it assigns, or the exception. */
  function Decode<V>(alts: seq<Alternative<V>>, o: Obj): (r: Result<Variant<V>>)
    ensures o.Kind() != ArrayType ==> r == Err(TypeError)
    ensures o.Arr? && |o.elems| != 2 ==> r == Err(TypeError)
    ensures o.Arr? && |o.elems| == 2 && AsInt(o.elems[0]).Err? ==> r == Err(TypeError)
    ensures (o.Arr? && |o.elems| == 2 && o.elems[0].Integer? && INT_MIN <= o.elems[0].i <= INT_MAX &&
             !(0 <= o.elems[0].i < |alts|)) ==> r == Err(OutOfRange)
    ensures r.Ok? ==> r.value.which < |alts| && o.Arr? && o == Arr([Integer(r.value.which), o.elems[1]]) &&
                      alts[r.value.which].convert(o.elems[1], alts[r.value.which].init) == Ok(r.value.payload)
  {
    if o.Kind() != ArrayType then Err(TypeError)
    else if |o.elems| != 2 then Err(TypeError)
    else
      match AsInt(o.elems[0])
      case Err(e) => Err(e)
      case Ok(t) =>
        if 0 <= t < |alts| then
          var r := ConvertAs(alts, t, o.elems[1]);
          assert r.Ok? ==> o == Arr([Integer(t), o.elems[1]]);
          r
        else Err(OutOfRange)
  }

  /** Converse of Decode's last postcondition: only the tag picks the converter, whatever the payload looks like. */
  lemma DecodeDispatchesOnTag<V>(alts: seq<Alternative<V>>, t: int, p: Obj)
    requires INT_MIN <= t <= INT_MAX
    ensures Decode(alts, Arr([Integer(t), p])) == if 0 <= t < |alts| then ConvertAs(alts, t, p) else Err(OutOfRange)
  {
    var o := Arr([Integer(t), p]);
    assert o.elems[0] == Integer(t) && o.elems[1] == p;
  }

  /** A successful decode yields a variant that keeps boost::variant's invariant. */
  lemma DecodeHolds<V>(alts: seq<Alternative<V>>, o: Obj)
    requires forall k :: 0 <= k < |alts| ==> ConvertsInto(alts[k])
    requires Decode(alts, o).Ok?
    ensures Holds(alts, Decode(alts, o).value)
  {
    var w := Decode(alts, o).value;
    assert ConvertsInto(alts[w.which]);
    assert alts[w.which].convert(o.elems[1], alts[w.which].init).Ok?;
  }

  /** Decoding an encoded variant restores it, when its alternative's own hooks round-trip. */
  lemma RoundTrip<V(!new)>(alts: seq<Alternative<V>>, v: Variant<V>)
    requires |alts| <= INT_MAX && Holds(alts, v) && RoundTrips(alts[v.which])
    ensures Decode(alts, Encode(alts, v)) == Ok(v)
  {
    var a := alts[v.which];
    assert a.convert(a.encode(v.payload), a.init) == Ok(v.payload);
    DecodeDispatchesOnTag(alts, v.which, a.encode(v.payload));
  }

  /** Distinct variants have distinct envelopes: the encoding loses neither the tag nor the payload. */
  lemma EncodeInjective<V(!new)>(alts: seq<Alternative<V>>, v1: Variant<V>, v2: Variant<V>)
    requires |alts| <= INT_MAX && Holds(alts, v1) && Holds(alts, v2)
    requires RoundTrips(alts[v1.which]) && RoundTrips(alts[v2.which])
    requires Encode(alts, v1) == Encode(alts, v2)
    ensures v1 == v2
  {
    RoundTrip(alts, v1);
    RoundTrip(alts, v2);
  }

  /** The destination of convert<boost::variant<Ts...>>: the variant passed by reference. */
  class VariantRef<V> {
    var value: Variant<V>

    constructor (v: Variant<V>)
      ensures value == v
    {
      value := v;
    }
  }

  /**
   * The adaptor for one variant type, with its two function-local static
   * tables. They are built once, when the adaptor is first used, and no
   * method here may modify them.
   */
  class VariantCodec<V> {
    const alts: seq<Alternative<V>>
    const packers: array<PackerFn<V>>      // static const PACKERS
    const unpackers: array<UnpackerFn<V>>  // static const UNPACKERS

    ghost predicate Valid()
      reads packers, unpackers
    {
      WellFormed(alts) && packers[..] == PackerTable(alts) && unpackers[..] == UnpackerTable(alts)
    }

    /** First use: both static tables are initialised. */
    constructor (alts: seq<Alternative<V>>)
      requires WellFormed(alts)
      ensures Valid() && this.alts == alts
    {
      this.alts := alts;
      var p := CreatePackers(alts);
      var u := CreateUnpackers(alts);
      packers := p;
      unpackers := u;
    }

    /** pack<boost::variant<Ts...>>::operator(): writes the envelope of `v` to `p`. */
    method Pack(p: Packer, v: Variant<V>)
      requires Valid() && v.which < |alts|
      modifies p
      ensures p.tokens == old(p.tokens) + Serialize(Encode(alts, v))
    {
      p.PackArray(2);
      var typeIndex := v.which;
      p.Pack(Integer(typeIndex));
      var handler := At(packers, typeIndex);
      if handler.Err? {
        assert false;
      }
      PackerEntry(alts, typeIndex, v);
      var payload := handler.value(v);
      if payload.Err? {
        assert false;
      }
      p.Pack(payload.value);
      SerializePair(Integer(typeIndex), payload.value);
    }

    /**
     * convert<boost::variant<Ts...>>::operator(): validates the envelope,
     * dispatches on its tag, and assigns `dest` only once the payload has
     * converted; every failure leaves `dest` as it was.
     */
    method Convert(o: Obj, dest: VariantRef<V>) returns (r: Outcome)
      requires Valid()
      modifies dest
      ensures Decode(alts, o).Ok? ==> r == Pass && dest.value == Decode(alts, o).value
      ensures Decode(alts, o).Err? ==> r == Fail(Decode(alts, o).error) && dest.value == old(dest.value)
    {
      if o.Kind() != ArrayType {
        return Fail(TypeError);
      }
      if |o.elems| != 2 {
        return Fail(TypeError);
      }
      var typeIndex := AsInt(o.elems[0]);
      if typeIndex.Err? {
        return Fail(typeIndex.error);
      }
      var t := typeIndex.value;
      SizeTIndexInRange(t, |alts|);
      var handler := At(unpackers, t);
      if handler.Err? {
        return Fail(handler.error);
      }
      UnpackerEntry(alts, t, o.elems[1]);
      var item := handler.value(o.elems[1]);
      if item.Err? {
        return Fail(item.error);
      }
      dest.value := item.value;
      return Pass;
    }
  }
}
