/**
 * The `variant<double, int, bool>` of the unit tests, instantiated over the
 * general adaptor: its three alternatives, the round trips the tests expect,
 * and the rejection of a tag beyond the type list.
 */
module Scenarios {
  import opened Msgpack
  import opened BoostVariant
  import opened VariantAdaptor

  /** Values of the three payload types; a double is kept as its IEEE 754 bit pattern. */
  datatype Scalar = Double(bits: bv64) | Int(i: int) | Bool(b: bool)

  /** 3.14 as a binary64 bit pattern. */
  const PI_BITS: bv64 := 0x4009_1EB8_51EB_851F

  function DoubleType(): Alternative<Scalar> {
    Alternative(
      0,
      (x: Scalar) => x.Double?,
      (x: Scalar) => if x.Double? then Float(x.bits) else Nil,
      (o: Obj, x: Scalar) => if o.Float? then Ok(Double(o.bits)) else Err(TypeError),
      Double(0))
  }

  function IntType(): Alternative<Scalar> {
    Alternative(
      1,
      (x: Scalar) => x.Int? && INT_MIN <= x.i <= INT_MAX,
      (x: Scalar) => if x.Int? then Integer(x.i) else Nil,
      (o: Obj, x: Scalar) => match AsInt(o) case Ok(i) => Ok(Int(i)) case Err(e) => Err(e),
      Int(0))
  }

  function BoolType(): Alternative<Scalar> {
    Alternative(
      2,
      (x: Scalar) => x.Bool?,
      (x: Scalar) => if x.Bool? then Boolean(x.b) else Nil,
      (o: Obj, x: Scalar) => if o.Boolean? then Ok(Bool(o.b)) else Err(TypeError),
      Bool(false))
  }

  /** The type list `double, int, bool`, in declaration order. */
  function SimpleTypes(): (alts: seq<Alternative<Scalar>>)
    ensures |alts| == 3
  {
    [DoubleType(), IntType(), BoolType()]
  }

  /** The test variant type is well formed and each of its alternatives round-trips. */
  lemma SimpleTypesSound()
    ensures WellFormed(SimpleTypes())
    ensures forall k :: 0 <= k < 3 ==> RoundTrips(SimpleTypes()[k]) && ConvertsInto(SimpleTypes()[k])
  {
    var alts := SimpleTypes();
    assert alts[0] == DoubleType() && alts[1] == IntType() && alts[2] == BoolType();
    assert RoundTrips(IntType()) by {
      forall x | IntType().accepts(x)
        ensures IntType().convert(IntType().encode(x), IntType().init) == Ok(x)
      {
        assert AsInt(Integer(x.i)) == Ok(x.i);
      }
    }
  }

  /** The double 3.14 and the int 7 decode back as the same alternative with the same value. */
  lemma ScenariosAB()
    ensures Decode(SimpleTypes(), Encode(SimpleTypes(), Variant(0, Double(PI_BITS)))) == Ok(Variant(0, Double(PI_BITS)))
    ensures Decode(SimpleTypes(), Encode(SimpleTypes(), Variant(1, Int(7)))) == Ok(Variant(1, Int(7)))
    ensures Decode(SimpleTypes(), Encode(SimpleTypes(), Variant(2, Bool(true)))) == Ok(Variant(2, Bool(true)))
  {
    SimpleTypesSound();
    RoundTrip(SimpleTypes(), Variant(0, Double(PI_BITS)));
    RoundTrip(SimpleTypes(), Variant(1, Int(7)));
    RoundTrip(SimpleTypes(), Variant(2, Bool(true)));
  }

  /** The same payload object decodes as int or bool as the tag alone says, and fails under the other. */
  lemma TagDisambiguates()
    ensures Decode(SimpleTypes(), Arr([Integer(1), Integer(1)])) == Ok(Variant(1, Int(1)))
    ensures Decode(SimpleTypes(), Arr([Integer(2), Integer(1)])) == Err(TypeError)
    ensures Decode(SimpleTypes(), Arr([Integer(2), Boolean(true)])) == Ok(Variant(2, Bool(true)))
    ensures Decode(SimpleTypes(), Arr([Integer(1), Boolean(true)])) == Err(TypeError)
  {
    DecodeDispatchesOnTag(SimpleTypes(), 1, Integer(1));
    DecodeDispatchesOnTag(SimpleTypes(), 2, Integer(1));
    DecodeDispatchesOnTag(SimpleTypes(), 2, Boolean(true));
    DecodeDispatchesOnTag(SimpleTypes(), 1, Boolean(true));
  }

  /** Tag 99 with three alternatives is a range error, whatever the payload. */
  lemma ScenarioD(p: Obj)
    ensures Decode(SimpleTypes(), Arr([Integer(99), p])) == Err(OutOfRange)
  {
    DecodeDispatchesOnTag(SimpleTypes(), 99, p);
  }

  /**
   * `dest = unpack<var_t>(pack(v))` of the unit tests: packs `v` to a fresh
   * stream, then converts into `dest` the object that stream holds.
   */
  method PackUnpack<V(!new)>(codec: VariantCodec<V>, v: Variant<V>, dest: VariantRef<V>) returns (tokens: seq<Token>)
    requires codec.Valid() && Holds(codec.alts, v) && RoundTrips(codec.alts[v.which])
    modifies dest
    ensures tokens == Serialize(Encode(codec.alts, v))
    ensures dest.value == v
  {
    var p := new Packer();
    codec.Pack(p, v);
    tokens := p.tokens;
    RoundTrip(codec.alts, v);
    var r := codec.Convert(Encode(codec.alts, v), dest);
  }

  /**
   * The Simple unit test: 3.14, 7 and true, each packed and converted into a
   * variant that held another alternative, rotating v1 -> v2 -> v3 -> v1.
   */
  method SimpleTest() returns (w1: Variant<Scalar>, w2: Variant<Scalar>, w3: Variant<Scalar>)
    ensures w1 == Variant(2, Bool(true))
    ensures w2 == Variant(0, Double(PI_BITS))
    ensures w3 == Variant(1, Int(7))
  {
    SimpleTypesSound();
    var codec := new VariantCodec(SimpleTypes());
    var v1, v2, v3 := Variant(0, Double(PI_BITS)), Variant(1, Int(7)), Variant(2, Bool(true));
    var d1 := new VariantRef(v1);
    var d2 := new VariantRef(v2);
    var d3 := new VariantRef(v3);
    var s1 := PackUnpack(codec, v1, d2);
    var s2 := PackUnpack(codec, v2, d3);
    var s3 := PackUnpack(codec, v3, d1);
    w1, w2, w3 := d1.value, d2.value, d3.value;
  }

  /** Converting an envelope with tag 99 fails with a range error and leaves the destination as it was. */
  method ScenarioDConvert(p: Obj) returns (r: Outcome, after: Variant<Scalar>)
    ensures r == Fail(OutOfRange)
    ensures after == Variant(1, Int(5))
  {
    SimpleTypesSound();
    var codec := new VariantCodec(SimpleTypes());
    var dest := new VariantRef(Variant(1, Int(5)));
    ScenarioD(p);
    r := codec.Convert(Arr([Integer(99), p]), dest);
    after := dest.value;
  }
}
