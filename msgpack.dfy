/**
 * An abstract view of the parts of msgpack that the boost::variant adaptor
 * relies on: the decoded object tree (msgpack::object), the kinds it reports
 * (msgpack::type), the packer stream, and the `as<int>` conversion.
 * Byte-level encoding is not modelled: a packer stream is a sequence of
 * tokens in which only array and map headers carry structure.
 */
module Msgpack {

  const INT_MIN: int := -0x8000_0000
  const INT_MAX: int := 0x7fff_ffff
  /** std::size_t is taken to be 64 bits wide. */
  const SIZE_MODULUS: int := 0x1_0000_0000_0000_0000

  /** The exceptions that can leave the adaptor. */
  datatype Error =
    | TypeError        // msgpack::type_error
    | OutOfRange       // std::out_of_range, thrown by std::array::at
    | BadGet           // boost::bad_get
    | BadFunctionCall  // std::bad_function_call, calling an empty std::function

  datatype Result<T> = Ok(value: T) | Err(error: Error)

  /** Outcome of a call that returns normally or throws. */
  datatype Outcome = Pass | Fail(error: Error)

  /** msgpack::type, with POSITIVE_INTEGER and NEGATIVE_INTEGER merged. */
  datatype ObjType = NilType | BooleanType | IntegerType | FloatType | StrType | ArrayType | MapType

  /** msgpack::object: a decoded msgpack value. */
  datatype Obj =
    | Nil
    | Boolean(b: bool)
    | Integer(i: int)
    | Float(bits: bv64)
    | Str(s: string)
    | Arr(elems: seq<Obj>)
    | Map(entries: seq<(Obj, Obj)>)
  {
    /** The `type` field of msgpack::object. */
    function Kind(): (t: ObjType)
      ensures t == ArrayType <==> Arr?
    {
      match this
      case Nil => NilType
      case Boolean(_) => BooleanType
      case Integer(_) => IntegerType
      case Float(_) => FloatType
      case Str(_) => StrType
      case Arr(_) => ArrayType
      case Map(_) => MapType
    }
  }

  /** msgpack's `object::as<int>()`: integers within `int` convert, anything else throws type_error. */
  function AsInt(o: Obj): (r: Result<int>)
    ensures r.Ok? <==> o.Integer? && INT_MIN <= o.i <= INT_MAX
    ensures r.Ok? ==> r.value == o.i
    ensures r.Err? ==> r.error == TypeError
  {
    if o.Integer? && INT_MIN <= o.i <= INT_MAX then Ok(o.i) else Err(TypeError)
  }

  /** Conversion of an `int` to std::size_t: reduction modulo 2^64. */
  function ToSizeT(i: int): (s: nat)
    ensures s < SIZE_MODULUS
    ensures 0 <= i < SIZE_MODULUS ==> s == i
    ensures -SIZE_MODULUS <= i < 0 ==> s == i + SIZE_MODULUS
  {
    i % SIZE_MODULUS
  }

  /** One unit written to a packer stream. */
  datatype Token = ArrayHeader(size: nat) | MapHeader(size: nat) | Atom(o: Obj)

  /** The tokens that packing an object writes: a header, then each element in order. */
  function Serialize(o: Obj): seq<Token>
    decreases o, 1
  {
    match o
    case Arr(es) => [ArrayHeader(|es|)] + SerializeAll(es)
    case Map(ps) => [MapHeader(|ps|)] + SerializePairs(ps)
    case _ => [Atom(o)]
  }

  function SerializeAll(es: seq<Obj>): seq<Token>
    decreases es, 0
  {
    if es == [] then [] else Serialize(es[0]) + SerializeAll(es[1..])
  }

  function SerializePairs(ps: seq<(Obj, Obj)>): seq<Token>
    decreases ps, 0
  {
    if ps == [] then []
    else
      var (k, v) := ps[0];
      assert k < ps[0] && v < ps[0];
      Serialize(k) + Serialize(v) + SerializePairs(ps[1..])
  }

  /** Packing the header of a two-element array and then its two elements writes the same tokens as packing the array. */
  lemma SerializePair(a: Obj, b: Obj)
    ensures [ArrayHeader(2)] + Serialize(a) + Serialize(b) == Serialize(Arr([a, b]))
  {
    var es := [a, b];
    assert es[1..] == [b] && es[1..][1..] == [];
    calc {
      Serialize(Arr(es));
      [ArrayHeader(2)] + SerializeAll(es);
      [ArrayHeader(2)] + (Serialize(a) + SerializeAll([b]));
      [ArrayHeader(2)] + (Serialize(a) + (Serialize(b) + SerializeAll([])));
    }
  }

  /** msgpack::packer<Stream>: what it has written so far. */
  class Packer {
    var tokens: seq<Token>

    constructor ()
      ensures tokens == []
    {
      tokens := [];
    }

    /** packer::pack_array(n): writes an array header. */
    method PackArray(n: nat)
      modifies this
      ensures tokens == old(tokens) + [ArrayHeader(n)]
    {
      tokens := tokens + [ArrayHeader(n)];
    }

    /** packer::pack(x), for a value whose msgpack form is `o`. */
    method Pack(o: Obj)
      modifies this
      ensures tokens == old(tokens) + Serialize(o)
    {
      tokens := tokens + Serialize(o);
    }
  }
}
