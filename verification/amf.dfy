/**
 * AMF0 values as the command layer composes them.
 *
 * Numbers are kept as integers: every number the command layer emits is
 * integral, so the IEEE-754 double of the wire format is not modelled.
 */
module Amf {
  import opened Wrappers

  /** One octet on the wire. */
  newtype Byte = b: int | 0 <= b < 0x100

  /** The range of an unsigned 16-bit big-endian length prefix. */
  type Uint16 = n: int | 0 <= n < 0x1_0000

  /** The big-endian value of a two-byte prefix. */
  function BigEndian16(hi: Byte, lo: Byte): (n: Uint16)
  {
    hi as int * 0x100 + lo as int
  }

  /** The type of an AMF0 value, as reported by `getType()`. */
  datatype AmfType =
    | NumberType | BooleanType | StringType | ObjectType | NullType
    | UndefinedType | EcmaArrayType | ObjectEndType | StrictArrayType | DateType

  /** The type marker byte of each type (section 2.1 of the AMF0 specification). */
  function Marker(t: AmfType): (b: Byte)
    ensures b <= 0x0B
  {
    match t
    case NumberType => 0x00
    case BooleanType => 0x01
    case StringType => 0x02
    case ObjectType => 0x03
    case NullType => 0x05
    case UndefinedType => 0x06
    case EcmaArrayType => 0x08
    case ObjectEndType => 0x09
    case StrictArrayType => 0x0A
    case DateType => 0x0B
  }

  /** An AMF0 value as the command layer builds it. */
  datatype AmfValue =
    | Number(number: int)
    | Boolean(flag: bool)
    | Str(text: string)
    | Null
    | Object(properties: seq<Property>)
    | EcmaArray(properties: seq<Property>)

  /** One named entry of an object or ECMA array. */
  datatype Property = Property(key: string, value: AmfValue)

  /** The keys of a property list, in order. */
  function Keys(props: seq<Property>): seq<string>
  {
    seq(|props|, i requires 0 <= i < |props| => props[i].key)
  }

  /** No key occurs twice. */
  predicate DistinctKeys(props: seq<Property>)
  {
    forall i, j :: 0 <= i < j < |props| ==> props[i].key != props[j].key
  }

  /** The value stored under `key`, taking the first entry that carries it. */
  function Lookup(props: seq<Property>, key: string): (r: Option<AmfValue>)
    ensures r.None? <==> key !in Keys(props)
    ensures r.Some? ==> Property(key, r.value) in props
  {
    if |props| == 0 then None
    else if props[0].key == key then
      assert Keys(props)[0] == key;
      Some(props[0].value)
    else
      assert Keys(props) == [props[0].key] + Keys(props[1..]);
      Lookup(props[1..], key)
  }

  /** A lookup finds the first entry that carries the key: no earlier entry has it. */
  lemma {:induction false} LookupFindsFirst(props: seq<Property>, key: string)
    requires Lookup(props, key).Some?
    ensures exists i :: 0 <= i < |props| && props[i] == Property(key, Lookup(props, key).value)
                        && key !in Keys(props[..i])
  {
    if props[0].key == key {
      assert Keys(props[..0]) == [];
      assert props[0] == Property(key, Lookup(props, key).value);
    } else {
      var rest := props[1..];
      LookupFindsFirst(rest, key);
      var i :| 0 <= i < |rest| && rest[i] == Property(key, Lookup(rest, key).value)
               && key !in Keys(rest[..i]);
      assert Keys(props[..i + 1]) == [props[0].key] + Keys(rest[..i]);
      assert props[i + 1] == rest[i];
    }
  }

  /** With distinct keys, looking up an entry's key finds that entry's value. */
  lemma {:induction false} LookupAt(props: seq<Property>, i: nat)
    requires DistinctKeys(props) && i < |props|
    ensures Lookup(props, props[i].key) == Some(props[i].value)
  {
    if i > 0 {
      assert props[0].key != props[i].key;
      assert props[1..][i - 1] == props[i];
      LookupAt(props[1..], i - 1);
    }
  }
}
