/**
 * The AMF0 string body (section 2.4 of the AMF0 specification): a 16-bit
 * big-endian length prefix followed by that many ASCII bytes.
 *
 * The object keeps the prefix it writes (`bodySize`) apart from the text it
 * writes (`value`): construction and decoding set both consistently, but
 * `value` may be reassigned afterwards and the prefix is never recomputed.
 */
module AmfStrings {
  import opened Wrappers
  import opened Amf

  /** An AMF0 string object: its public text and its private stored length. */
  datatype AmfString = AmfString(value: string, bodySize: Uint16)

  /** Why a body could not be read: the input ended inside the prefix or the text. */
  datatype DecodeError = EndOfInputInPrefix | EndOfInputInText

  /** A decoded string and the number of body bytes it used. */
  datatype Decoded = Decoded(str: AmfString, consumed: nat)

  predicate IsAsciiChar(c: char)
  {
    c as int < 0x80
  }

  predicate IsAscii(s: string)
  {
    forall i :: 0 <= i < |s| ==> IsAsciiChar(s[i])
  }

  /** The stored length describes the stored text. */
  predicate Consistent(a: AmfString)
  {
    a.bodySize == |a.value|
  }

  /** The US-ASCII encoder: a character outside ASCII becomes '?'. */
  function ByteOfChar(c: char): (b: Byte)
    ensures b < 0x80
    ensures IsAsciiChar(c) <==> b as int == c as int
    ensures !IsAsciiChar(c) ==> b == 0x3F
  {
    if IsAsciiChar(c) then c as int as Byte else '?' as int as Byte
  }

  /** The US-ASCII decoder: a byte outside ASCII becomes U+FFFD. */
  function CharOfByte(b: Byte): (c: char)
    ensures b < 0x80 <==> IsAsciiChar(c)
    ensures IsAsciiChar(c) ==> c as int == b as int
  {
    if b < 0x80 then b as int as char else 0xFFFD as char
  }

  /** `AmfString(value)`: the stored length is taken from the text once. */
  function New(s: string): (a: AmfString)
    requires IsAscii(s) && |s| < 0x1_0000
    ensures a.value == s && Consistent(a)
    ensures GetSize(a) == |s|
  {
    AmfString(s, |s|)
  }

  /** Assigning the public `value` field; the stored length is left alone. */
  function SetValue(a: AmfString, v: string): (r: AmfString)
    ensures r.value == v && r.bodySize == a.bodySize
    ensures GetSize(r) == GetSize(a)
  {
    a.(value := v)
  }

  /** `getSize()`: the body length without the two prefix bytes. */
  function GetSize(a: AmfString): (n: nat)
    ensures n < 0x1_0000
    ensures BigEndian16(Encode(a)[0], Encode(a)[1]) == n
    ensures Consistent(a) ==> |Encode(a)| == n + 2
  {
    a.bodySize
  }

  /** `getType()`: always the AMF0 string type. */
  function GetType(a: AmfString): (t: AmfType)
    ensures Marker(t) == 0x02
  {
    StringType
  }

  /** `writeBody`: the stored length, big-endian, then the text's ASCII bytes. */
  function Encode(a: AmfString): (bytes: seq<Byte>)
    ensures |bytes| == 2 + |a.value|
    ensures BigEndian16(bytes[0], bytes[1]) == a.bodySize
    ensures forall i :: 0 <= i < |a.value| ==> bytes[2 + i] == ByteOfChar(a.value[i])
  {
    [(a.bodySize / 0x100) as Byte, (a.bodySize % 0x100) as Byte]
      + seq(|a.value|, i requires 0 <= i < |a.value| => ByteOfChar(a.value[i]))
  }

  /** `readBody`: read the prefix n, then exactly n bytes of text. */
  function Decode(bytes: seq<Byte>): (r: Result<Decoded, DecodeError>)
    ensures |bytes| < 2 ==> r == Failure(EndOfInputInPrefix)
    ensures |bytes| >= 2 ==>
              (r.Success? <==> 2 + BigEndian16(bytes[0], bytes[1]) <= |bytes|)
    ensures |bytes| >= 2 && r.Failure? ==> r.error == EndOfInputInText
    ensures r.Success? ==>
              && r.value.str.bodySize == BigEndian16(bytes[0], bytes[1])
              && Consistent(r.value.str)
              && r.value.consumed == 2 + GetSize(r.value.str)
              && forall i :: 0 <= i < |r.value.str.value| ==>
                   r.value.str.value[i] == CharOfByte(bytes[2 + i])
  {
    if |bytes| < 2 then Failure(EndOfInputInPrefix)
    else
      var n := BigEndian16(bytes[0], bytes[1]);
      if |bytes| - 2 < n then Failure(EndOfInputInText)
      else
        var text := seq(n, i requires 0 <= i < n => CharOfByte(bytes[2 + i]));
        Success(Decoded(AmfString(text, n), 2 + n))
  }

  /** The empty string is written as a zero prefix alone. */
  lemma EncodeEmpty()
    ensures Encode(New("")) == [0x00, 0x00]
  {
  }

  /** "ab" is written as prefix 2 followed by 'a' and 'b'. */
  lemma EncodeAb()
    ensures Encode(New("ab")) == [0x00, 0x02, 0x61, 0x62]
  {
  }

  /** ASCII characters survive the encoder and decoder pair. */
  lemma AsciiCharRoundTrip(c: char)
    requires IsAsciiChar(c)
    ensures CharOfByte(ByteOfChar(c)) == c
  {
  }

  /**
   * Decoding the body written for a freshly constructed string gives back
   * that string, consuming exactly its bytes and nothing that follows.
   */
  lemma RoundTrip(s: string, rest: seq<Byte>)
    requires IsAscii(s) && |s| < 0x1_0000
    ensures Decode(Encode(New(s)) + rest) == Success(Decoded(New(s), 2 + |s|))
  {
    var bytes := Encode(New(s)) + rest;
    var r := Decode(bytes);
    assert BigEndian16(bytes[0], bytes[1]) == |s|;
    assert r.Success?;
    forall i | 0 <= i < |s|
      ensures r.value.str.value[i] == s[i]
    {
      assert bytes[2 + i] == ByteOfChar(s[i]);
      AsciiCharRoundTrip(s[i]);
    }
    assert r.value.str.value == s;
  }

  /**
   * Conversely, writing back a decoded string reproduces the bytes it was
   * read from, as long as those bytes were ASCII.
   */
  lemma EncodeDecoded(bytes: seq<Byte>)
    requires Decode(bytes).Success?
    requires forall i :: 2 <= i < Decode(bytes).value.consumed ==> bytes[i] < 0x80
    ensures Encode(Decode(bytes).value.str) == bytes[..Decode(bytes).value.consumed]
  {
  }

  /** The prefix written is the stored length, whatever text was assigned since. */
  lemma PrefixIsStoredLength(a: AmfString, v: string)
    ensures Encode(SetValue(a, v))[..2] == Encode(a)[..2]
  {
  }

  /**
   * Reassigning the text after construction desynchronises the body: "ab"
   * reassigned to "abc" still announces two bytes, so a reader stops before
   * the 'c'.
   */
  lemma StalePrefixAfterReassignment()
    ensures Decode(Encode(SetValue(New("ab"), "abc")))
              == Success(Decoded(AmfString("ab", 2), 4))
  {
    var e := Encode(SetValue(New("ab"), "abc"));
    assert e[2] == ByteOfChar('a') && e[3] == ByteOfChar('b');
    assert Decode(e).value.str.value == "ab";
  }
}
