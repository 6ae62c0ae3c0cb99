/**
 * Wrapping an RSA key in the Distinguished Encoding Rules, against a decoder for the length octets of section 8.1.3 of
 * ITU-T X.690 and for PrivateKeyInfo of section 5 of RFC 5208.
 */
module DerEncoding {
  import opened Wrappers

  type Byte = b: nat | b < 256

  type Bytes = seq<Byte>

  const TWO_32: nat := 0x1_0000_0000

  // ---------------------------------------------------------------- encoding

  /** `value & 0xff`, then `value >>>= 8`: the shift takes the value modulo 2^32. */
  function Octets(value: nat): Bytes {
    if value == 0 then [] else Octets((value % TWO_32) / 256) + [value % 256]
  }

  function LengthOctets(length: nat): Bytes {
    if length < 128 then [length]
    else
      OctetsAreFew(length);
      [128 + |Octets(length)|] + Octets(length)
  }

  function Der(tag: Byte, contents: Bytes): Bytes {
    [tag] + LengthOctets(|contents|) + contents
  }

  const VERSION: Bytes := [0x02, 0x01, 0x00]

  /** rsaEncryption with NULL parameters. */
  const RSA_ALGORITHM: Bytes := [0x30, 0x0d, 0x06, 0x09, 0x2a, 0x86, 0x48, 0x86, 0xf7, 0x0d, 0x01, 0x01, 0x01, 0x05, 0x00]

  function Pkcs8(key: Bytes): Bytes {
    Der(0x30, VERSION + RSA_ALGORITHM + Der(0x04, key))
  }

  method DerLength(length: nat) returns (r: Bytes)
    ensures r == LengthOctets(length)
  {
    if length < 128 {
      return [length];
    }
    var octets: Bytes := [];
    var value: nat := length;
    while value > 0
      invariant value >= 0 && Octets(length) == Octets(value) + octets
    {
      octets := [value % 256] + octets;
      value := (value % TWO_32) / 256;
    }
    OctetsAreFew(length);
    assert octets == Octets(length);
    return [128 + |octets|] + octets;
  }

  /** `Uint8Array.set`: copies bytes to an offset. */
  method Put(target: array<Byte>, bytes: Bytes, offset: nat)
    requires offset + |bytes| <= target.Length
    modifies target
    ensures target[..] == old(target[..offset]) + bytes + old(target[offset + |bytes|..])
  {
    forall i | 0 <= i < |bytes| {
      target[offset + i] := bytes[i];
    }
    assert forall i :: 0 <= i < |bytes| ==> target[offset + i] == bytes[i];
    assert target[offset..offset + |bytes|] == bytes;
  }

  method EncodeDer(tag: Byte, contents: array<Byte>) returns (result: array<Byte>)
    ensures fresh(result) && result[..] == Der(tag, contents[..])
  {
    var length := DerLength(contents.Length);
    result := new Byte[1 + |length| + contents.Length](_ => 0);
    result[0] := tag;
    Put(result, length, 1);
    Put(result, contents[..], 1 + |length|);
  }

  function Joined(parts: seq<Bytes>): Bytes {
    if parts == [] then [] else Joined(parts[..|parts| - 1]) + parts[|parts| - 1]
  }

  ghost function Contents(values: seq<array<Byte>>): (parts: seq<Bytes>)
    reads values
    ensures |parts| == |values| && forall i :: 0 <= i < |values| ==> parts[i] == values[i][..]
  {
    seq(|values|, i requires 0 <= i < |values| reads values => values[i][..])
  }

  method TotalLength(values: seq<array<Byte>>) returns (total: nat)
    ensures total == |Joined(Contents(values))|
  {
    ghost var parts := Contents(values);
    total := 0;
    for n := 0 to |values|
      invariant total == |Joined(parts[..n])|
    {
      assert parts[..n + 1][..n] == parts[..n];
      total := total + values[n].Length;
    }
    assert parts[..|values|] == parts;
  }

  method Concat(values: seq<array<Byte>>) returns (result: array<Byte>)
    ensures fresh(result) && result[..] == Joined(old(Contents(values)))
  {
    ghost var parts := Contents(values);
    var total := TotalLength(values);
    result := new Byte[total](_ => 0);
    var offset := 0;
    for n := 0 to |values|
      invariant forall i :: 0 <= i < |values| ==> values[i][..] == parts[i]
      invariant offset == |Joined(parts[..n])| <= result.Length
      invariant result[..offset] == Joined(parts[..n])
    {
      assert parts[..n + 1][..n] == parts[..n];
      JoinedGrows(parts, n + 1);
      Put(result, values[n][..], offset);
      offset := offset + values[n].Length;
      assert result[..offset] == Joined(parts[..n]) + parts[n];
    }
    assert parts[..|values|] == parts;
  }

  lemma {:induction false} JoinedGrows(parts: seq<Bytes>, n: nat)
    requires n <= |parts|
    ensures |Joined(parts[..n])| <= |Joined(parts)|
    decreases |parts| - n
  {
    if n == |parts| {
      assert parts[..n] == parts;
    } else {
      assert parts[..n + 1][..n] == parts[..n];
      JoinedGrows(parts, n + 1);
    }
  }

  method Pkcs1ToPkcs8(privateKey: array<Byte>) returns (result: array<Byte>)
    ensures fresh(result) && result[..] == Pkcs8(privateKey[..])
  {
    hide LengthOctets;
    var version := new Byte[3](i requires 0 <= i < 3 => VERSION[i]);
    var rsaAlgorithm := new Byte[15](i requires 0 <= i < 15 => RSA_ALGORITHM[i]);
    var octetString := EncodeDer(0x04, privateKey);
    var sequence := Concat([version, rsaAlgorithm, octetString]);
    assert version[..] == VERSION && rsaAlgorithm[..] == RSA_ALGORITHM;
    assert Contents([version, rsaAlgorithm, octetString]) == [VERSION, RSA_ALGORITHM, octetString[..]];
    ThreeJoined(VERSION, RSA_ALGORITHM, octetString[..]);
    result := EncodeDer(0x30, sequence);
  }

  lemma {:induction false} ThreeJoined(a: Bytes, b: Bytes, c: Bytes)
    ensures Joined([a, b, c]) == a + b + c
  {
    assert [a, b, c][..2] == [a, b] && [a, b][..1] == [a] && [a][..0] == [];
    assert Joined([a]) == a;
    assert Joined([a, b]) == a + b;
  }

  // ---------------------------------------------------------------- decoding

  function BigEndian(octets: Bytes): nat {
    if octets == [] then 0 else 256 * BigEndian(octets[..|octets| - 1]) + octets[|octets| - 1]
  }

  datatype Length = Length(value: nat, rest: Bytes)

  /** Section 8.1.3 of X.690, definite forms. */
  function DecodeLength(bytes: Bytes): Option<Length> {
    if bytes == [] then None
    else if bytes[0] < 128 then Some(Length(bytes[0], bytes[1..]))
    else
      var count := bytes[0] - 128;
      if count == 0 || count == 127 || 1 + count > |bytes| then None
      else Some(Length(BigEndian(bytes[1..1 + count]), bytes[1 + count..]))
  }

  datatype Element = Element(tag: Byte, contents: Bytes, rest: Bytes)

  /** One element with a single identifier octet. */
  function Decode(bytes: Bytes): Option<Element> {
    if bytes == [] then None
    else
      var length := DecodeLength(bytes[1..]);
      if length.None? || length.value.value > |length.value.rest| then None
      else Some(Element(bytes[0], length.value.rest[..length.value.value], length.value.rest[length.value.value..]))
  }

  /** Section 10.1 of X.690: no octet could be spared. */
  predicate Minimal(octets: Bytes) {
    || (|octets| == 1 && octets[0] < 128)
    || (|octets| >= 2 && octets[0] == 128 + |octets| - 1 && octets[1] != 0 && BigEndian(octets[1..]) >= 128)
  }

  /** Section 5 of RFC 5208, without attributes: version 0, an RSA algorithm identifier, the key as an octet string. */
  function DecodePrivateKeyInfo(bytes: Bytes): Option<Bytes> {
    var outer := Decode(bytes);
    if outer.None? || outer.value.tag != 0x30 || outer.value.rest != [] then None
    else
      var version := Decode(outer.value.contents);
      if version.None? || version.value.tag != 0x02 || version.value.contents != [0] then None
      else
        var algorithm := Decode(version.value.rest);
        if algorithm.None? || algorithm.value.tag != 0x30 || algorithm.value.contents != RSA_ALGORITHM[2..] then None
        else
          var key := Decode(algorithm.value.rest);
          if key.None? || key.value.tag != 0x04 || key.value.rest != [] then None else Some(key.value.contents)
  }

  // ---------------------------------------------------------------- lengths

  lemma {:induction false} OctetsValue(value: nat)
    ensures BigEndian(Octets(value)) == value % TWO_32
  {
    if value > 0 {
      var high := (value % TWO_32) / 256;
      OctetsValue(high);
      assert Octets(value)[..|Octets(value)| - 1] == Octets(high);
      assert value % 256 == (value % TWO_32) % 256 by {
        SameLowByte(value);
      }
    }
  }

  lemma {:induction false} SameLowByte(value: nat)
    ensures value % 256 == (value % TWO_32) % 256
  {
    var q, r := value / TWO_32, value % TWO_32;
    assert value == 256 * (q * 0x100_0000) + r;
  }

  function Power256(k: nat): nat {
    if k == 0 then 1 else 256 * Power256(k - 1)
  }

  /** Below 2^32 the shift is a plain division. */
  lemma {:induction false} OctetsUnfold(value: nat)
    requires 0 < value < TWO_32
    ensures Octets(value) == Octets(value / 256) + [value % 256]
  {
    assert value % TWO_32 == value;
  }

  lemma {:induction false} DivideBelow(value: nat, bound: nat)
    requires value < 256 * bound
    ensures value / 256 < bound
  {
  }

  lemma {:induction false} OctetsWithin(value: nat, k: nat)
    requires value < Power256(k) && value < TWO_32
    ensures |Octets(value)| <= k
  {
    if k > 0 && value > 0 {
      OctetsUnfold(value);
      hide Octets;
      DivideBelow(value, Power256(k - 1));
      OctetsWithin(value / 256, k - 1);
    }
  }

  lemma {:induction false} OctetsAreFew(value: nat)
    ensures |Octets(value)| <= 4
    ensures value > 0 ==> Octets(value) != []
  {
    if value > 0 {
      var high := (value % TWO_32) / 256;
      assert Octets(value) == Octets(high) + [value % 256];
      hide Octets;
      assert Power256(1) == 256 && Power256(2) == 0x1_0000 && Power256(3) == 0x100_0000;
      assert high < 0x100_0000;
      OctetsWithin(high, 3);
    }
  }

  /** The long form decodes to the length modulo 2^32. */
  lemma {:induction false} LengthModulo(length: nat, rest: Bytes)
    requires length >= 128
    ensures DecodeLength(LengthOctets(length) + rest) == Some(Length(length % TWO_32, rest))
  {
    var octets := Octets(length);
    OctetsAreFew(length);
    OctetsValue(length);
    var bytes := LengthOctets(length) + rest;
    assert bytes[1..1 + |octets|] == octets && bytes[1 + |octets|..] == rest;
    hide Octets, BigEndian;
  }

  /** Length octets decode to the length they were made from exactly when it is below 2^32. */
  lemma {:induction false} LengthRoundTrip(length: nat, rest: Bytes)
    ensures DecodeLength(LengthOctets(length) + rest) == Some(Length(length, rest)) <==> length < TWO_32
  {
    if length < 128 {
      assert (LengthOctets(length) + rest)[1..] == rest;
    } else {
      LengthModulo(length, rest);
      assert length % TWO_32 == length <==> length < TWO_32;
    }
    hide Octets, BigEndian, LengthOctets, DecodeLength;
  }

  lemma {:induction false} FirstOctet(value: nat)
    requires 0 < value < TWO_32
    ensures Octets(value) != [] && Octets(value)[0] != 0
  {
    OctetsUnfold(value);
    if value >= 256 {
      FirstOctet(value / 256);
    }
  }

  /** And they are then as short as they can be. */
  lemma {:induction false} LengthIsMinimal(length: nat)
    requires length < TWO_32
    ensures Minimal(LengthOctets(length))
  {
    if length >= 128 {
      OctetsAreFew(length);
      FirstOctet(length);
      OctetsValue(length);
      assert LengthOctets(length)[1..] == Octets(length);
      hide Octets, BigEndian;
    }
  }

  lemma {:induction false} BigEndianBound(octets: Bytes)
    ensures BigEndian(octets) < Power256(|octets|)
  {
    if octets != [] {
      BigEndianBound(octets[..|octets| - 1]);
    }
  }

  /** No length octets for the same length are shorter. */
  lemma {:induction false} LengthIsShortest(length: nat, other: Bytes)
    requires length < TWO_32 && DecodeLength(other) == Some(Length(length, []))
    ensures |LengthOctets(length)| <= |other|
  {
    if length >= 128 {
      var octets := other[1..];
      var count := other[0] - 128;
      assert |other| == 1 + count && other[1..1 + count] == octets;
      BigEndianBound(octets);
      OctetsWithin(length, |octets|);
      hide Octets, BigEndian, Power256;
    }
  }

  // ---------------------------------------------------------------- elements

  lemma {:induction false} DerParts(tag: Byte, contents: Bytes, rest: Bytes)
    ensures var bytes := Der(tag, contents) + rest;
      bytes != [] && bytes[0] == tag && bytes[1..] == LengthOctets(|contents|) + (contents + rest)
  {
  }

  /** An element followed by anything decodes to its tag and contents, with the rest left, exactly when it is short enough. */
  lemma {:induction false} ElementRoundTrip(tag: Byte, contents: Bytes, rest: Bytes)
    ensures Decode(Der(tag, contents) + rest) == Some(Element(tag, contents, rest)) <==> |contents| < TWO_32
  {
    DerParts(tag, contents, rest);
    LengthRoundTrip(|contents|, contents + rest);
    if |contents| < TWO_32 {
      assert (contents + rest)[..|contents|] == contents && (contents + rest)[|contents|..] == rest;
    } else {
      LengthModulo(|contents|, contents + rest);
    }
    hide Der, LengthOctets, DecodeLength;
  }

  /** What a decoder makes of an element that is too long: its contents come out shorter. */
  lemma {:induction false} TooLongIsCut(tag: Byte, contents: Bytes)
    requires |contents| >= TWO_32
    ensures Decode(Der(tag, contents)).Some? ==> Decode(Der(tag, contents)).value.rest != []
  {
    DerParts(tag, contents, []);
    assert Der(tag, contents) + [] == Der(tag, contents) && contents + [] == contents;
    LengthModulo(|contents|, contents);
    hide Der, LengthOctets, DecodeLength;
  }

  function Fields(key: Bytes): Bytes {
    VERSION + RSA_ALGORITHM + Der(0x04, key)
  }

  lemma {:induction false} FieldsLength(key: Bytes)
    ensures |Fields(key)| < TWO_32 <==> |key| + 24 < TWO_32
    ensures |Fields(key)| < TWO_32 ==> |key| < TWO_32
  {
    OctetsAreFew(|key|);
    if |key| >= 0x100_0000 {
      assert |Fields(key)| == 18 + 1 + 1 + |Octets(|key|)| + |key|;
      LargeLength(|key|);
    }
  }

  lemma {:induction false} LargeLength(length: nat)
    requires 0x100_0000 <= length
    ensures length < TWO_32 ==> |Octets(length)| == 4
  {
    if length < TWO_32 {
      var a: nat := length / 256;
      var b: nat := a / 256;
      var c: nat := b / 256;
      assert 0x1_0000 <= a < 0x100_0000 && 0x100 <= b < 0x1_0000 && 1 <= c < 0x100;
      OctetsUnfold(length);
      OctetsUnfold(a);
      OctetsUnfold(b);
      OctetsUnfold(c);
      assert c / 256 == 0 && Octets(0) == [];
      hide Octets;
    }
  }

  lemma {:induction false} ConstantsAreElements()
    ensures VERSION == Der(0x02, [0])
    ensures RSA_ALGORITHM == Der(0x30, RSA_ALGORITHM[2..])
  {
  }

  lemma {:induction false} FieldsDecode(key: Bytes)
    requires |key| < TWO_32
    ensures Decode(Fields(key)) == Some(Element(0x02, [0], RSA_ALGORITHM + Der(0x04, key)))
    ensures Decode(RSA_ALGORITHM + Der(0x04, key)) == Some(Element(0x30, RSA_ALGORITHM[2..], Der(0x04, key)))
    ensures Decode(Der(0x04, key)) == Some(Element(0x04, key, []))
  {
    ConstantsAreElements();
    var octetString := Der(0x04, key);
    ElementRoundTrip(0x04, key, []);
    assert octetString + [] == octetString;
    ElementRoundTrip(0x30, RSA_ALGORITHM[2..], octetString);
    ElementRoundTrip(0x02, [0], RSA_ALGORITHM + octetString);
    assert Fields(key) == VERSION + (RSA_ALGORITHM + octetString);
    hide Decode, Der;
  }

  /** The wrapped key decodes to the key it was made from, exactly when the whole structure is below 2^32 octets. */
  lemma {:induction false} WrappedKeyRoundTrip(key: Bytes)
    ensures DecodePrivateKeyInfo(Pkcs8(key)) == Some(key) <==> |key| + 24 < TWO_32
  {
    FieldsLength(key);
    assert Pkcs8(key) == Der(0x30, Fields(key));
    assert Der(0x30, Fields(key)) + [] == Der(0x30, Fields(key));
    if |Fields(key)| < TWO_32 {
      ElementRoundTrip(0x30, Fields(key), []);
      FieldsDecode(key);
    } else {
      TooLongIsCut(0x30, Fields(key));
    }
    hide Decode, Der, Fields, Pkcs8;
  }

  // ---------------------------------------------------------------- the algorithm

  /** The arcs that section 8.19 of X.690 packs seven bits at a time, the first two of them in one. */
  function Arcs(octets: Bytes, high: nat): seq<nat> {
    if octets == [] then []
    else if octets[0] >= 128 then Arcs(octets[1..], 128 * high + octets[0] - 128)
    else [128 * high + octets[0]] + Arcs(octets[1..], 0)
  }

  /** The algorithm identifier is the sequence of rsaEncryption, 1.2.840.113549.1.1.1 in RFC 8017, and NULL. */
  lemma {:induction false} AlgorithmIsRsaEncryption()
    ensures exists oid: Bytes ::
      && Arcs(oid, 0) == [40 * 1 + 2, 840, 113549, 1, 1, 1]
      && RSA_ALGORITHM == Der(0x30, Der(0x06, oid) + Der(0x05, []))
  {
    var oid: Bytes := [0x2a, 0x86, 0x48, 0x86, 0xf7, 0x0d, 0x01, 0x01, 0x01];
    ArcsOfRsa();
    hide Arcs, Octets;
    assert Der(0x06, oid) == [0x06, 0x09] + oid && Der(0x05, []) == [0x05, 0x00];
    assert |Der(0x06, oid) + Der(0x05, [])| == 13;
    assert RSA_ALGORITHM == Der(0x30, Der(0x06, oid) + Der(0x05, []));
  }

  lemma {:induction false} ArcsOfRsa()
    ensures Arcs([0x2a, 0x86, 0x48, 0x86, 0xf7, 0x0d, 0x01, 0x01, 0x01], 0) == [42, 840, 113549, 1, 1, 1]
  {
    assert Arcs([0x01], 0) == [1];
    assert Arcs([0x01, 0x01], 0) == [1, 1];
    assert Arcs([0x01, 0x01, 0x01], 0) == [1, 1, 1];
    assert Arcs([0x0d, 0x01, 0x01, 0x01], 128 * 6 + 119) == [113549, 1, 1, 1];
    assert Arcs([0xf7, 0x0d, 0x01, 0x01, 0x01], 6) == [113549, 1, 1, 1];
    assert Arcs([0x86, 0xf7, 0x0d, 0x01, 0x01, 0x01], 0) == [113549, 1, 1, 1];
    assert Arcs([0x48, 0x86, 0xf7, 0x0d, 0x01, 0x01, 0x01], 6) == [840, 113549, 1, 1, 1];
    assert Arcs([0x86, 0x48, 0x86, 0xf7, 0x0d, 0x01, 0x01, 0x01], 0) == [840, 113549, 1, 1, 1];
  }
}
