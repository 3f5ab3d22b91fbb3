/** ASN.1 length field coding (EN 50221, section 7.3.1). */
module Asn1 {
  import opened Basics

  const SIZE_INDICATOR: int := 0x80

  function Encode(value: u16): seq<byte> {
    if value < SIZE_INDICATOR then [value]
    else if value < 0x100 then [SIZE_INDICATOR + 1, value]
    else [SIZE_INDICATOR + 2, value / 0x100, value % 0x100]
  }

  function Decode(data: seq<byte>): Result<(u16, nat)> {
    if data == [] then Err(InvalidData)
    else if data[0] < SIZE_INDICATOR then Ok((data[0], 1))
    else if data[0] == 0x81 then
      if |data| < 2 then Err(InvalidData) else Ok((data[1], 2))
    else if data[0] == 0x82 then
      if |data| < 3 then Err(InvalidData) else Ok((ReadU16(data[1..3]), 3))
    else Err(InvalidData)
  }

  /** The codings of `value` a peer may send: the minimal one and every longer one. */
  predicate IsCoding(field: seq<byte>, value: u16) {
    || (field == [value] && value < SIZE_INDICATOR)
    || (field == [0x81, value] && value < 0x100)
    || field == [0x82] + BigEndian(value)
  }

  /** `Encode` writes a coding of the value, and it is the shortest one. */
  lemma EncodeIsShortest(value: u16, field: seq<byte>)
    ensures IsCoding(Encode(value), value)
    ensures IsCoding(field, value) ==> |Encode(value)| <= |field|
  {
  }

  /** `Decode` succeeds exactly on data that starts with a coding of the value,
      whatever follows it. */
  lemma DecodeExact(data: seq<byte>, value: u16, size: nat)
    ensures Decode(data) == Ok((value, size)) <==> size <= |data| && IsCoding(data[..size], value)
  {
    if Decode(data) == Ok((value, size)) {
      if size == 1 {
        assert data[..1] == [data[0]];
      } else if size == 2 {
        assert data[..2] == [data[0], data[1]];
      } else {
        ReadU16Inverse(value, data[1..3]);
        assert data[..3] == [data[0]] + data[1..3];
      }
    }
    if size <= |data| && IsCoding(data[..size], value) {
      var field := data[..size];
      if field == [0x82] + BigEndian(value) {
        assert field[1] == value / 0x100 && field[2] == value % 0x100;
      }
      assert field[0] == data[0];
      assert forall i | 0 <= i < |field| :: field[i] == data[i];
    }
  }

  lemma RoundTrip(value: u16, rest: seq<byte>)
    ensures Decode(Encode(value) + rest) == Ok((value, |Encode(value)|))
  {
    var data := Encode(value) + rest;
    assert data[..|Encode(value)|] == Encode(value);
    EncodeIsShortest(value, []);
    DecodeExact(data, value, |Encode(value)|);
  }
}
