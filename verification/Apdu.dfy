/** Application objects (EN 50221, section 8.3): 3-byte tag, length field, body. */
module Apdu {
  import opened Basics
  import Asn1

  type ApduTag = n: int | 0 <= n < 0x100_0000

  const APDU_TAG_SIZE: nat := 3

  const PROFILE_ENQ: ApduTag := 0x9F8010
  const PROFILE: ApduTag := 0x9F8011
  const PROFILE_CHANGE: ApduTag := 0x9F8012
  const APPLICATION_INFO_ENQ: ApduTag := 0x9F8020
  const APPLICATION_INFO: ApduTag := 0x9F8021
  const ENTER_MENU: ApduTag := 0x9F8022
  const CA_INFO_ENQ: ApduTag := 0x9F8030
  const CA_INFO: ApduTag := 0x9F8031
  const CA_PMT: ApduTag := 0x9F8032
  const CA_PMT_REPLY: ApduTag := 0x9F8033
  const CA_UPDATE: ApduTag := 0x9F8034
  const TUNE: ApduTag := 0x9F8400
  const REPLACE: ApduTag := 0x9F8401
  const CLEAR_REPLACE: ApduTag := 0x9F8402
  const ASK_RELEASE: ApduTag := 0x9F8403
  const DATE_TIME_ENQ: ApduTag := 0x9F8440
  const DATE_TIME: ApduTag := 0x9F8441
  const CLOSE_MMI: ApduTag := 0x9F8800
  const DISPLAY_CONTROL: ApduTag := 0x9F8801
  const DISPLAY_REPLY: ApduTag := 0x9F8802
  const TEXT_LAST: ApduTag := 0x9F8803
  const TEXT_MORE: ApduTag := 0x9F8804
  const ENQ: ApduTag := 0x9F8807
  const ANSW: ApduTag := 0x9F8808
  const MENU_LAST: ApduTag := 0x9F8809
  const MENU_MORE: ApduTag := 0x9F880A
  const MENU_ANSW: ApduTag := 0x9F880B
  const LIST_LAST: ApduTag := 0x9F880C
  const LIST_MORE: ApduTag := 0x9F880D

  /** The tags of EN 50221, section 8.8.1, that the host knows. */
  lemma TagCodes()
    ensures PROFILE_ENQ == 0x9F_8010 && PROFILE == 0x9F_8011 && PROFILE_CHANGE == 0x9F_8012
    ensures APPLICATION_INFO_ENQ == 0x9F_8020 && APPLICATION_INFO == 0x9F_8021 && ENTER_MENU == 0x9F_8022
    ensures CA_INFO_ENQ == 0x9F_8030 && CA_INFO == 0x9F_8031 && CA_PMT == 0x9F_8032 && CA_PMT_REPLY == 0x9F_8033
    ensures CA_UPDATE == 0x9F_8034
    ensures TUNE == 0x9F_8400 && REPLACE == 0x9F_8401 && CLEAR_REPLACE == 0x9F_8402 && ASK_RELEASE == 0x9F_8403
    ensures DATE_TIME_ENQ == 0x9F_8440 && DATE_TIME == 0x9F_8441
    ensures CLOSE_MMI == 0x9F_8800 && DISPLAY_CONTROL == 0x9F_8801 && DISPLAY_REPLY == 0x9F_8802
    ensures TEXT_LAST == 0x9F_8803 && TEXT_MORE == 0x9F_8804 && ENQ == 0x9F_8807 && ANSW == 0x9F_8808
    ensures MENU_LAST == 0x9F_8809 && MENU_MORE == 0x9F_880A && MENU_ANSW == 0x9F_880B
    ensures LIST_LAST == 0x9F_880C && LIST_MORE == 0x9F_880D
  {
  }

  datatype Apdu = Apdu(tag: ApduTag, body: seq<byte>)

  /** A body whose size the length field can express. */
  predicate Fits(a: Apdu) {
    |a.body| < 0x1_0000
  }

  function TagBytes(tag: ApduTag): (s: seq<byte>)
    ensures |s| == APDU_TAG_SIZE
  {
    [tag / 0x1_0000] + BigEndian(tag % 0x1_0000)
  }

  function ReadTag(data: seq<byte>): ApduTag
    requires |data| == APDU_TAG_SIZE
  {
    0x1_0000 * (data[0] as int) + ReadU16(data[1..])
  }

  lemma ReadTagInverse(tag: ApduTag, data: seq<byte>)
    requires |data| == APDU_TAG_SIZE
    ensures ReadTag(TagBytes(tag)) == tag
    ensures TagBytes(ReadTag(data)) == data
  {
    ReadU16Inverse(tag % 0x1_0000, data[1..]);
    var t := ReadTag(data);
    assert t / 0x1_0000 == data[0] && t % 0x1_0000 == ReadU16(data[1..]);
    assert TagBytes(tag)[1..] == BigEndian(tag % 0x1_0000);
    assert [data[0]] + data[1..] == data;
  }

  /** The bytes `apdu::build` appends to its output. */
  function Build(tag: ApduTag, body: seq<byte>): seq<byte>
    requires |body| < 0x1_0000
  {
    TagBytes(tag) + Asn1.Encode(|body|) + body
  }

  /** One object at the start of `data` and its full coded size. */
  function ParseAt(data: seq<byte>): Result<(Apdu, nat)> {
    if |data| < APDU_TAG_SIZE then Err(InvalidData)
    else
      var tag := ReadTag(data[..APDU_TAG_SIZE]);
      var (length, consumed) :- Asn1.Decode(data[APDU_TAG_SIZE..]);
      var bodyStart := APDU_TAG_SIZE + consumed;
      var bodyEnd := bodyStart + length;
      if bodyEnd > |data| then Err(InvalidData)
      else assert bodyStart <= bodyEnd; Ok((Apdu(tag, data[bodyStart..bodyEnd]), bodyEnd))
  }

  /** `bytes` is exactly one object, with any coding of its length field. */
  predicate IsObject(bytes: seq<byte>, a: Apdu) {
    exists n: nat | 1 <= n <= 3 :: IsObjectWith(bytes, a, n)
  }

  predicate IsObjectWith(bytes: seq<byte>, a: Apdu, n: nat) {
    && Fits(a)
    && |bytes| == APDU_TAG_SIZE + n + |a.body|
    && bytes[..APDU_TAG_SIZE] == TagBytes(a.tag)
    && Asn1.IsCoding(bytes[APDU_TAG_SIZE..APDU_TAG_SIZE + n], |a.body|)
    && bytes[APDU_TAG_SIZE + n..] == a.body
  }

  lemma Slices(data: seq<byte>, at: nat, n: nat, size: nat)
    requires at + n <= size <= |data|
    ensures data[at..][..n] == data[..size][at..at + n]
  {
  }

  /** `ParseAt` accepts exactly the data that starts with a coded object. */
  lemma ParseAtExact(data: seq<byte>, a: Apdu, size: nat)
    ensures ParseAt(data) == Ok((a, size)) <==> size <= |data| && IsObject(data[..size], a)
  {
    if ParseAt(data) == Ok((a, size)) {
      var (length, n) := Asn1.Decode(data[APDU_TAG_SIZE..]).value;
      Asn1.DecodeExact(data[APDU_TAG_SIZE..], length, n);
      ReadTagInverse(a.tag, data[..APDU_TAG_SIZE]);
      var bytes := data[..size];
      assert bytes[..APDU_TAG_SIZE] == data[..APDU_TAG_SIZE];
      Slices(data, APDU_TAG_SIZE, n, size);
      assert IsObjectWith(bytes, a, n);
    }
    if size <= |data| && IsObject(data[..size], a) {
      var bytes := data[..size];
      var n: nat :| 1 <= n <= 3 && IsObjectWith(bytes, a, n);
      assert data[..APDU_TAG_SIZE] == bytes[..APDU_TAG_SIZE];
      ReadTagInverse(a.tag, data[..APDU_TAG_SIZE]);
      Slices(data, APDU_TAG_SIZE, n, size);
      Asn1.DecodeExact(data[APDU_TAG_SIZE..], |a.body|, n);
      assert data[APDU_TAG_SIZE + n..size] == bytes[APDU_TAG_SIZE + n..];
    }
  }

  lemma BuildIsObject(a: Apdu)
    requires Fits(a)
    ensures IsObject(Build(a.tag, a.body), a)
  {
    var bytes := Build(a.tag, a.body);
    var n := |Asn1.Encode(|a.body|)|;
    assert bytes[APDU_TAG_SIZE..APDU_TAG_SIZE + n] == Asn1.Encode(|a.body|);
    Asn1.EncodeIsShortest(|a.body|, []);
    assert bytes[APDU_TAG_SIZE + n..] == a.body;
    assert bytes[..APDU_TAG_SIZE] == TagBytes(a.tag);
    assert IsObjectWith(bytes, a, n);
  }

  lemma BuildRoundTrip(a: Apdu, rest: seq<byte>)
    requires Fits(a)
    ensures ParseAt(Build(a.tag, a.body) + rest) == Ok((a, |Build(a.tag, a.body)|))
  {
    BuildIsObject(a);
    var bytes := Build(a.tag, a.body);
    assert (bytes + rest)[..|bytes|] == bytes;
    ParseAtExact(bytes + rest, a, |bytes|);
  }

  /** Everything the iterator over `data` yields: the objects in order, then one
      error if the rest is damaged. */
  function ParseAll(data: seq<byte>): seq<Result<Apdu>> {
    if data == [] then []
    else
      match ParseAt(data)
      case Ok((a, size)) => (assert 0 < size <= |data| by { ParseAtExact(data, a, size); }
                             [Ok(a)] + ParseAll(data[size..]))
      case Err(e) => [Err(e)]
  }

  /** The iterator over the objects that share one payload. */
  class ApduIter {
    var data: seq<byte>

    constructor (payload: seq<byte>)
      ensures data == payload
    {
      data := payload;
    }

    /** Yields the next element of `ParseAll` and leaves the rest to be iterated. */
    method Next() returns (item: Option<Result<Apdu>>)
      modifies this
      ensures item == None <==> old(data) == []
      ensures item == None || item.value.Err? ==> data == []
      ensures old(ParseAll(data)) == (if item == None then [] else [item.value]) + ParseAll(data)
      ensures |data| < |old(data)| || old(data) == data == []
    {
      if data == [] {
        return None;
      }
      match ParseAt(data) {
        case Ok((a, size)) =>
          ParseAtExact(data, a, size);
          data := data[size..];
          return Some(Ok(a));
        case Err(e) =>
          data := [];
          return Some(Err(e));
      }
    }
  }

  function BuildAll(objects: seq<Apdu>): seq<byte>
    requires forall i | 0 <= i < |objects| :: Fits(objects[i])
  {
    if objects == [] then []
    else assert Fits(objects[0]); Build(objects[0].tag, objects[0].body) + BuildAll(objects[1..])
  }

  function AllOk(objects: seq<Apdu>): seq<Result<Apdu>> {
    seq(|objects|, i requires 0 <= i < |objects| => Ok(objects[i]))
  }

  /** Any list of objects packed into one payload is iterated back unchanged. */
  lemma {:induction false} ParseAllRoundTrip(objects: seq<Apdu>)
    requires forall i | 0 <= i < |objects| :: Fits(objects[i])
    ensures ParseAll(BuildAll(objects)) == AllOk(objects)
  {
    if objects != [] {
      var bytes := Build(objects[0].tag, objects[0].body);
      var rest := BuildAll(objects[1..]);
      BuildRoundTrip(objects[0], rest);
      assert (bytes + rest)[|bytes|..] == rest;
      ParseAllRoundTrip(objects[1..]);
      assert AllOk(objects) == [Ok(objects[0])] + AllOk(objects[1..]);
    }
  }
}
