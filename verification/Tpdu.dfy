/** Transport protocol data units (EN 50221, section 7.1 and annex A.4). */
module Tpdu {
  import opened Basics
  import Asn1

  const MAX_TPDU_SIZE: nat := 2048
  const MAX_TPDU_DATA: nat := MAX_TPDU_SIZE - 7
  const DATA_INDICATOR: int := 0x80

  const SB: byte := 0x80
  const RCV: byte := 0x81
  const CREATE_TC: byte := 0x82
  const CTC_REPLY: byte := 0x83
  const DELETE_TC: byte := 0x84
  const DTC_REPLY: byte := 0x85
  const REQUEST_TC: byte := 0x86
  const NEW_TC: byte := 0x87
  const TC_ERROR: byte := 0x88
  const DATA_LAST: byte := 0xA0
  const DATA_MORE: byte := 0xA1

  predicate IsShort(tag: byte) {
    tag in {RCV, CREATE_TC, CTC_REPLY, DELETE_TC, DTC_REPLY, REQUEST_TC}
  }

  predicate IsData(tag: byte) {
    tag == DATA_LAST || tag == DATA_MORE
  }

  /** A complete C_TPDU link frame for the slot. */
  function Build(slotId: byte, tag: byte, data: seq<byte>): Result<seq<byte>> {
    if slotId == 0xFF then Err(InvalidProperty)
    else
      var tcId: byte := slotId + 1;
      if IsShort(tag) then Ok([slotId, tcId, tag, 1, tcId])
      else if tag == NEW_TC || tag == TC_ERROR then
        if data == [] then Err(InvalidProperty) else Ok([slotId, tcId, tag, 2, tcId, data[0]])
      else if IsData(tag) then
        if |data| > MAX_TPDU_DATA then Err(InvalidProperty)
        else Ok([slotId, tcId, tag] + Asn1.Encode(|data| + 1) + [tcId] + data)
      else Err(InvalidProperty)
  }

  /** A parsed R_TPDU. */
  datatype RTpdu = RTpdu(slotId: byte, tag: byte, body: seq<byte>, dataIndicator: bool)

  function FrameSlotId(frame: seq<byte>, slotsNum: byte): Option<byte> {
    if frame != [] && frame[0] < slotsNum then Some(frame[0]) else None
  }

  /** The physical slot byte of a link frame. */
  predicate ForSlot(frame: seq<byte>, s: int) {
    frame != [] && frame[0] as int == s
  }

  /** The body of the object that precedes the status trailer. */
  function ParseBody(frame: seq<byte>, tcId: byte, tag: byte): Result<seq<byte>>
    requires |frame| >= 5
  {
    if IsData(tag) then
      var (declared, asn1Size) :- Asn1.Decode(frame[3..]);
      if declared < 1 || 3 + asn1Size + declared + 4 != |frame| then Err(InvalidData)
      else if frame[3 + asn1Size] != tcId then Err(InvalidData)
      else
        var start := 3 + asn1Size + 1;
        Ok(frame[start..start + declared - 1])
    else if tag == SB then
      if |frame| != 6 then Err(InvalidData) else Ok([])
    else if tag == CTC_REPLY || tag == DTC_REPLY || tag == REQUEST_TC then
      if |frame| != 9 || frame[3] != 1 || frame[4] != tcId then Err(InvalidData) else Ok([])
    else if tag == NEW_TC || tag == TC_ERROR then
      if |frame| != 10 || frame[3] != 2 || frame[4] != tcId then Err(InvalidData) else Ok([])
    else Err(InvalidData)
  }

  /** One R_TPDU read from the link. */
  function Parse(frame: seq<byte>, slotsNum: byte): (r: Result<RTpdu>)
    ensures r.Err? ==> r.error == InvalidData
    ensures r.Ok? ==> FrameSlotId(frame, slotsNum) == Some(r.value.slotId)
  {
    if |frame| < 5 then Err(InvalidData)
    else if frame[1] == 0 || frame[1] > slotsNum then Err(InvalidData)
    else if frame[0] != frame[1] - 1 then Err(InvalidData)
    else
      var trailer := frame[|frame| - 4..];
      if trailer[0] != SB || trailer[1] != 2 || trailer[2] != frame[1] then Err(InvalidData)
      else
        var body := ParseBody(frame, frame[1], frame[2]);
        if body.Err? then Err(InvalidData)
        else Ok(RTpdu(frame[0], frame[2], body.value, trailer[3] >= DATA_INDICATOR))
  }

  /** The status object every R_TPDU ends with. */
  function Trailer(slotId: byte, status: byte): seq<byte>
    requires slotId < 0xFF
  {
    [0x80, 2, slotId + 1, status]
  }

  /** What an accepted data frame looks like, byte for byte. */
  predicate IsDataFrame(frame: seq<byte>, r: RTpdu, n: nat, status: byte) {
    && r.slotId < 0xFF
    && 1 <= n <= 3
    && r.tag in {0xA0, 0xA1}
    && |r.body| + 1 < 0x1_0000
    && |frame| == 3 + n + 1 + |r.body| + 4
    && frame[..3] == [r.slotId, r.slotId + 1, r.tag]
    && Asn1.IsCoding(frame[3..3 + n], |r.body| + 1)
    && frame[3 + n] == r.slotId + 1
    && frame[4 + n..4 + n + |r.body|] == r.body
    && frame[4 + n + |r.body|..] == Trailer(r.slotId, status)
    && (r.dataIndicator <==> status >= 0x80)
  }

  lemma AcceptedIsDataFrame(frame: seq<byte>, slotsNum: byte, r: RTpdu)
    requires IsData(r.tag) && Parse(frame, slotsNum) == Ok(r)
    ensures exists n: nat, status: byte :: IsDataFrame(frame, r, n, status)
  {
    var (declared, n) := Asn1.Decode(frame[3..]).value;
    Asn1.DecodeExact(frame[3..], declared, n);
    assert frame[3..][..n] == frame[3..3 + n];
    var status := frame[|frame| - 1];
    var at := 4 + n + |r.body|;
    assert at == |frame| - 4;
    assert frame[at..] == Trailer(r.slotId, status);
    assert frame[..3] == [frame[0], frame[1], frame[2]];
    assert IsDataFrame(frame, r, n, status);
  }

  lemma DataFrameBody(frame: seq<byte>, r: RTpdu, n: nat, status: byte)
    requires IsDataFrame(frame, r, n, status)
    ensures ParseBody(frame, r.slotId + 1, r.tag) == Ok(r.body)
  {
    assert frame[3..][..n] == frame[3..3 + n];
    Asn1.DecodeExact(frame[3..], |r.body| + 1, n);
  }

  lemma DataFrameIsAccepted(frame: seq<byte>, slotsNum: byte, r: RTpdu, n: nat, status: byte)
    requires IsDataFrame(frame, r, n, status) && r.slotId < slotsNum
    ensures Parse(frame, slotsNum) == Ok(r)
  {
    DataFrameBody(frame, r, n, status);
    assert frame[0] == frame[..3][0] && frame[1] == frame[..3][1] && frame[2] == frame[..3][2];
    assert frame[|frame| - 4..] == Trailer(r.slotId, status);
  }

  /** Strictness of the receiving side: a data frame is accepted exactly when
      every byte of it is accounted for by the grammar of annex A.4. */
  lemma DataFrameExact(frame: seq<byte>, slotsNum: byte, r: RTpdu)
    requires IsData(r.tag)
    ensures Parse(frame, slotsNum) == Ok(r)
       <==> r.slotId < slotsNum && exists n: nat, status: byte :: IsDataFrame(frame, r, n, status)
  {
    if Parse(frame, slotsNum) == Ok(r) {
      AcceptedIsDataFrame(frame, slotsNum, r);
    }
    if r.slotId < slotsNum && exists n: nat, status: byte :: IsDataFrame(frame, r, n, status) {
      var n: nat, status: byte :| IsDataFrame(frame, r, n, status);
      DataFrameIsAccepted(frame, slotsNum, r, n, status);
    }
  }

  /** A data frame as the host builds it, with the trailer a module appends. */
  lemma BuiltDataFrame(slotId: byte, tag: byte, data: seq<byte>, status: byte)
    requires slotId < 0xFF && IsData(tag) && |data| <= MAX_TPDU_DATA
    ensures Build(slotId, tag, data).Ok? && |Build(slotId, tag, data).value| <= MAX_TPDU_SIZE
    ensures IsDataFrame(Build(slotId, tag, data).value + Trailer(slotId, status),
                        RTpdu(slotId, tag, data, status >= DATA_INDICATOR),
                        |Asn1.Encode(|data| + 1)|, status)
  {
    var len := Asn1.Encode(|data| + 1);
    Asn1.EncodeIsShortest(|data| + 1, []);
    FrameSlices([slotId, slotId + 1, tag], len, slotId + 1, data, Trailer(slotId, status));
  }

  lemma FrameSlices(head: seq<byte>, len: seq<byte>, tcId: byte, data: seq<byte>, trailer: seq<byte>)
    requires |head| == 3
    ensures var frame := head + len + [tcId] + data + trailer;
            var n := |len|;
            && frame[..3] == head && frame[3..3 + n] == len && frame[3 + n] == tcId
            && frame[4 + n..4 + n + |data|] == data && frame[4 + n + |data|..] == trailer
  {
  }

  /** Framing loses nothing up to the payload limit. */
  lemma DataRoundTrip(slotId: byte, slotsNum: byte, tag: byte, data: seq<byte>, status: byte)
    requires slotId < slotsNum && IsData(tag) && |data| <= MAX_TPDU_DATA
    ensures Build(slotId, tag, data).Ok?
    ensures Parse(Build(slotId, tag, data).value + Trailer(slotId, status), slotsNum)
         == Ok(RTpdu(slotId, tag, data, status >= DATA_INDICATOR))
  {
    BuiltDataFrame(slotId, tag, data, status);
    DataFrameIsAccepted(Build(slotId, tag, data).value + Trailer(slotId, status), slotsNum,
                        RTpdu(slotId, tag, data, status >= DATA_INDICATOR),
                        |Asn1.Encode(|data| + 1)|, status);
  }

  // ------------------------------------------------------------- all R_TPDUs

  /** A frame of a fixed-size R_TPDU, byte for byte: the status alone, the replies
      with their identifier, and the two with one more byte, which is not kept. */
  predicate IsControlFrame(frame: seq<byte>, r: RTpdu, parameter: byte, status: byte) {
    && r.slotId < 0xFF && r.body == [] && (r.dataIndicator <==> status >= 0x80)
    && frame == [r.slotId, r.slotId + 1] + ControlObject(r.slotId, r.tag, parameter) + Trailer(r.slotId, status)
    && r.tag in {0x80, 0x83, 0x85, 0x86, 0x87, 0x88}
  }

  /** The object in front of the trailer; a bare status has none. */
  function ControlObject(slotId: byte, tag: byte, parameter: byte): seq<byte>
    requires slotId < 0xFF
  {
    if tag == 0x80 then []
    else if tag == 0x87 || tag == 0x88 then [tag, 2, slotId + 1, parameter]
    else [tag, 1, slotId + 1]
  }

  lemma AcceptedIsControlFrame(frame: seq<byte>, slotsNum: byte, r: RTpdu)
    requires !IsData(r.tag) && Parse(frame, slotsNum) == Ok(r)
    ensures exists parameter: byte, status: byte :: IsControlFrame(frame, r, parameter, status)
  {
    var status := frame[|frame| - 1];
    var parameter := if |frame| == 10 then frame[5] else 0;
    assert frame[|frame| - 4..] == Trailer(r.slotId, status);
    assert frame == frame[..|frame| - 4] + frame[|frame| - 4..];
    if r.tag == SB {
      assert frame[..2] == [frame[0], frame[1]];
    } else if r.tag == NEW_TC || r.tag == TC_ERROR {
      assert frame[..6] == [frame[0], frame[1], frame[2], frame[3], frame[4], frame[5]];
    } else {
      assert frame[..5] == [frame[0], frame[1], frame[2], frame[3], frame[4]];
    }
    assert IsControlFrame(frame, r, parameter, status);
  }

  lemma ControlFrameIsAccepted(frame: seq<byte>, slotsNum: byte, r: RTpdu, parameter: byte, status: byte)
    requires IsControlFrame(frame, r, parameter, status) && r.slotId < slotsNum
    ensures Parse(frame, slotsNum) == Ok(r)
  {
    assert frame[|frame| - 4..] == Trailer(r.slotId, status);
  }

  /** The whole receiving side: a frame is accepted as an R_TPDU exactly when it is a
      data frame or a fixed-size frame of that slot, tag and body, byte for byte. */
  lemma FrameExact(frame: seq<byte>, slotsNum: byte, r: RTpdu)
    ensures Parse(frame, slotsNum) == Ok(r)
       <==> r.slotId < slotsNum
            && if IsData(r.tag) then exists n: nat, status: byte :: IsDataFrame(frame, r, n, status)
               else exists parameter: byte, status: byte :: IsControlFrame(frame, r, parameter, status)
  {
    if IsData(r.tag) {
      DataFrameExact(frame, slotsNum, r);
    } else {
      if Parse(frame, slotsNum) == Ok(r) {
        AcceptedIsControlFrame(frame, slotsNum, r);
      }
      if r.slotId < slotsNum && exists parameter: byte, status: byte :: IsControlFrame(frame, r, parameter, status) {
        var parameter: byte, status: byte :| IsControlFrame(frame, r, parameter, status);
        ControlFrameIsAccepted(frame, slotsNum, r, parameter, status);
      }
    }
  }

  /** The frame is the R_TPDU `r` with that status byte, byte for byte. */
  ghost predicate IsFrame(frame: seq<byte>, slotsNum: byte, r: RTpdu, status: byte) {
    && r.slotId < slotsNum
    && if r.tag in {0xA0, 0xA1} then exists n: nat :: IsDataFrame(frame, r, n, status)
       else exists parameter: byte :: IsControlFrame(frame, r, parameter, status)
  }

  lemma AcceptedIsFrame(frame: seq<byte>, slotsNum: byte, r: RTpdu) returns (status: byte)
    requires Parse(frame, slotsNum) == Ok(r)
    ensures IsFrame(frame, slotsNum, r, status)
  {
    FrameExact(frame, slotsNum, r);
    if IsData(r.tag) {
      var n: nat, s: byte :| IsDataFrame(frame, r, n, s);
      status := s;
    } else {
      var parameter: byte, s: byte :| IsControlFrame(frame, r, parameter, s);
      status := s;
    }
  }

  lemma FrameIsAccepted(frame: seq<byte>, slotsNum: byte, r: RTpdu, status: byte)
    requires IsFrame(frame, slotsNum, r, status)
    ensures Parse(frame, slotsNum) == Ok(r) && FrameSlotId(frame, slotsNum) == Some(r.slotId)
  {
    FrameExact(frame, slotsNum, r);
    hide Parse;
  }

  lemma FrameStatus(frame: seq<byte>, slotsNum: byte, r: RTpdu, status: byte)
    requires IsFrame(frame, slotsNum, r, status)
    ensures frame != [] && frame[|frame| - 1] == status && (r.dataIndicator <==> status >= 0x80)
  {
    if r.tag in {0xA0, 0xA1} {
      var n: nat :| IsDataFrame(frame, r, n, status);
      assert frame[|frame| - 1] == frame[4 + n + |r.body|..][3];
    } else {
      var parameter: byte :| IsControlFrame(frame, r, parameter, status);
    }
  }

  /** An R_TPDU that announces data: bit 0x80 of its status byte is set. */
  ghost predicate Announces(frame: seq<byte>, slotsNum: byte) {
    exists r: RTpdu, status: byte :: IsFrame(frame, slotsNum, r, status) && status >= 0x80
  }

  /** The R_TPDU that answers TT_CREATE_TC. */
  ghost predicate Replies(frame: seq<byte>, slotsNum: byte) {
    exists r: RTpdu, status: byte :: IsFrame(frame, slotsNum, r, status) && r.tag == 0x83
  }
}
