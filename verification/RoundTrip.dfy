/** The whole codec stack at once: objects behind a session_number header, cut into
    TPDUs by the module in any way, each with its status trailer, and read back. */
module RoundTrip {
  import opened Basics
  import opened Tpdu
  import opened Transport
  import Apdu
  import Spdu

  /** One TPDU's worth of an SPDU, and the status byte behind it. */
  datatype Piece = Piece(data: seq<byte>, status: byte)

  /** The R_TPDU that carries a piece. */
  function PieceFrame(slotId: byte, tag: byte, p: Piece): seq<byte>
    requires slotId < 0xFF && IsData(tag) && |p.data| <= MAX_TPDU_DATA
  {
    Build(slotId, tag, p.data).value + Trailer(slotId, p.status)
  }

  predicate Fit(pieces: seq<Piece>) {
    forall i | 0 <= i < |pieces| :: |pieces[i].data| <= MAX_TPDU_DATA
  }

  function MoreFrames(slotId: byte, pieces: seq<Piece>): (frames: seq<seq<byte>>)
    requires slotId < 0xFF && Fit(pieces)
    ensures |frames| == |pieces|
  {
    if pieces == [] then []
    else
      var last := |pieces| - 1;
      assert |pieces[last].data| <= MAX_TPDU_DATA && Fit(pieces[..last]);
      MoreFrames(slotId, pieces[..last]) + [PieceFrame(slotId, DATA_MORE, pieces[last])]
  }

  /** All pieces in order, the last one closing the chain. */
  function ModuleFrames(slotId: byte, pieces: seq<Piece>, last: Piece): seq<seq<byte>>
    requires slotId < 0xFF && Fit(pieces) && |last.data| <= MAX_TPDU_DATA
  {
    MoreFrames(slotId, pieces) + [PieceFrame(slotId, DATA_LAST, last)]
  }

  function Bytes(pieces: seq<Piece>): seq<byte> {
    if pieces == [] then [] else Bytes(pieces[..|pieces| - 1]) + pieces[|pieces| - 1].data
  }

  /** Frames of one slot, received one after the other. */
  function ReceiveAll(t: TransportSlot, frames: seq<seq<byte>>, slotsNum: byte): (TransportSlot, seq<TransportRecv>) {
    if frames == [] then (t, [])
    else
      var (before, received) := ReceiveAll(t, frames[..|frames| - 1], slotsNum);
      var frame := frames[|frames| - 1];
      if FrameSlotId(frame, slotsNum) == None then (before, received)
      else
        var (after, recv) := Receive(before, frame, slotsNum);
        (after, received + [recv])
  }

  /** Whatever frames arrive, reassembly holds at most MAX_TPDU_SIZE bytes and never
      delivers more. */
  lemma {:induction false} ReassemblyBounded(t: TransportSlot, frames: seq<seq<byte>>, slotsNum: byte)
    requires |t.rxBuffer| <= MAX_TPDU_SIZE
    ensures var (after, received) := ReceiveAll(t, frames, slotsNum);
            && |after.rxBuffer| <= MAX_TPDU_SIZE
            && after.queue == t.queue
            && forall i | 0 <= i < |received| :: received[i].Whole? ==> 0 < |received[i].spdu| <= MAX_TPDU_SIZE
    decreases |frames|
  {
    if frames != [] {
      ReassemblyBounded(t, frames[..|frames| - 1], slotsNum);
      hide Parse;
    }
  }

  /** What one accepted frame does to its slot, in the frame's own bytes: something is in
      flight no longer, data is announced exactly by bit 0x80 of the closing status byte,
      and the tag decides the rest. Nothing queued is touched. */
  lemma ReceiveExact(t: TransportSlot, frame: seq<byte>, slotsNum: byte, r: RTpdu, status: byte)
    requires IsFrame(frame, slotsNum, r, status)
    ensures FrameSlotId(frame, slotsNum) == Some(r.slotId) && frame[|frame| - 1] == status
    ensures var (after, recv) := Receive(t, frame, slotsNum);
            && !after.busy && after.queue == t.queue && (after.dataPending <==> status >= 0x80)
            && (r.tag == 0x83 ==> recv == TcReply(r.slotId) && after.rxBuffer == t.rxBuffer)
            && (r.tag == 0x80 ==> recv == Status(r.slotId) && after.rxBuffer == t.rxBuffer)
            && (r.tag !in {0x80, 0x83, 0xA0, 0xA1} ==> recv == Malformed(r.slotId) && after.rxBuffer == t.rxBuffer)
            && (r.tag in {0xA0, 0xA1} && |t.rxBuffer| + |r.body| > 2048 ==>
                  recv == Malformed(r.slotId) && after.rxBuffer == [])
            && (r.tag in {0xA0, 0xA1} && |t.rxBuffer| + |r.body| <= 2048 ==>
                  if r.tag == 0xA1 || t.rxBuffer + r.body == []
                  then recv == Status(r.slotId) && after.rxBuffer == t.rxBuffer + r.body
                  else recv == Whole(r.slotId, t.rxBuffer + r.body) && after.rxBuffer == [])
  {
    FrameIsAccepted(frame, slotsNum, r, status);
    FrameStatus(frame, slotsNum, r, status);
    hide Parse, IsFrame;
  }

  /** A frame that is no R_TPDU only ends the wait for an answer. */
  lemma RefuseExact(t: TransportSlot, frame: seq<byte>, slotsNum: byte)
    requires FrameSlotId(frame, slotsNum).Some?
    requires forall r: RTpdu, status: byte :: !IsFrame(frame, slotsNum, r, status)
    ensures Receive(t, frame, slotsNum) == (t.(busy := false), Malformed(frame[0]))
  {
    var parsed := Parse(frame, slotsNum);
    if parsed.Ok? {
      var status := AcceptedIsFrame(frame, slotsNum, parsed.value);
      assert false;
    }
    hide Parse;
  }

  lemma ReceivePiece(t: TransportSlot, slotId: byte, slotsNum: byte, tag: byte, p: Piece)
    requires slotId < slotsNum && IsData(tag) && |p.data| <= MAX_TPDU_DATA
    ensures var frame := PieceFrame(slotId, tag, p);
            var noted := t.(busy := false, dataPending := p.status >= DATA_INDICATOR);
            var buffer := t.rxBuffer + p.data;
            && FrameSlotId(frame, slotsNum).Some?
            && Receive(t, frame, slotsNum)
               == if |buffer| > MAX_TPDU_SIZE then (noted.(rxBuffer := []), Malformed(slotId))
                  else if tag == DATA_MORE || buffer == [] then (noted.(rxBuffer := buffer), Status(slotId))
                  else (noted.(rxBuffer := []), Whole(slotId, buffer))
  {
    DataRoundTrip(slotId, slotsNum, tag, p.data, p.status);
    var frame := PieceFrame(slotId, tag, p);
    assert frame[0] == slotId;
    hide Parse, Build;
  }

  lemma {:induction false} ReceiveMore(t: TransportSlot, slotId: byte, slotsNum: byte, pieces: seq<Piece>)
    requires slotId < slotsNum && Fit(pieces) && |t.rxBuffer + Bytes(pieces)| <= MAX_TPDU_SIZE
    ensures var (after, received) := ReceiveAll(t, MoreFrames(slotId, pieces), slotsNum);
            && after.rxBuffer == t.rxBuffer + Bytes(pieces)
            && |received| == |pieces| && forall i | 0 <= i < |received| :: received[i] == Status(slotId)
    decreases |pieces|
  {
    if pieces == [] {
      assert t.rxBuffer + [] == t.rxBuffer;
    } else {
      var n := |pieces| - 1;
      var front := pieces[..n];
      assert Fit(front) && |pieces[n].data| <= MAX_TPDU_DATA;
      var frames := MoreFrames(slotId, front);
      var frame := PieceFrame(slotId, DATA_MORE, pieces[n]);
      assert t.rxBuffer + Bytes(pieces) == (t.rxBuffer + Bytes(front)) + pieces[n].data;
      ReceiveMore(t, slotId, slotsNum, front);
      ReceivePiece(ReceiveAll(t, frames, slotsNum).0, slotId, slotsNum, DATA_MORE, pieces[n]);
      assert (frames + [frame])[..n] == frames;
      hide Receive, PieceFrame, FrameSlotId;
    }
  }

  /** Any way of cutting an SPDU into pieces is put back together, exactly when the
      SPDU fits the reassembly buffer. */
  lemma Reassembled(t: TransportSlot, slotId: byte, slotsNum: byte, pieces: seq<Piece>, last: Piece)
    requires slotId < slotsNum && Fit(pieces) && |last.data| <= MAX_TPDU_DATA && t.rxBuffer == []
    requires Bytes(pieces) + last.data != []
    ensures var spdu := Bytes(pieces) + last.data;
            var received := ReceiveAll(t, ModuleFrames(slotId, pieces, last), slotsNum).1;
            Whole(slotId, spdu) in received <==> |spdu| <= MAX_TPDU_SIZE
    ensures var spdu := Bytes(pieces) + last.data;
            var (after, received) := ReceiveAll(t, ModuleFrames(slotId, pieces, last), slotsNum);
            |spdu| <= MAX_TPDU_SIZE ==>
              && after.rxBuffer == [] && |received| == |pieces| + 1 && received[|pieces|] == Whole(slotId, spdu)
              && forall i | 0 <= i < |pieces| :: received[i] == Status(slotId)
  {
    var spdu := Bytes(pieces) + last.data;
    var more := MoreFrames(slotId, pieces);
    var frames := ModuleFrames(slotId, pieces, last);
    assert frames[..|more|] == more;
    ReassemblyBounded(t, frames, slotsNum);
    if |spdu| <= MAX_TPDU_SIZE {
      assert t.rxBuffer + Bytes(pieces) == Bytes(pieces);
      ReceiveMore(t, slotId, slotsNum, pieces);
      ReceivePiece(ReceiveAll(t, more, slotsNum).0, slotId, slotsNum, DATA_LAST, last);
      hide Receive, PieceFrame, MoreFrames, FrameSlotId;
      assert ReceiveAll(t, frames, slotsNum).1[|pieces|] == Whole(slotId, spdu);
    }
  }

  /** The bytes of a list of objects behind their session_number header. */
  function Message(sessionId: u16, objects: seq<Apdu.Apdu>): seq<byte>
    requires forall i | 0 <= i < |objects| :: Apdu.Fits(objects[i])
  {
    Spdu.BuildSessionNumber(sessionId) + Apdu.BuildAll(objects)
  }

  /** From objects to frames and back: the same session number and the same objects,
      in order, whatever the cutting and whatever the status bytes. */
  lemma FullStack(t: TransportSlot, slotId: byte, slotsNum: byte, sessionId: u16, objects: seq<Apdu.Apdu>,
                  pieces: seq<Piece>, last: Piece)
    requires forall i | 0 <= i < |objects| :: Apdu.Fits(objects[i])
    requires slotId < slotsNum && Fit(pieces) && |last.data| <= MAX_TPDU_DATA && t.rxBuffer == []
    requires Bytes(pieces) + last.data == Message(sessionId, objects)
    requires |Message(sessionId, objects)| <= MAX_TPDU_SIZE
    ensures var received := ReceiveAll(t, ModuleFrames(slotId, pieces, last), slotsNum).1;
            && |received| == |pieces| + 1 && received[|pieces|].Whole?
            && var read := Spdu.Parse(received[|pieces|].spdu);
               && read.Ok? && read.value.SessionNumber? && read.value.sessionId == sessionId
               && Apdu.ParseAll(read.value.apdu) == Apdu.AllOk(objects)
  {
    var payload := Apdu.BuildAll(objects);
    Reassembled(t, slotId, slotsNum, pieces, last);
    Spdu.CodedIsParsed(Spdu.SessionNumber(sessionId, payload));
    Apdu.ParseAllRoundTrip(objects);
    hide ReceiveAll, ModuleFrames, Spdu.Parse, Apdu.ParseAll, Apdu.BuildAll;
  }
}
