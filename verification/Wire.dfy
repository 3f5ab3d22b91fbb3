/** The outgoing wire: how a command or an SPDU becomes link frames, and an ideal
    peer that puts the frames back together (EN 50221, section 7.1). */
module Wire {
  import opened Basics
  import opened Tpdu
  import Asn1

  /** What the host hands to the transport: one TPDU, or an SPDU to fragment. */
  datatype Item = Single(tag: byte, data: seq<byte>) | Spdu(bytes: seq<byte>)

  datatype Chunk = Chunk(tag: byte, data: seq<byte>)

  /** Fragments of an SPDU: full TT_DATA_MORE pieces, then one TT_DATA_LAST. */
  function Chunks(spdu: seq<byte>): (chunks: seq<Chunk>)
    ensures chunks != []
    ensures forall i | 0 <= i < |chunks| :: IsData(chunks[i].tag) && |chunks[i].data| <= MAX_TPDU_DATA
  {
    if |spdu| > MAX_TPDU_DATA
    then [Chunk(DATA_MORE, spdu[..MAX_TPDU_DATA])] + Chunks(spdu[MAX_TPDU_DATA..])
    else [Chunk(DATA_LAST, spdu)]
  }

  /** The TPDUs a well-behaved controller issues next to SPDUs: TT_CREATE_TC,
      TT_RCV and the empty TT_DATA_LAST poll. */
  predicate Issued(item: Item) {
    match item
    case Single(tag, data) => data == [] && tag in {CREATE_TC, RCV, DATA_LAST}
    case Spdu(bytes) => bytes != []
  }

  function ChunksOf(item: Item): (chunks: seq<Chunk>)
    ensures chunks != []
  {
    match item
    case Single(tag, data) => [Chunk(tag, data)]
    case Spdu(bytes) => Chunks(bytes)
  }

  function ChunkFrame(slotId: byte, c: Chunk): seq<byte> {
    var frame := Build(slotId, c.tag, c.data);
    if frame.Ok? then frame.value else []
  }

  function ChunkFrames(slotId: byte, chunks: seq<Chunk>): (frames: seq<seq<byte>>)
    ensures |frames| == |chunks|
  {
    if chunks == [] then []
    else ChunkFrames(slotId, chunks[..|chunks| - 1]) + [ChunkFrame(slotId, chunks[|chunks| - 1])]
  }

  /** Every frame of every item, in order. */
  function Frames(slotId: byte, items: seq<Item>): seq<seq<byte>> {
    if items == [] then []
    else Frames(slotId, items[..|items| - 1]) + ChunkFrames(slotId, ChunksOf(items[|items| - 1]))
  }

  lemma FramesAppend(slotId: byte, items: seq<Item>, item: Item)
    ensures Frames(slotId, items + [item]) == Frames(slotId, items) + ChunkFrames(slotId, ChunksOf(item))
  {
    assert (items + [item])[..|items|] == items;
  }

  lemma ChunkFramesAppend(slotId: byte, chunks: seq<Chunk>, c: Chunk)
    ensures ChunkFrames(slotId, chunks + [c]) == ChunkFrames(slotId, chunks) + [ChunkFrame(slotId, c)]
  {
    assert (chunks + [c])[..|chunks|] == chunks;
  }

  lemma {:induction false} ChunkFramesConcat(slotId: byte, a: seq<Chunk>, b: seq<Chunk>)
    ensures ChunkFrames(slotId, a + b) == ChunkFrames(slotId, a) + ChunkFrames(slotId, b)
  {
    if b == [] {
      assert a + b == a;
    } else {
      var front := b[..|b| - 1];
      assert a + b == (a + front) + [b[|b| - 1]];
      ChunkFramesAppend(slotId, a + front, b[|b| - 1]);
      ChunkFramesConcat(slotId, a, front);
    }
  }

  // -------------------------------------------------------------- ideal peer

  /** The module end of the link: the fragment buffer, everything it has
      understood so far, and whether the stream has been legal. */
  datatype Peer = Peer(buffer: seq<byte>, collecting: bool, received: seq<Item>, legal: bool)

  /** The C_TPDU grammar as a module reads it, by the tags of annex A.4.1: the six
      objects that carry only their identifier, TT_DATA_LAST and TT_DATA_MORE. */
  function ParseCommand(frame: seq<byte>): Option<Chunk> {
    if |frame| < 5 || frame[1] == 0 || frame[0] != frame[1] - 1 then None
    else if 0x81 <= frame[2] <= 0x86 then
      if |frame| == 5 && frame[3] == 1 && frame[4] == frame[1] then Some(Chunk(frame[2], [])) else None
    else if frame[2] == 0xA0 || frame[2] == 0xA1 then
      match Asn1.Decode(frame[3..])
      case Err(_) => None
      case Ok((length, size)) =>
        if length < 1 || 3 + size + length != |frame| || frame[3 + size] != frame[1] then None
        else Some(Chunk(frame[2], frame[4 + size..]))
    else None
  }

  /** One frame arrives. Anything but a data frame inside a fragment chain, and
      anything unreadable, makes the stream illegal for good. */
  function Absorb(p: Peer, frame: seq<byte>): Peer {
    match ParseCommand(frame)
    case None => p.(legal := false)
    case Some(c) => AbsorbChunk(p, c)
  }

  function AbsorbChunk(p: Peer, c: Chunk): Peer {
    if c.tag == 0xA1 then p.(buffer := p.buffer + c.data, collecting := true)
    else if c.tag == 0xA0 then
      var whole := p.buffer + c.data;
      var item := if whole == [] && !p.collecting then Single(0xA0, []) else Spdu(whole);
      Peer([], false, p.received + [item], p.legal)
    else p.(received := p.received + [Single(c.tag, [])], legal := p.legal && !p.collecting)
  }

  const FRESH: Peer := Peer([], false, [], true)

  function Listen(frames: seq<seq<byte>>): Peer {
    if frames == [] then FRESH
    else Absorb(Listen(frames[..|frames| - 1]), frames[|frames| - 1])
  }

  lemma ListenAppend(frames: seq<seq<byte>>, frame: seq<byte>)
    ensures Listen(frames + [frame]) == Absorb(Listen(frames), frame)
  {
    assert (frames + [frame])[..|frames|] == frames;
  }

  lemma CommandRoundTrip(slotId: byte, c: Chunk)
    requires slotId < 0xFF
    requires (IsData(c.tag) && |c.data| <= MAX_TPDU_DATA) || (IsShort(c.tag) && c.data == [])
    ensures ParseCommand(ChunkFrame(slotId, c)) == Some(c)
  {
    if IsData(c.tag) {
      var len := Asn1.Encode(|c.data| + 1);
      var tail := [(slotId + 1) as byte] + c.data;
      var frame := ChunkFrame(slotId, c);
      assert frame == [slotId, slotId + 1, c.tag] + (len + tail);
      assert frame[3..] == len + tail;
      Asn1.RoundTrip(|c.data| + 1, tail);
      assert frame[4 + |len|..] == c.data;
    }
  }

  predicate Carried(c: Chunk) {
    || (IsData(c.tag) && |c.data| <= MAX_TPDU_DATA)
    || (IsShort(c.tag) && c.data == [])
  }

  lemma ListenOne(slotId: byte, before: seq<seq<byte>>, c: Chunk)
    requires slotId < 0xFF && Carried(c)
    ensures Listen(before + [ChunkFrame(slotId, c)]) == AbsorbChunk(Listen(before), c)
  {
    CommandRoundTrip(slotId, c);
    ListenAppend(before, ChunkFrame(slotId, c));
  }

  /** The peer takes in the rest of one SPDU of which it already holds `done`. */
  lemma {:induction false} ListenChunks(slotId: byte, before: seq<seq<byte>>, done: seq<byte>, spdu: seq<byte>)
    requires slotId < 0xFF
    requires Listen(before).buffer == done && (Listen(before).collecting <==> done != [])
    requires done + spdu != []
    ensures var p := Listen(before);
            Listen(before + ChunkFrames(slotId, Chunks(spdu)))
              == Peer([], false, p.received + [Spdu(done + spdu)], p.legal)
    decreases |spdu|
  {
    hide Listen, ChunkFrame, ChunkFrames;
    if |spdu| > MAX_TPDU_DATA {
      var first := Chunk(DATA_MORE, spdu[..MAX_TPDU_DATA]);
      var rest := spdu[MAX_TPDU_DATA..];
      var frame := ChunkFrame(slotId, first);
      ListenOne(slotId, before, first);
      assert done + spdu == (done + first.data) + rest;
      ListenChunks(slotId, before + [frame], done + first.data, rest);
      OneChunkFrame(slotId, first);
      ChunkFramesConcat(slotId, [first], Chunks(rest));
      assert before + [frame] + ChunkFrames(slotId, Chunks(rest))
          == before + ChunkFrames(slotId, Chunks(spdu));
    } else {
      var last := Chunk(DATA_LAST, spdu);
      ListenOne(slotId, before, last);
      OneChunkFrame(slotId, last);
    }
  }

  lemma OneChunkFrame(slotId: byte, c: Chunk)
    ensures ChunkFrames(slotId, [c]) == [ChunkFrame(slotId, c)]
  {
    ChunkFramesAppend(slotId, [], c);
  }

  lemma ListenItem(slotId: byte, before: seq<seq<byte>>, item: Item)
    requires slotId < 0xFF && Issued(item)
    requires Listen(before).buffer == [] && !Listen(before).collecting
    ensures var p := Listen(before);
            Listen(before + ChunkFrames(slotId, ChunksOf(item)))
              == Peer([], false, p.received + [item], p.legal)
  {
    hide Listen, ChunkFrame, ChunkFrames;
    match item {
      case Spdu(bytes) =>
        ListenChunks(slotId, before, [], bytes);
        assert [] + bytes == bytes;
      case Single(tag, data) =>
        ListenOne(slotId, before, Chunk(tag, data));
        OneChunkFrame(slotId, Chunk(tag, data));
    }
  }

  lemma NothingHeard(slotId: byte)
    ensures Frames(slotId, []) == []
    ensures Listen([]) == Peer([], false, [], true)
  {
  }

  /** The wire carries exactly the items handed to the transport: the ideal peer
      understands every one of them, in order, with no fragment chain broken. */
  lemma {:induction false} PeerUnderstands(slotId: byte, items: seq<Item>)
    requires slotId < 0xFF
    requires forall i | 0 <= i < |items| :: Issued(items[i])
    ensures Listen(Frames(slotId, items)) == Peer([], false, items, true)
  {
    hide *;
    if items == [] {
      NothingHeard(slotId);
      return;
    }
    var front := items[..|items| - 1];
    var item := items[|items| - 1];
    FramesAppend(slotId, front, item);
    PeerUnderstands(slotId, front);
    ListenItem(slotId, Frames(slotId, front), item);
    assert items == front + [item];
  }

  lemma {:induction false} ListenMonotone(frames: seq<seq<byte>>, more: seq<seq<byte>>)
    ensures Listen(frames).received <= Listen(frames + more).received
    ensures Listen(frames + more).legal ==> Listen(frames).legal
  {
    if more == [] {
      assert frames + more == frames;
    } else {
      var front := more[..|more| - 1];
      assert frames + more == (frames + front) + [more[|more| - 1]];
      ListenMonotone(frames, front);
      ListenAppend(frames + front, more[|more| - 1]);
    }
  }

  /** At any moment, what has been written lets the peer understand a prefix of
      the items, in order and legally; with nothing left queued, all of them. */
  lemma WrittenPrefix(slotId: byte, items: seq<Item>, written: seq<seq<byte>>, queued: seq<seq<byte>>)
    requires slotId < 0xFF
    requires forall i | 0 <= i < |items| :: Issued(items[i])
    requires written + queued == Frames(slotId, items)
    ensures Listen(written).legal && Listen(written).received <= items
    ensures queued == [] ==> Listen(written) == Peer([], false, items, true)
  {
    PeerUnderstands(slotId, items);
    ListenMonotone(written, queued);
    if queued == [] {
      assert written + queued == written;
    }
  }
}
