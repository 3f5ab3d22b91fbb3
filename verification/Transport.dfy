/** Transport layer (EN 50221, section 7.1): per-slot queues, one command in
    flight per slot, outgoing fragmentation and incoming reassembly. */
module Transport {
  import opened Basics
  import opened Device
  import opened Tpdu
  import opened Wire
  import Apdu
  import Cam
  import SpduCoding = Spdu

  datatype TransportRecv =
    | TcReply(slotId: byte)
    | Whole(slotId: byte, spdu: seq<byte>)
    | Status(slotId: byte)
    | Malformed(slotId: byte)

  /** Per-slot transport state. */
  datatype TransportSlot =
    TransportSlot(busy: bool, queue: seq<seq<byte>>, rxBuffer: seq<byte>, dataPending: bool)

  const IDLE: TransportSlot := TransportSlot(false, [], [], false)

  /** Nothing is outstanding on the slot. */
  predicate Idle(t: TransportSlot) {
    !t.busy && t.queue == []
  }

  datatype LinkEvent = Wrote(frame: seq<byte>) | Got

  /** What happened on a slot since it was last cleared: the items handed over,
      the link traffic, whether every write so far was unambiguous, and whether a
      write that was cut short has been passed off as malformed data. */
  datatype History = History(sent: seq<Item>, trace: seq<LinkEvent>, intact: bool, swallowed: bool)

  const NOTHING: History := History([], [], true, false)

  /** Every failed write was noticed by somebody, if only as malformed data. */
  predicate Fine(h: History) {
    h.intact || h.swallowed
  }

  /** Every failed write is passed on to the caller as a link error. */
  predicate Blameless<T>(h: History, h': History, r: Result<T>) {
    Fine(h) && !(r.Err? && IsLinkError(r.error)) ==> Fine(h')
  }

  /** Nothing that was handed over or went over the link is forgotten. */
  predicate Grown(h: History, h': History) {
    h.sent <= h'.sent && h.trace <= h'.trace
  }

  lemma GrownTrans(a: History, b: History, c: History)
    requires Grown(a, b) && Grown(b, c)
    ensures Grown(a, c)
  {
  }

  function Written(trace: seq<LinkEvent>): seq<seq<byte>> {
    if trace == [] then []
    else
      var last := trace[|trace| - 1];
      Written(trace[..|trace| - 1]) + (if last.Wrote? then [last.frame] else [])
  }

  lemma WrittenAppend(trace: seq<LinkEvent>, e: LinkEvent)
    ensures Written(trace + [e]) == Written(trace) + (if e.Wrote? then [e.frame] else [])
  {
    assert (trace + [e])[..|trace|] == trace;
  }

  // ------------------------------------------------------- the record of the link

  /** The frames of one slot that the link accepted. */
  function Taken(writes: seq<Attempt>, s: int): seq<seq<byte>> {
    if writes == [] then []
    else
      var last := writes[|writes| - 1];
      Taken(writes[..|writes| - 1], s) + (if last.result.Sent? && ForSlot(last.frame, s) then [last.frame] else [])
  }

  /** How many writes failed. */
  function Faults(writes: seq<Attempt>): nat {
    if writes == [] then 0
    else Faults(writes[..|writes| - 1]) + (if writes[|writes| - 1].result.Failed? then 1 else 0)
  }

  lemma TakenAppend(writes: seq<Attempt>, a: Attempt, s: int)
    ensures Taken(writes + [a], s)
         == Taken(writes, s) + (if a.result.Sent? && ForSlot(a.frame, s) then [a.frame] else [])
    ensures Faults(writes + [a]) == Faults(writes) + (if a.result.Failed? then 1 else 0)
  {
    assert (writes + [a])[..|writes|] == writes;
  }

  /** The link was used since, and exactly a link error of the result is a failed write. */
  predicate Faulted<T>(writes: seq<Attempt>, writes': seq<Attempt>, r: Result<T>) {
    && writes <= writes'
    && Faults(writes') == Faults(writes) + (if r.Err? && IsLinkError(r.error) then 1 else 0)
  }

  lemma FaultedTrans<S, T>(a: seq<Attempt>, b: seq<Attempt>, c: seq<Attempt>, first: Result<S>, r: Result<T>)
    requires Faulted(a, b, first) && first.Ok? && Faulted(b, c, r)
    ensures Faulted(a, c, r)
  {
    hide Faults;
  }

  lemma FaultedCount<T>(writes: seq<Attempt>, writes': seq<Attempt>, r: Result<T>)
    requires Faulted(writes, writes', r)
    ensures writes <= writes' && Faults(writes) <= Faults(writes') && (Faults(writes') == Faults(writes) <==> Uncut(r))
  {
  }

  /** What every slot's log says was written since the slot was cleared is what the link
      accepted for it since then. */
  predicate OnRecord(hist: seq<History>, cleared: seq<nat>, writes: seq<Attempt>) {
    && |cleared| == |hist|
    && forall s | 0 <= s < |hist| ::
         cleared[s] <= |writes| && Written(hist[s].trace) == Taken(writes[cleared[s]..], s)
  }

  lemma OnRecordWrite(hist: seq<History>, cleared: seq<nat>, writes: seq<Attempt>, slotId: nat, h': History, a: Attempt)
    requires OnRecord(hist, cleared, writes) && slotId < |hist| && ForSlot(a.frame, slotId)
    requires Written(h'.trace) == Written(hist[slotId].trace) + (if a.result.Sent? then [a.frame] else [])
    ensures OnRecord(hist[slotId := h'], cleared, writes + [a])
  {
    hide Written, Taken;
    forall s | 0 <= s < |hist|
      ensures Written(hist[slotId := h'][s].trace) == Taken((writes + [a])[cleared[s]..], s)
    {
      assert (writes + [a])[cleared[s]..] == writes[cleared[s]..] + [a];
      TakenAppend(writes[cleared[s]..], a, s);
    }
  }

  lemma OnRecordKept(hist: seq<History>, cleared: seq<nat>, writes: seq<Attempt>, slotId: nat, h': History)
    requires OnRecord(hist, cleared, writes) && slotId < |hist| && Written(h'.trace) == Written(hist[slotId].trace)
    ensures OnRecord(hist[slotId := h'], cleared, writes)
  {
    hide Written, Taken;
  }

  lemma OnRecordCleared(hist: seq<History>, cleared: seq<nat>, writes: seq<Attempt>, slotId: nat)
    requires OnRecord(hist, cleared, writes) && slotId < |hist|
    ensures OnRecord(hist[slotId := NOTHING], cleared[slotId := |writes|], writes)
  {
    assert writes[|writes|..] == [];
  }

  lemma OnRecordStart(hist: seq<History>, cleared: seq<nat>, writes: seq<Attempt>)
    requires |cleared| == |hist| && forall s | 0 <= s < |hist| :: hist[s] == NOTHING && cleared[s] == |writes|
    ensures OnRecord(hist, cleared, writes)
  {
    assert writes[|writes|..] == [];
  }

  /** If the slot may write, its head is offered to the link, once; the link's answer
      decides the rest. */
  predicate Offered(before: TransportSlot, after: TransportSlot, r: Result<()>,
                    writes: seq<Attempt>, writes': seq<Attempt>) {
    if before.busy || before.queue == [] then writes' == writes && after == before && r.Ok?
    else
      && |writes'| == |writes| + 1 && writes'[..|writes|] == writes && writes'[|writes|].frame == before.queue[0]
      && match writes'[|writes|].result
         case Sent => r.Ok? && after == before.(busy := true, queue := before.queue[1..])
         case Retry => r.Ok? && after == before
         case Failed(e) => r == Err(e) && after == before.(queue := before.queue[1..])
  }

  lemma OnRecordOffered(hist: seq<History>, cleared: seq<nat>, writes: seq<Attempt>, writes': seq<Attempt>, slotId: nat,
                        h': History, before: TransportSlot, after: TransportSlot, r: Result<()>)
    requires OnRecord(hist, cleared, writes) && slotId < |hist| && Offered(before, after, r, writes, writes')
    requires |writes'| > |writes| ==>
               var a := writes'[|writes|];
               && ForSlot(a.frame, slotId)
               && Written(h'.trace) == Written(hist[slotId].trace) + (if a.result.Sent? then [a.frame] else [])
    requires before.busy || before.queue == [] ==> h' == hist[slotId]
    ensures OnRecord(hist[slotId := h'], cleared, writes')
  {
    hide OnRecord, Written;
    if before.busy || before.queue == [] {
      assert hist[slotId := h'] == hist;
    } else {
      OnRecordWrite(hist, cleared, writes, slotId, h', writes'[|writes|]);
      assert writes' == writes + [writes'[|writes|]];
    }
  }

  /** The link was tried: something is in flight, nothing is queued, or the link has
      refused the head since. */
  predicate Tried(t: TransportSlot, writes: seq<Attempt>, writes': seq<Attempt>) {
    || t.busy || t.queue == []
    || exists k :: |writes| <= k < |writes'| && writes'[k] == Attempt(t.queue[0], Retry)
  }

  lemma TriedLonger(t: TransportSlot, a: seq<Attempt>, b: seq<Attempt>, c: seq<Attempt>)
    requires a <= b <= c && Tried(t, b, c)
    ensures Tried(t, a, c)
  {
  }

  lemma TriedKept(t: TransportSlot, a: seq<Attempt>, b: seq<Attempt>, c: seq<Attempt>)
    requires a <= b <= c && Tried(t, a, b)
    ensures Tried(t, a, c)
  {
    if !t.busy && t.queue != [] {
      var k :| |a| <= k < |b| && b[k] == Attempt(t.queue[0], Retry);
      assert c[k] == b[k];
    }
  }

  lemma OfferedTries(before: TransportSlot, after: TransportSlot, r: Result<()>,
                      writes: seq<Attempt>, writes': seq<Attempt>)
    requires Offered(before, after, r, writes, writes') && (r.Err? ==> IsLinkError(r.error))
    ensures r.Ok? ==> Tried(after, writes, writes')
    ensures Flushed(before, after, r.Ok?) && Faulted(writes, writes', r)
  {
    if |writes'| > |writes| {
      TakenAppend(writes, writes'[|writes|], 0);
      assert writes' == writes + [writes'[|writes|]];
    }
  }

  /** The last thing that happened was a write. */
  predicate AwaitsRead(trace: seq<LinkEvent>) {
    trace != [] && trace[|trace| - 1].Wrote?
  }

  /** Command-response discipline: a read separates any two writes. */
  predicate HalfDuplex(trace: seq<LinkEvent>) {
    forall i | 0 < i < |trace| :: trace[i].Wrote? ==> trace[i - 1].Got?
  }

  /** Everything handed over is either on the wire or still queued, in order. */
  predicate Conserved(slotId: byte, t: TransportSlot, h: History, tail: seq<seq<byte>>) {
    h.intact ==> Written(h.trace) + t.queue == Frames(slotId, h.sent) + tail
  }

  /** Soundness of one slot; `tail` are frames of an SPDU that is being handed over. */
  predicate Sound(slotId: byte, t: TransportSlot, h: History, tail: seq<seq<byte>>) {
    && |t.rxBuffer| <= MAX_TPDU_SIZE
    && (forall i | 0 <= i < |t.queue| :: ForSlot(t.queue[i], slotId))
    && (t.busy <==> AwaitsRead(h.trace))
    && HalfDuplex(h.trace)
    && Conserved(slotId, t, h, tail)
  }

  /** One attempt to write the head of the queue. */
  predicate Flushed(before: TransportSlot, after: TransportSlot, ok: bool) {
    if before.busy || before.queue == [] then ok && after == before
    else if ok then after == before || after == before.(busy := true, queue := before.queue[1..])
    else after == before.(queue := before.queue[1..])
  }

  /** What one frame does to its slot. */
  function Receive(t: TransportSlot, frame: seq<byte>, slotsNum: byte): (TransportSlot, TransportRecv)
    requires FrameSlotId(frame, slotsNum).Some?
  {
    var slotId := frame[0];
    var ready := t.(busy := false);
    var parsed := Parse(frame, slotsNum);
    if parsed.Err? then (ready, Malformed(slotId))
    else
      var noted := ready.(dataPending := parsed.value.dataIndicator);
      var tag := parsed.value.tag;
      var body := parsed.value.body;
      if tag == CTC_REPLY then (noted, TcReply(slotId))
      else if IsData(tag) then
        if |t.rxBuffer| + |body| > MAX_TPDU_SIZE then (noted.(rxBuffer := []), Malformed(slotId))
        else
          var buffer := t.rxBuffer + body;
          if tag == DATA_MORE || buffer == [] then (noted.(rxBuffer := buffer), Status(slotId))
          else (noted.(rxBuffer := []), Whole(slotId, buffer))
      else if tag == SB then (noted, Status(slotId))
      else (noted, Malformed(slotId))
  }

  /** An accepted frame announces data exactly by its status byte; any other leaves that
      as it was. */
  lemma AnnouncedPending(t: TransportSlot, frame: seq<byte>, slotsNum: byte)
    requires FrameSlotId(frame, slotsNum).Some?
    ensures Announces(frame, slotsNum) ==> Receive(t, frame, slotsNum).0.dataPending
    ensures Receive(t, frame, slotsNum).0.dataPending ==> Announces(frame, slotsNum) || t.dataPending
  {
    hide Parse, IsFrame;
    var parsed := Parse(frame, slotsNum);
    if parsed.Ok? {
      var status := AcceptedIsFrame(frame, slotsNum, parsed.value);
      FrameStatus(frame, slotsNum, parsed.value, status);
    }
    if Announces(frame, slotsNum) {
      var r: RTpdu, status: byte :| IsFrame(frame, slotsNum, r, status) && status >= 0x80;
      FrameIsAccepted(frame, slotsNum, r, status);
      FrameStatus(frame, slotsNum, r, status);
    }
  }

  /** Exactly that frame is reported as the reply. */
  lemma RepliesExact(t: TransportSlot, frame: seq<byte>, slotsNum: byte)
    requires FrameSlotId(frame, slotsNum).Some?
    ensures Receive(t, frame, slotsNum).1.TcReply? <==> Replies(frame, slotsNum)
  {
    hide Parse, IsFrame;
    var parsed := Parse(frame, slotsNum);
    if parsed.Ok? {
      var status := AcceptedIsFrame(frame, slotsNum, parsed.value);
    }
    if Replies(frame, slotsNum) {
      var r: RTpdu, status: byte :| IsFrame(frame, slotsNum, r, status) && r.tag == 0x83;
      FrameIsAccepted(frame, slotsNum, r, status);
    }
  }

  /** All slots are sound; only slot `owing` still owes `tail` to the log of items. */
  predicate AllSound(slots: seq<TransportSlot>, hist: seq<History>, owing: int, tail: seq<seq<byte>>) {
    && |slots| == |hist| < 0x100
    && forall s | 0 <= s < |slots| :: Sound(s, slots[s], hist[s], if s == owing then tail else [])
  }

  lemma AllSoundUpdate(slots: seq<TransportSlot>, hist: seq<History>, owing: int, tail: seq<seq<byte>>,
                       slotId: nat, t: TransportSlot, h: History, tail': seq<seq<byte>>)
    requires AllSound(slots, hist, owing, tail) && slotId < |slots|
    requires owing == slotId || tail == [] || owing == -1
    requires Sound(slotId, t, h, tail')
    ensures AllSound(slots[slotId := t], hist[slotId := h], slotId, tail')
  {
    hide Sound;
  }

  lemma NothingOwed(slots: seq<TransportSlot>, hist: seq<History>, a: int, b: int)
    requires AllSound(slots, hist, a, [])
    ensures AllSound(slots, hist, b, [])
  {
    hide Sound;
    forall s | 0 <= s < |slots| ensures Sound(s, slots[s], hist[s], if s == b then [] else []) {
      assert Sound(s, slots[s], hist[s], if s == a then [] else []);
    }
  }

  /** The slot's log after a write attempt. */
  predicate Logged(before: History, after: History, wrote: bool, ok: bool) {
    && after.sent == before.sent
    && after.intact == (before.intact && ok)
    && after.swallowed == before.swallowed
    && (!wrote ==> after.trace == before.trace)
    && (wrote ==> before.trace < after.trace && |after.trace| == |before.trace| + 1 && AwaitsRead(after.trace))
  }

  lemma LoggedGrown(before: History, after: History, wrote: bool, ok: bool)
    requires Logged(before, after, wrote, ok)
    ensures Grown(before, after)
  {
  }

  /** Attempts one queued write on one slot. A transient error keeps the frame
      queued; any other error drops it and taints the slot's log. */
  method FlushSlot(slotId: byte, slot: TransportSlot, link: CaDevice,
                   ghost h: History, ghost tail: seq<seq<byte>>)
    returns (after: TransportSlot, r: Result<()>, ghost h': History)
    requires Sound(slotId, slot, h, tail)
    modifies link`writes
    ensures Offered(slot, after, r, old(link.writes), link.writes)
    ensures |link.writes| > |old(link.writes)| ==>
              var a := link.writes[|old(link.writes)|];
              && ForSlot(a.frame, slotId)
              && Written(h'.trace) == Written(h.trace) + (if a.result.Sent? then [a.frame] else [])
    ensures slot.busy || slot.queue == [] ==> h' == h
    ensures Logged(h, h', after.busy != slot.busy, r.Ok?)
    ensures r.Err? ==> IsLinkError(r.error)
    ensures Sound(slotId, after, h', tail)
    ensures Blameless(h, h', r)
  {
    hide Written, Frames;
    after, r, h' := slot, Ok(()), h;
    if slot.busy || slot.queue == [] {
      return;
    }
    var frame := slot.queue[0];
    var outcome := link.SendMsg(frame);
    match outcome {
      case Sent =>
        WrittenAppend(h.trace, Wrote(frame));
        assert slot.queue == [frame] + slot.queue[1..];
        after := slot.(queue := slot.queue[1..], busy := true);
        h' := h.(trace := h.trace + [Wrote(frame)]);
      case Retry =>
      case Failed(e) =>
        after := slot.(queue := slot.queue[1..]);
        h' := h.(intact := false);
        r := Err(e);
    }
  }

  lemma EnqueueSound(slotId: byte, t: TransportSlot, h: History, tail: seq<seq<byte>>, frame: seq<byte>)
    requires Sound(slotId, t, h, tail) && ForSlot(frame, slotId)
    ensures Sound(slotId, t.(queue := t.queue + [frame]), h, tail + [frame])
  {
    hide Written, Frames;
    assert Written(h.trace) + (t.queue + [frame]) == (Written(h.trace) + t.queue) + [frame];
    assert Frames(slotId, h.sent) + (tail + [frame]) == (Frames(slotId, h.sent) + tail) + [frame];
  }

  lemma LogSound(slotId: byte, t: TransportSlot, h: History, item: Item)
    requires Sound(slotId, t, h, ChunkFrames(slotId, ChunksOf(item)))
    ensures Sound(slotId, t, h.(sent := h.sent + [item]), [])
  {
    hide Written, Frames, ChunkFrames, ChunksOf;
    FramesAppend(slotId, h.sent, item);
  }

  lemma TaintedSound(slotId: byte, t: TransportSlot, h: History, tail: seq<seq<byte>>)
    requires Sound(slotId, t, h, tail) && !h.intact
    ensures Sound(slotId, t, h, [])
  {
  }

  /** The incoming side is as it was, and a successful hand-over leaves the slot
      with something outstanding and its item logged. */
  predicate Handed(before: TransportSlot, after: TransportSlot, h: History, h': History, item: Item, ok: bool) {
    && Incoming(before, after)
    && Grown(h, h') && h'.swallowed == h.swallowed
    && (ok ==> h'.sent == h.sent + [item] && h'.intact == h.intact && (after.busy || after.queue != []))
    && (!ok ==> h'.sent == h.sent && !h'.intact)
  }

  lemma HandedSent(before: TransportSlot, after: TransportSlot, h: History, h': History, item: Item, ok: bool)
    requires Handed(before, after, h, h', item, ok)
    ensures h'.sent == if ok then h.sent + [item] else h.sent
    ensures Incoming(before, after)
  {
  }

  lemma BuiltForSlot(slotId: byte, tag: byte, data: seq<byte>)
    ensures Build(slotId, tag, data).Ok? ==> ForSlot(Build(slotId, tag, data).value, slotId)
  {
  }

  lemma DataBuilds(slotId: byte, tag: byte, data: seq<byte>)
    requires slotId < 0xFF && IsData(tag) && |data| <= MAX_TPDU_DATA
    ensures Build(slotId, tag, data).Ok?
  {
  }

  lemma NoChunkFrames(slotId: byte)
    ensures ChunkFrames(slotId, []) == []
  {
  }

  /** The pieces queued so far, and what is left, are the fragments of the SPDU. */
  predicate Fragmented(spdu: seq<byte>, offset: nat, done: seq<Chunk>) {
    offset <= |spdu| && done + Chunks(spdu[offset..]) == Chunks(spdu)
  }

  lemma FragmentedStart(spdu: seq<byte>)
    ensures Fragmented(spdu, 0, [])
  {
    assert spdu[0..] == spdu;
  }

  lemma FragmentedStep(spdu: seq<byte>, offset: nat, done: seq<Chunk>)
    requires Fragmented(spdu, offset, done) && offset + MAX_TPDU_DATA < |spdu|
    ensures Fragmented(spdu, offset + MAX_TPDU_DATA,
                       done + [Chunk(DATA_MORE, spdu[offset..offset + MAX_TPDU_DATA])])
  {
    var rest := spdu[offset..];
    assert rest[..MAX_TPDU_DATA] == spdu[offset..offset + MAX_TPDU_DATA];
    assert rest[MAX_TPDU_DATA..] == spdu[offset + MAX_TPDU_DATA..];
    assert Chunks(rest) == [Chunk(DATA_MORE, rest[..MAX_TPDU_DATA])] + Chunks(rest[MAX_TPDU_DATA..]);
  }

  lemma FragmentedEnd(spdu: seq<byte>, offset: nat, done: seq<Chunk>)
    requires Fragmented(spdu, offset, done) && |spdu| <= offset + MAX_TPDU_DATA
    ensures Chunks(spdu) == done + [Chunk(DATA_LAST, spdu[offset..])]
  {
  }

  lemma ReceiveSlot(t: TransportSlot, frame: seq<byte>, slotsNum: byte)
    requires FrameSlotId(frame, slotsNum).Some?
    ensures Receive(t, frame, slotsNum).1.slotId == frame[0]
  {
  }

  /** Whatever arrives, the slot stays sound; reassembly never exceeds its bound. */
  lemma ReceiveSound(slotId: byte, t: TransportSlot, h: History, frame: seq<byte>, slotsNum: byte)
    requires Sound(slotId, t, h, []) && FrameSlotId(frame, slotsNum).Some?
    ensures Sound(slotId, Receive(t, frame, slotsNum).0, h.(trace := h.trace + [Got]), [])
  {
    ReceiveEffect(t, frame, slotsNum);
    GotSound(slotId, t, Receive(t, frame, slotsNum).0, h);
  }

  lemma GotSound(slotId: byte, t: TransportSlot, t': TransportSlot, h: History)
    requires Sound(slotId, t, h, []) && !t'.busy && t'.queue == t.queue && |t'.rxBuffer| <= MAX_TPDU_SIZE
    ensures Sound(slotId, t', h.(trace := h.trace + [Got]), [])
  {
    hide Frames, Written, HalfDuplex;
    WrittenAppend(h.trace, Got);
    GotHalfDuplex(h.trace);
  }

  lemma GotHalfDuplex(trace: seq<LinkEvent>)
    requires HalfDuplex(trace)
    ensures HalfDuplex(trace + [Got])
  {
  }

  lemma ReceiveEffect(t: TransportSlot, frame: seq<byte>, slotsNum: byte)
    requires |t.rxBuffer| <= MAX_TPDU_SIZE && FrameSlotId(frame, slotsNum).Some?
    ensures var after := Receive(t, frame, slotsNum).0;
            !after.busy && after.queue == t.queue && |after.rxBuffer| <= MAX_TPDU_SIZE
  {
    hide Parse;
  }

  /** Only slot `slotId` differs. */
  predicate OnlySlot(slots: seq<TransportSlot>, slots': seq<TransportSlot>,
                     hist: seq<History>, hist': seq<History>, slotId: int) {
    && |slots'| == |slots| && |hist'| == |hist| == |slots|
    && forall s | 0 <= s < |slots| && s != slotId :: slots'[s] == slots[s] && hist'[s] == hist[s]
  }

  lemma OnlySlotRefl(slots: seq<TransportSlot>, hist: seq<History>, slotId: int)
    requires |slots| == |hist|
    ensures OnlySlot(slots, slots, hist, hist, slotId)
  {
  }

  lemma OnlySlotTrans(a: seq<TransportSlot>, b: seq<TransportSlot>, c: seq<TransportSlot>,
                      ha: seq<History>, hb: seq<History>, hc: seq<History>, slotId: int)
    requires OnlySlot(a, b, ha, hb, slotId) && OnlySlot(b, c, hb, hc, slotId)
    ensures OnlySlot(a, c, ha, hc, slotId)
  {
  }

  lemma LoggedOnly(a: seq<TransportSlot>, b: seq<TransportSlot>,
                   ha: seq<History>, hb: seq<History>, hc: seq<History>, slotId: nat)
    requires OnlySlot(a, b, ha, hb, slotId) && slotId < |b|
    requires |hc| == |hb| && hc == hb[slotId := hc[slotId]]
    ensures OnlySlot(a, b, ha, hc, slotId)
  {
  }

  lemma OnlySlotLengths(a: seq<TransportSlot>, b: seq<TransportSlot>, ha: seq<History>, hb: seq<History>, slotId: int)
    requires OnlySlot(a, b, ha, hb, slotId)
    ensures |a| == |b| == |ha| == |hb|
  {
  }

  /** The incoming side is as it was. */
  predicate Incoming(t: TransportSlot, t': TransportSlot) {
    t'.rxBuffer == t.rxBuffer && t'.dataPending == t.dataPending
  }

  /** One slot, its log, and the record of the link. */
  datatype Track = Track(slot: TransportSlot, log: History, writes: seq<Attempt>)

  /** What anything that only sends does to its slot: the incoming side is as it was, and
      a failed write is passed on as a link error, and nothing else is one. */
  predicate Kept<T>(a: Track, b: Track, r: Result<T>) {
    Incoming(a.slot, b.slot) && Blameless(a.log, b.log, r) && Faulted(a.writes, b.writes, r)
  }

  lemma KeptRefl<T>(a: Track, r: Result<T>)
    requires Uncut(r)
    ensures Kept(a, a, r)
  {
  }

  lemma KeptStep<S, T>(a: Track, b: Track, c: Track, first: Result<S>, r: Result<T>)
    requires Kept(a, b, first) && first.Ok? && Kept(b, c, r)
    ensures Kept(a, c, r)
  {
    FaultedTrans(a.writes, b.writes, c.writes, first, r);
    hide Faulted;
  }

  lemma KeptParts<T>(a: Track, b: Track, r: Result<T>)
    requires Kept(a, b, r)
    ensures Incoming(a.slot, b.slot) && Blameless(a.log, b.log, r) && Faulted(a.writes, b.writes, r)
  {
  }

  /** No slot lost its good record. */
  predicate EachFine(hist: seq<History>, hist': seq<History>) {
    |hist| == |hist'| && forall s | 0 <= s < |hist| :: Fine(hist[s]) ==> Fine(hist'[s])
  }

  lemma EachFineStep(slots: seq<TransportSlot>, slots': seq<TransportSlot>, hist0: seq<History>,
                     hist: seq<History>, hist': seq<History>, slotId: nat)
    requires EachFine(hist0, hist) && OnlySlot(slots, slots', hist, hist', slotId) && slotId < |hist|
    requires Fine(hist[slotId]) ==> Fine(hist'[slotId])
    ensures EachFine(hist0, hist')
  {
    hide Fine;
    forall s | 0 <= s < |hist0| && Fine(hist0[s]) ensures Fine(hist'[s]) {
      assert Fine(hist[s]);
    }
  }

  /** Part of an item was queued, and nothing recorded for it yet. */
  predicate Pieced<T>(a: Track, b: Track, r: Result<T>) {
    && Kept(a, b, r)
    && b.log.sent == a.log.sent
    && Grown(a.log, b.log) && b.log.swallowed == a.log.swallowed
    && b.log.intact == (a.log.intact && r.Ok?)
  }

  lemma PiecedRefl(a: Track)
    ensures Pieced(a, a, Ok(()))
  {
  }

  lemma PiecedStep<S, T>(a: Track, b: Track, c: Track, first: Result<S>, r: Result<T>)
    requires Pieced(a, b, first) && first.Ok? && Pieced(b, c, r)
    ensures Pieced(a, c, r)
  {
    KeptStep(a, b, c, first, r);
    GrownTrans(a.log, b.log, c.log);
    hide Kept;
  }

  /** The first pieces and then the last: the item was handed over. */
  lemma PiecedHanded<S>(a: Track, b: Track, c: Track, first: Result<S>, r: Result<()>, item: Item)
    requires Pieced(a, b, first) && first.Ok?
    requires Handed(b.slot, c.slot, b.log, c.log, item, r.Ok?) && Kept(b, c, r)
    ensures Handed(a.slot, c.slot, a.log, c.log, item, r.Ok?) && Kept(a, c, r)
  {
    KeptStep(a, b, c, first, r);
    GrownTrans(a.log, b.log, c.log);
    hide Faulted;
  }

  lemma NotHanded<T>(a: Track, b: Track, r: Result<T>, item: Item)
    requires Pieced(a, b, r) && r.Err?
    ensures Handed(a.slot, b.slot, a.log, b.log, item, false) && Kept(a, b, r)
  {
    hide Faulted;
  }

  /** The last fragment was queued, and the item recorded. */
  lemma LastHanded<T>(a: Track, b: Track, h': History, r: Result<T>, item: Item)
    requires Pieced(a, b, r) && r.Ok? && (b.slot.busy || b.slot.queue != [])
    requires h' == b.log.(sent := b.log.sent + [item])
    ensures Handed(a.slot, b.slot, a.log, h', item, true) && Kept(a, b.(log := h'), r)
  {
    hide Faulted;
  }

  class CiTransport {
    const link: CaDevice
    var slots: seq<TransportSlot>
    ghost var hist: seq<History>

    /** Where each slot's log begins in the record of the link. */
    ghost var cleared: seq<nat>

    /** All slots are in order; slot `owing` still owes `tail` to its log. */
    ghost predicate Owes(owing: int, tail: seq<seq<byte>>)
      reads this, link`writes
    {
      AllSound(slots, hist, owing, tail) && OnRecord(hist, cleared, link.writes)
    }

    ghost predicate Valid()
      reads this, link`writes
    {
      Owes(-1, [])
    }

    ghost function At(slotId: byte): Track
      requires slotId < |slots| && slotId < |hist|
      reads this, link`writes
    {
      Track(slots[slotId], hist[slotId], link.writes)
    }

    constructor (link: CaDevice, slotsNum: byte)
      ensures Valid()
      ensures |slots| == slotsNum && |hist| == slotsNum
      ensures forall s | 0 <= s < slotsNum :: slots[s] == IDLE && hist[s] == NOTHING
    {
      this.link := link;
      slots := seq(slotsNum, _ => IDLE);
      hist := seq(slotsNum, _ => NOTHING);
      ghost var start := |link.writes|;
      cleared := seq(slotsNum, _ => start);
      new;
      OnRecordStart(hist, cleared, link.writes);
    }

    /** Writes the next queued frame if the slot is idle. */
    method Flush(slotId: byte, ghost owing: int := -1, ghost tail: seq<seq<byte>> := [])
      returns (r: Result<()>)
      requires Owes(owing, tail)
      requires owing == slotId || (owing == -1 && tail == [])
      modifies this`slots, this`hist, link`writes
      ensures Owes(owing, tail)
      ensures OnlySlot(old(slots), slots, old(hist), hist, slotId)
      ensures slotId >= |slots| ==> r == Err(InvalidProperty)
      ensures slotId < |slots| ==>
                && Offered(old(slots[slotId]), slots[slotId], r, old(link.writes), link.writes)
                && Flushed(old(slots[slotId]), slots[slotId], r.Ok?)
                && Faulted(old(link.writes), link.writes, r)
                && (r.Ok? ==> Tried(slots[slotId], old(link.writes), link.writes))
                && Logged(old(hist[slotId]), hist[slotId], slots[slotId].busy != old(slots[slotId].busy), r.Ok?)
                && Blameless(old(hist[slotId]), hist[slotId], r)
                && (r.Err? ==> IsLinkError(r.error))
    {
      if slotId >= |slots| {
        return Err(InvalidProperty);
      }
      assert Sound(slotId, slots[slotId], hist[slotId], tail);
      hide Sound, Logged, Flushed, Tried, OnRecord, Faulted, AllSound, Offered, Blameless, Written, Taken;
      ghost var h', writes := History([], [], true, false), link.writes;
      var after;
      after, r, h' := FlushSlot(slotId, slots[slotId], link, hist[slotId], tail);
      OfferedTries(slots[slotId], after, r, writes, link.writes);
      OnRecordOffered(hist, cleared, writes, link.writes, slotId, h', slots[slotId], after, r);
      AllSoundUpdate(slots, hist, owing, tail, slotId, after, h', tail);
      slots := slots[slotId := after];
      hist := hist[slotId := h'];
      if owing == -1 {
        NothingOwed(slots, hist, slotId, -1);
      }
    }

    /** Queues one framed TPDU and flushes. */
    method Enqueue(slotId: byte, tag: byte, data: seq<byte>, ghost owing: int, ghost tail: seq<seq<byte>>)
      returns (r: Result<()>)
      requires Owes(owing, tail)
      requires owing == slotId || (owing == -1 && tail == [])
      modifies this`slots, this`hist, link`writes
      ensures OnlySlot(old(slots), slots, old(hist), hist, slotId)
      ensures slotId >= |slots| || Build(slotId, tag, data).Err? ==>
                && r == Err(InvalidProperty) && slots == old(slots) && hist == old(hist)
                && link.writes == old(link.writes)
      ensures slotId < |slots| && Build(slotId, tag, data).Ok? ==>
                var t := old(slots[slotId]);
                var queued := t.(queue := t.queue + [ChunkFrame(slotId, Chunk(tag, data))]);
                && Offered(queued, slots[slotId], r, old(link.writes), link.writes)
                && Flushed(queued, slots[slotId], r.Ok?)
                && Faulted(old(link.writes), link.writes, r)
                && (r.Ok? ==> Tried(slots[slotId], old(link.writes), link.writes))
                && hist[slotId].sent == old(hist[slotId].sent)
                && Grown(old(hist[slotId]), hist[slotId]) && hist[slotId].swallowed == old(hist[slotId].swallowed)
                && hist[slotId].intact == (old(hist[slotId].intact) && r.Ok?)
                && Blameless(old(hist[slotId]), hist[slotId], r)
                && (r.Err? ==> IsLinkError(r.error))
                && (r.Ok? ==> Owes(slotId, tail + [ChunkFrame(slotId, Chunk(tag, data))]))
                && (r.Err? ==> Valid())
    {
      if slotId >= |slots| {
        return Err(InvalidProperty);
      }
      var frame :- Build(slotId, tag, data);
      var slot := slots[slotId];
      assert Sound(slotId, slot, hist[slotId], tail);
      BuiltForSlot(slotId, tag, data);
      EnqueueSound(slotId, slot, hist[slotId], tail, frame);
      hide Sound, Build, Flushed, Offered, Tried, OnRecord, Faulted;
      ghost var tail' := tail + [frame];
      AllSoundUpdate(slots, hist, owing, tail, slotId, slot.(queue := slot.queue + [frame]), hist[slotId], tail');
      slots := slots[slotId := slot.(queue := slot.queue + [frame])];
      assert hist[slotId := hist[slotId]] == hist;
      ghost var h, busy := hist[slotId], slots[slotId].busy;
      r := Flush(slotId, slotId, tail');
      LoggedGrown(h, hist[slotId], slots[slotId].busy != busy, r.Ok?);
      if r.Err? {
        assert Sound(slotId, slots[slotId], hist[slotId], tail');
        TaintedSound(slotId, slots[slotId], hist[slotId], tail');
        AllSoundUpdate(slots, hist, slotId, tail', slotId, slots[slotId], hist[slotId], []);
        assert slots[slotId := slots[slotId]] == slots && hist[slotId := hist[slotId]] == hist;
        NothingOwed(slots, hist, slotId, -1);
      }
    }

    /** Records that the frames just queued make up one item. */
    ghost method Log(slotId: byte, item: Item)
      requires slotId < |slots| && Owes(slotId, ChunkFrames(slotId, ChunksOf(item)))
      modifies this`hist
      ensures Valid()
      ensures |hist| == old(|hist|)
      ensures hist == old(hist)[slotId := old(hist[slotId]).(sent := old(hist[slotId]).sent + [item])]
    {
      ghost var tail := ChunkFrames(slotId, ChunksOf(item));
      assert Sound(slotId, slots[slotId], hist[slotId], tail);
      LogSound(slotId, slots[slotId], hist[slotId], item);
      ghost var h' := hist[slotId].(sent := hist[slotId].sent + [item]);
      hide Sound, ChunkFrames, OnRecord;
      OnRecordKept(hist, cleared, link.writes, slotId, h');
      AllSoundUpdate(slots, hist, slotId, tail, slotId, slots[slotId], h', []);
      assert slots[slotId := slots[slotId]] == slots;
      hist := hist[slotId := h'];
      NothingOwed(slots, hist, slotId, -1);
    }

    /** Records that a failed write on the slot is passed off as malformed data. */
    ghost method Swallow(slotId: byte)
      requires Valid() && slotId < |slots|
      modifies this`hist
      ensures Valid()
      ensures hist == old(hist)[slotId := old(hist[slotId]).(swallowed := true)]
    {
      assert Sound(slotId, slots[slotId], hist[slotId], []);
      ghost var h' := hist[slotId].(swallowed := true);
      OnRecordKept(hist, cleared, link.writes, slotId, h');
      AllSoundUpdate(slots, hist, -1, [], slotId, slots[slotId], h', []);
      assert slots[slotId := slots[slotId]] == slots;
      hist := hist[slotId := h'];
      NothingOwed(slots, hist, slotId, -1);
    }

    /** Queues one TPDU (TT_CREATE_TC, TT_RCV, the empty TT_DATA_LAST poll) and
        flushes it if the slot is idle. */
    method SendTpdu(slotId: byte, tag: byte, data: seq<byte>) returns (r: Result<()>)
      requires Valid()
      modifies this`slots, this`hist, link`writes
      ensures Valid()
      ensures OnlySlot(old(slots), slots, old(hist), hist, slotId)
      ensures slotId >= |slots| || Build(slotId, tag, data).Err? ==>
                && r == Err(InvalidProperty) && slots == old(slots) && hist == old(hist)
                && link.writes == old(link.writes)
      ensures slotId < |slots| && Build(slotId, tag, data).Ok? ==>
                var t := old(slots[slotId]);
                var queued := t.(queue := t.queue + [ChunkFrame(slotId, Chunk(tag, data))]);
                && Offered(queued, slots[slotId], r, old(link.writes), link.writes)
                && Flushed(queued, slots[slotId], r.Ok?)
                && Faulted(old(link.writes), link.writes, r)
                && (r.Ok? ==> Tried(slots[slotId], old(link.writes), link.writes))
                && Handed(t, slots[slotId], old(hist[slotId]), hist[slotId], Single(tag, data), r.Ok?)
                && Blameless(old(hist[slotId]), hist[slotId], r)
                && (r.Err? ==> IsLinkError(r.error))
    {
      r := Enqueue(slotId, tag, data, -1, []);
      if r.Ok? {
        OneChunkFrame(slotId, Chunk(tag, data));
        hide Sound, Build, ChunkFrames, Offered, OnRecord, Faulted;
        Log(slotId, Single(tag, data));
      }
    }

    /** Queues the next fragment of an SPDU. */
    method EnqueueFragment(slotId: byte, c: Chunk, ghost done: seq<Chunk>) returns (r: Result<()>)
      requires Owes(slotId, ChunkFrames(slotId, done)) && slotId < |slots| && slotId < |hist|
      requires IsData(c.tag) && |c.data| <= MAX_TPDU_DATA
      modifies this`slots, this`hist, link`writes
      ensures OnlySlot(old(slots), slots, old(hist), hist, slotId)
      ensures |slots| == old(|slots|) && |hist| == old(|hist|)
      ensures r.Ok? ==> Owes(slotId, ChunkFrames(slotId, done + [c]))
      ensures r.Ok? ==> Tried(slots[slotId], old(link.writes), link.writes)
      ensures r.Ok? ==> slots[slotId].busy || slots[slotId].queue != []
      ensures r.Err? ==> Valid() && IsLinkError(r.error)
      ensures Pieced(old(At(slotId)), At(slotId), r)
    {
      hide Sound, Build, ChunkFrames, Offered, OnRecord, Faulted, Tried;
      DataBuilds(slotId, c.tag, c.data);
      ChunkFramesAppend(slotId, done, c);
      r := Enqueue(slotId, c.tag, c.data, slotId, ChunkFrames(slotId, done));
    }

    /** Queues the TT_DATA_MORE pieces of an SPDU and returns where the last one starts. */
    method SendPieces(slotId: byte, spdu: seq<byte>)
      returns (r: Result<()>, offset: nat, ghost done: seq<Chunk>)
      requires Valid() && slotId < |slots| && slotId < |hist|
      modifies this`slots, this`hist, link`writes
      ensures OnlySlot(old(slots), slots, old(hist), hist, slotId)
      ensures |slots| == old(|slots|) && |hist| == old(|hist|) == |slots|
      ensures r.Err? ==> Valid() && IsLinkError(r.error)
      ensures r.Ok? ==> Owes(slotId, ChunkFrames(slotId, done))
      ensures offset <= |spdu| && (r.Ok? ==> |spdu| <= offset + MAX_TPDU_DATA && Fragmented(spdu, offset, done))
      ensures Pieced(old(At(slotId)), At(slotId), r)
    {
      NothingOwed(slots, hist, -1, slotId);
      NoChunkFrames(slotId);
      FragmentedStart(spdu);
      PiecedRefl(At(slotId));
      assert |hist| == |slots|;
      r, offset, done := Ok(()), 0, [];
      assert Owes(slotId, ChunkFrames(slotId, done));
      hide *;
      while r.Ok? && |spdu| - offset > MAX_TPDU_DATA
        invariant offset <= |spdu|
        invariant |slots| == old(|slots|) && |hist| == old(|hist|)
        invariant OnlySlot(old(slots), slots, old(hist), hist, slotId)
        invariant r.Ok? ==> Owes(slotId, ChunkFrames(slotId, done))
        invariant r.Err? ==> Valid() && IsLinkError(r.error)
        invariant Fragmented(spdu, offset, done)
        invariant Pieced(old(At(slotId)), At(slotId), r)
        decreases r.Ok?, |spdu| - offset
      {
        var c := Chunk(DATA_MORE, spdu[offset..offset + MAX_TPDU_DATA]);
        FragmentedStep(spdu, offset, done);
        ghost var slots', hist', before, sofar := slots, hist, At(slotId), r;
        r := EnqueueFragment(slotId, c, done);
        OnlySlotTrans(old(slots), slots', slots, old(hist), hist', hist, slotId);
        PiecedStep(old(At(slotId)), before, At(slotId), sofar, r);
        if r.Ok? {
          done := done + [c];
          offset := offset + MAX_TPDU_DATA;
        }
      }
    }

    /** Queues the TT_DATA_LAST piece; with that the SPDU is handed over. */
    method SendLast(slotId: byte, spdu: seq<byte>, offset: nat, ghost done: seq<Chunk>) returns (r: Result<()>)
      requires slotId < |slots| && slotId < |hist| && Owes(slotId, ChunkFrames(slotId, done))
      requires offset <= |spdu| <= offset + MAX_TPDU_DATA && Fragmented(spdu, offset, done)
      modifies this`slots, this`hist, link`writes
      ensures Valid()
      ensures OnlySlot(old(slots), slots, old(hist), hist, slotId)
      ensures |slots| == old(|slots|) && |hist| == old(|hist|)
      ensures r.Ok? ==> Tried(slots[slotId], old(link.writes), link.writes)
      ensures Handed(old(slots)[slotId], slots[slotId], old(hist)[slotId], hist[slotId], Item.Spdu(spdu), r.Ok?)
      ensures Kept(old(At(slotId)), At(slotId), r)
      ensures r.Err? ==> IsLinkError(r.error)
    {
      var last := Chunk(DATA_LAST, spdu[offset..]);
      FragmentedEnd(spdu, offset, done);
      hide Sound, ChunkFrames, Chunks, AllSound, OnlySlot, OnRecord, Tried, Pieced, Handed, Kept;
      r := EnqueueFragment(slotId, last, done);
      if r.Err? {
        NotHanded(old(At(slotId)), At(slotId), r, Item.Spdu(spdu));
        return;
      }
      ghost var hist', before := hist, At(slotId);
      Log(slotId, Item.Spdu(spdu));
      LoggedOnly(old(slots), slots, old(hist), hist', hist, slotId);
      LastHanded(old(At(slotId)), before, hist[slotId], r, Item.Spdu(spdu));
    }

    /** Sends a raw SPDU: TT_DATA_MORE pieces of the largest payload, then TT_DATA_LAST. */
    method SendSpdu(slotId: byte, spdu: seq<byte>) returns (r: Result<()>)
      requires Valid()
      modifies this`slots, this`hist, link`writes
      ensures Valid()
      ensures OnlySlot(old(slots), slots, old(hist), hist, slotId)
      ensures slotId >= |slots| ==> r == Err(InvalidProperty) && slots == old(slots) && hist == old(hist)
      ensures Faulted(old(link.writes), link.writes, r)
      ensures slotId < |slots| && r.Ok? ==> Tried(slots[slotId], old(link.writes), link.writes)
      ensures slotId < |slots| ==>
                && Handed(old(slots[slotId]), slots[slotId], old(hist[slotId]), hist[slotId],
                          Item.Spdu(spdu), r.Ok?)
                && Blameless(old(hist[slotId]), hist[slotId], r)
                && (r.Err? ==> IsLinkError(r.error))
    {
      if slotId >= |slots| {
        return Err(InvalidProperty);
      }
      var offset;
      ghost var done;
      hide OnlySlot, OnRecord, Tried, Pieced, Handed, Kept, Blameless, Faulted, ChunkFrames, Chunks, Sound;
      r, offset, done := SendPieces(slotId, spdu);
      ghost var slots', hist', before, sofar := slots, hist, At(slotId), r;
      if r.Err? {
        NotHanded(old(At(slotId)), before, r, Item.Spdu(spdu));
      } else {
        r := SendLast(slotId, spdu, offset, done);
        OnlySlotTrans(old(slots), slots', slots, old(hist), hist', hist, slotId);
        PiecedHanded(old(At(slotId)), before, At(slotId), sofar, r, Item.Spdu(spdu));
      }
      KeptParts(old(At(slotId)), At(slotId), r);
    }

    /** Sends one APDU behind a session_number header. */
    method SendApdu(slotId: byte, sessionId: u16, tag: Apdu.ApduTag, body: seq<byte>) returns (r: Result<()>)
      requires Valid()
      modifies this`slots, this`hist, link`writes
      ensures Valid()
      ensures OnlySlot(old(slots), slots, old(hist), hist, slotId)
      ensures slotId >= |slots| || |body| >= 0x1_0000 ==>
                r == Err(InvalidProperty) && slots == old(slots) && hist == old(hist)
      ensures Faulted(old(link.writes), link.writes, r)
      ensures slotId < |slots| && r.Ok? ==> Tried(slots[slotId], old(link.writes), link.writes)
      ensures slotId < |slots| && |body| < 0x1_0000 ==>
                && Handed(old(slots[slotId]), slots[slotId], old(hist[slotId]), hist[slotId],
                          Cam.ApduItem(sessionId, tag, body), r.Ok?)
                && Blameless(old(hist[slotId]), hist[slotId], r)
                && (r.Err? ==> IsLinkError(r.error))
    {
      if |body| >= 0x1_0000 {
        return Err(InvalidProperty);
      }
      var blob := SpduCoding.BuildSessionNumber(sessionId) + Apdu.Build(tag, body);
      hide AllSound, Handed, OnRecord, Faulted, Tried;
      r := SendSpdu(slotId, blob);
    }

    /** Pulls one frame from the link and advances the slot it belongs to. */
    method RecvApdu() returns (r: Result<Option<TransportRecv>>, ghost frame: seq<byte>)
      requires Valid()
      modifies this`slots, this`hist, link`received, link`dries
      ensures Valid()
      ensures link.dries == old(link.dries) + if r == Ok(None) then 1 else 0
      ensures link.received == old(link.received) + if frame == [] then [] else [frame]
      ensures r == Ok(None) ==> frame == []
      ensures r.Err? ==> r.error == Io || r.error == InvalidData
      ensures frame != [] ==>
                if FrameSlotId(frame, |slots|) == None then r == Err(InvalidData) else r.Ok? && r.value.Some?
      ensures r.Err? || r.value == None ==> slots == old(slots) && hist == old(hist)
      ensures r.Ok? && r.value.Some? ==>
                var slotId := r.value.value.slotId;
                && OnlySlot(old(slots), slots, old(hist), hist, slotId)
                && FrameSlotId(frame, |slots|) == Some(slotId)
                && (slots[slotId], r.value.value) == Receive(old(slots[slotId]), frame, |slots|)
                && frame != []
                && hist[slotId] == old(hist[slotId]).(trace := old(hist[slotId]).trace + [Got])
    {
      frame := [];
      var read := link.RecvMsg();
      if read.Err? {
        return Err(read.error), [];
      }
      if read.value == None {
        return Ok(None), [];
      }
      frame := read.value.value;
      var slotsNum: byte := |slots|;
      var frameSlot := FrameSlotId(read.value.value, slotsNum);
      if frameSlot == None {
        // neither the physical slot byte nor, therefore, the parser accepts it
        return Err(InvalidData), frame;
      }
      var slotId := frameSlot.value;
      var (slot, recv) := Receive(slots[slotId], read.value.value, slotsNum);
      ghost var h := hist[slotId];
      ghost var h' := h.(trace := h.trace + [Got]);
      assert Sound(slotId, slots[slotId], h, []);
      hide Sound, Receive, OnRecord, AllSound, Written;
      ReceiveSound(slotId, slots[slotId], h, frame, slotsNum);
      WrittenAppend(h.trace, Got);
      OnRecordKept(hist, cleared, link.writes, slotId, h');
      AllSoundUpdate(slots, hist, -1, [], slotId, slot, h', []);
      slots := slots[slotId := slot];
      hist := hist[slotId := h'];
      NothingOwed(slots, hist, slotId, -1);
      r := Ok(Some(recv));
      ReceiveSlot(old(slots[slotId]), frame, slotsNum);
    }

    function IsBusy(slotId: byte): bool
      reads this
    {
      slotId < |slots| && slots[slotId].busy
    }

    function QueueLen(slotId: byte): nat
      reads this
    {
      if slotId < |slots| then |slots[slotId].queue| else 0
    }

    /** Takes and clears the DATA_INDICATOR flag of the slot. */
    method TakeDataPending(slotId: byte) returns (pending: bool)
      requires Valid()
      modifies this`slots
      ensures Valid()
      ensures OnlySlot(old(slots), slots, hist, hist, slotId)
      ensures slotId >= |slots| ==> !pending
      ensures slotId < |slots| ==>
                && pending == old(slots[slotId]).dataPending
                && slots[slotId] == old(slots[slotId]).(dataPending := false)
    {
      if slotId >= |slots| {
        return false;
      }
      pending := slots[slotId].dataPending;
      slots := slots[slotId := slots[slotId].(dataPending := false)];
    }

    /** Forgets everything about the slot; a new epoch of its log begins. */
    method ClearSlot(slotId: byte)
      requires Valid()
      modifies this`slots, this`hist, this`cleared
      ensures Valid()
      ensures OnlySlot(old(slots), slots, old(hist), hist, slotId)
      ensures slotId < |slots| ==> slots[slotId] == IDLE && hist[slotId] == NOTHING
    {
      if slotId < |slots| {
        OnRecordCleared(hist, cleared, link.writes, slotId);
        slots := slots[slotId := IDLE];
        hist := hist[slotId := NOTHING];
        cleared := cleared[slotId := |link.writes|];
      }
    }
  }
}
