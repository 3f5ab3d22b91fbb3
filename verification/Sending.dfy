/** Sends that cannot change what a module believes about its program lists. */
module Sending {
  import opened Basics
  import opened Cam
  import opened Registry
  import opened Transport
  import Apdu

  /** The module's beliefs are as they were, as long as the log is intact. */
  predicate Quiet(h: History, h': History) {
    && StillIssued(h, h') && h'.swallowed == h.swallowed
    && (h'.intact ==> Believes(h'.sent) == Believes(h.sent))
  }

  lemma QuietTrans(a: History, b: History, c: History)
    requires Quiet(a, b) && Quiet(b, c)
    ensures Quiet(a, c)
  {
    GrownTrans(a, b, c);
  }

  lemma QuietGrown(h: History, h': History)
    requires Quiet(h, h')
    ensures Grown(h, h') && h'.swallowed == h.swallowed
  {
  }

  lemma QuietRefl(h: History)
    ensures Quiet(h, h)
  {
  }

  lemma QuietKept(h: History, h': History, id: u16)
    requires Quiet(h, h')
    ensures ViewsKept(h, h', id)
  {
  }

  /** Sends one APDU that is not a CA_PMT. */
  method SendQuiet(transport: CiTransport, slotId: byte, sessionId: u16, tag: Apdu.ApduTag, body: seq<byte>)
    returns (r: Result<()>)
    requires transport.Valid() && slotId < |transport.slots| == |transport.hist|
    requires tag != Apdu.CA_PMT
    modifies transport`slots, transport`hist, transport.link`writes
    ensures transport.Valid()
    ensures OnlySlot(old(transport.slots), transport.slots, old(transport.hist), transport.hist, slotId)
    ensures |transport.hist| == |transport.slots| == old(|transport.slots|)
    ensures Quiet(old(transport.hist)[slotId], transport.hist[slotId])
    ensures |body| >= 0x1_0000 ==> r == Err(InvalidProperty) && transport.slots == old(transport.slots)
    ensures |body| < 0x1_0000 && r.Err? ==> IsLinkError(r.error) && !transport.hist[slotId].intact
    ensures Kept(old(transport.At(slotId)), transport.At(slotId), r)
    ensures r.Ok? ==> transport.slots[slotId].busy || transport.slots[slotId].queue != []
    ensures r.Ok? ==>
              && |body| < 0x1_0000
              && transport.hist[slotId].sent
                 == old(transport.hist)[slotId].sent + [ApduItem(sessionId, tag, body)]
  {
    ghost var t, h := transport.slots[slotId], transport.hist[slotId];
    r := transport.SendApdu(slotId, sessionId, tag, body);
    if |body| < 0x1_0000 {
      ApduBelieved(t, transport.slots[slotId], h, transport.hist[slotId], sessionId, tag, body, r.Ok?);
    }
    hide Believes, AllSound, OnRecord, ApduItem;
  }
}
