/** Resource Manager resource (EN 50221, section 8.4.1). */
module ResourceManager {
  import opened Basics
  import opened Cam
  import opened Resources
  import opened Sending
  import opened Transport
  import Apdu

  const HOST_PROFILE: seq<Kind> :=
    [Kind.ResourceManager, ApplicationInformation, ConditionalAccess, HostControl, DateTime, Mmi]

  function Profile(kinds: seq<Kind>): (body: seq<byte>)
    ensures |body| == 4 * |kinds|
  {
    if kinds == [] then [] else BigEndian32(Id(kinds[0])) + Profile(kinds[1..])
  }

  /** The profile of the host lists its six resources, each of version 1, by the
      identifiers of section 8.8.2. */
  lemma ProfileBytes()
    ensures Profile(HOST_PROFILE)
         == [0x00, 0x01, 0x00, 0x41] + [0x00, 0x02, 0x00, 0x41] + [0x00, 0x03, 0x00, 0x41]
            + [0x00, 0x20, 0x00, 0x41] + [0x00, 0x24, 0x00, 0x41] + [0x00, 0x40, 0x00, 0x41]
  {
  }

  /** What the host answers to one object of the module. */
  function Answer(tag: Apdu.ApduTag): Option<(Apdu.ApduTag, seq<byte>)> {
    if tag == Apdu.PROFILE then Some((Apdu.PROFILE_CHANGE, []))
    else if tag == Apdu.PROFILE_ENQ then Some((Apdu.PROFILE, Profile(HOST_PROFILE)))
    else if tag == Apdu.PROFILE_CHANGE then Some((Apdu.PROFILE_ENQ, []))
    else None
  }

  method OnOpen(transport: CiTransport, slotId: byte, sessionId: u16) returns (r: Result<()>)
    requires transport.Valid() && slotId < |transport.slots| == |transport.hist|
    modifies transport`slots, transport`hist, transport.link`writes
    ensures transport.Valid()
    ensures OnlySlot(old(transport.slots), transport.slots, old(transport.hist), transport.hist, slotId)
    ensures |transport.hist| == |transport.slots| == old(|transport.slots|)
    ensures Quiet(old(transport.hist)[slotId], transport.hist[slotId])
    ensures Kept(old(transport.At(slotId)), transport.At(slotId), r)
    ensures r.Err? ==> IsLinkError(r.error) && !transport.hist[slotId].intact
    ensures r.Ok? ==>
              transport.hist[slotId].sent == old(transport.hist)[slotId].sent + [ApduItem(sessionId, 0x9F_8010, [])]
  {
    hide Quiet, OnlySlot, AllSound, OnRecord;
    r := SendQuiet(transport, slotId, sessionId, Apdu.PROFILE_ENQ, []);
  }

  method OnApdu(transport: CiTransport, slotId: byte, sessionId: u16, tag: Apdu.ApduTag) returns (r: Result<()>)
    requires transport.Valid() && slotId < |transport.slots| == |transport.hist|
    modifies transport`slots, transport`hist, transport.link`writes
    ensures transport.Valid()
    ensures OnlySlot(old(transport.slots), transport.slots, old(transport.hist), transport.hist, slotId)
    ensures |transport.hist| == |transport.slots| == old(|transport.slots|)
    ensures Quiet(old(transport.hist)[slotId], transport.hist[slotId])
    ensures Kept(old(transport.At(slotId)), transport.At(slotId), r)
    ensures tag !in {0x9F_8010, 0x9F_8011, 0x9F_8012} <==> r == Err(InvalidData)
    ensures r == Err(InvalidData) ==> transport.hist == old(transport.hist)
    ensures r.Err? && r.error != InvalidData ==> IsLinkError(r.error) && !transport.hist[slotId].intact
    ensures r.Ok? ==>
              transport.hist[slotId].sent
              == old(transport.hist)[slotId].sent
                 + [if tag == 0x9F_8010 then ApduItem(sessionId, 0x9F_8011, Profile(HOST_PROFILE))
                    else if tag == 0x9F_8011 then ApduItem(sessionId, 0x9F_8012, [])
                    else ApduItem(sessionId, 0x9F_8010, [])]
  {
    var answer := Answer(tag);
    OnlySlotRefl(transport.slots, transport.hist, slotId);
    QuietRefl(transport.hist[slotId]);
    hide Quiet, OnlySlot, AllSound, OnRecord, Profile;
    if answer == None {
      return Err(InvalidData);
    }
    r := SendQuiet(transport, slotId, sessionId, answer.value.0, answer.value.1);
  }
}
