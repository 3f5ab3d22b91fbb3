/** Application Information resource (EN 50221, section 8.4.2): which application
    identified itself last on a slot. */
module ApplicationInformation {
  import opened Basics
  import opened Cam
  import opened Events
  import opened Sending
  import opened Transport
  import Apdu

  const U64_MAX: nat := 0xFFFF_FFFF_FFFF_FFFF

  datatype AppSession = AppSession(slotId: byte, info: Option<ApplicationInfo>, revision: nat)

  function ParseApplicationInfo(body: seq<byte>): Result<ApplicationInfo> {
    if |body| < 6 || 6 + body[5] as int > |body| then Err(InvalidData)
    else Ok(ApplicationInfo(body[0], ReadU16(body[1..3]), ReadU16(body[3..5]), body[6..6 + body[5] as int]))
  }

  function Encode(info: ApplicationInfo): seq<byte>
    requires |info.menuString| < 0x100
  {
    [info.applicationType] + BigEndian(info.manufacturer) + BigEndian(info.code)
    + [|info.menuString| as byte] + info.menuString
  }

  /** The object is read back whatever trails it. */
  lemma ParseRoundTrip(info: ApplicationInfo, rest: seq<byte>)
    requires |info.menuString| < 0x100
    ensures ParseApplicationInfo(Encode(info) + rest) == Ok(info)
  {
    var body := Encode(info) + rest;
    var size: byte := |info.menuString|;
    InfoSlices(info.applicationType, BigEndian(info.manufacturer), BigEndian(info.code), size, info.menuString, rest);
    ReadU16Inverse(info.manufacturer, BigEndian(info.manufacturer));
    ReadU16Inverse(info.code, BigEndian(info.code));
    hide BigEndian, ReadU16;
  }

  /** The parser accepts exactly the bodies that start with a coded object, and refuses
      all others. */
  lemma ParseExact(body: seq<byte>, info: ApplicationInfo)
    ensures ParseApplicationInfo(body) == Ok(info) <==> |info.menuString| < 0x100 && Encode(info) <= body
    ensures ParseApplicationInfo(body).Err? ==> ParseApplicationInfo(body) == Err(InvalidData)
  {
    if |info.menuString| < 0x100 && Encode(info) <= body {
      var rest := body[|Encode(info)|..];
      assert body == Encode(info) + rest;
      ParseRoundTrip(info, rest);
    }
    if ParseApplicationInfo(body) == Ok(info) {
      ReadU16Inverse(info.manufacturer, body[1..3]);
      ReadU16Inverse(info.code, body[3..5]);
      var size := body[5];
      hide BigEndian, ReadU16;
      assert body[..6 + size as int] == [body[0]] + body[1..3] + body[3..5] + [size] + body[6..6 + size as int];
    }
  }

  lemma InfoSlices(kind: byte, a: seq<byte>, b: seq<byte>, size: byte, text: seq<byte>, rest: seq<byte>)
    requires |a| == |b| == 2 && |text| == size
    ensures var body := [kind] + a + b + [size] + text + rest;
            && |body| >= 6 + size as int && body[0] == kind && body[1..3] == a && body[3..5] == b && body[5] == size
            && body[6..6 + size as int] == text
  {
    var body := [kind] + a + b + [size] + text + rest;
    assert body[6..6 + size as int] == text;
  }

  predicate Informed(sessions: map<u16, AppSession>, slotId: byte, id: u16) {
    id in sessions && sessions[id].slotId == slotId && sessions[id].info.Some?
  }

  ghost predicate HasInfo(sessions: map<u16, AppSession>, slotId: byte) {
    exists id: u16 :: Informed(sessions, slotId, id)
  }

  /** (revision, session number) in lexicographic order. */
  predicate NotLater(a: AppSession, aId: u16, b: AppSession, bId: u16) {
    a.revision < b.revision || (a.revision == b.revision && aId <= bId)
  }

  ghost predicate IsLatest(sessions: map<u16, AppSession>, slotId: byte, id: u16) {
    && Informed(sessions, slotId, id)
    && forall other: u16 | Informed(sessions, slotId, other) ::
         NotLater(sessions[other], other, sessions[id], id)
  }

  predicate RevisionsOk(sessions: map<u16, AppSession>, revision: nat) {
    && revision <= U64_MAX
    && forall id | id in sessions :: sessions[id].revision <= revision
  }

  /** Storing the information of one session under the next revision. */
  function Store(sessions: map<u16, AppSession>, revision: nat, id: u16, info: ApplicationInfo): map<u16, AppSession>
    requires id in sessions
  {
    sessions[id := AppSession(sessions[id].slotId, Some(info), NextRevision(revision))]
  }

  /** `saturating_add(1)` on 64 bits. */
  function NextRevision(revision: nat): nat {
    if revision < U64_MAX then revision + 1 else U64_MAX
  }

  /** The application that just identified itself is the slot's application,
      unless the revision counter is exhausted and a session with a higher
      number also carries the last revision: exactly then. */
  lemma LastOneWins(sessions: map<u16, AppSession>, revision: nat, id: u16, info: ApplicationInfo)
    requires RevisionsOk(sessions, revision) && id in sessions
    ensures RevisionsOk(Store(sessions, revision, id, info), NextRevision(revision))
    ensures IsLatest(Store(sessions, revision, id, info), sessions[id].slotId, id)
       <==> revision < U64_MAX
            || !exists other: u16 :: other > id && Informed(sessions, sessions[id].slotId, other)
                                     && sessions[other].revision == U64_MAX
  {
    var slotId := sessions[id].slotId;
    var after := Store(sessions, revision, id, info);
    forall other: u16 | other != id
      ensures Informed(after, slotId, other) <==> Informed(sessions, slotId, other)
    {
    }
    if revision == U64_MAX && exists other: u16 :: other > id && Informed(sessions, slotId, other)
                                                   && sessions[other].revision == U64_MAX {
      var other: u16 :| other > id && Informed(sessions, slotId, other) && sessions[other].revision == U64_MAX;
      assert Informed(after, slotId, other);
      assert !NotLater(after[other], other, after[id], id);
    }
  }

  /** With the revision exhausted, an application on a lower session number that
      identifies itself last is not the slot's application. */
  lemma LastOneLoses(info: ApplicationInfo)
    ensures var sessions := map[1 := AppSession(0, None, 0), 2 := AppSession(0, Some(info), U64_MAX)];
            && RevisionsOk(sessions, U64_MAX)
            && !IsLatest(Store(sessions, U64_MAX, 1, info), 0, 1)
  {
    var sessions: map<u16, AppSession> := map[1 := AppSession(0, None, 0), 2 := AppSession(0, Some(info), U64_MAX)];
    LastOneWins(sessions, U64_MAX, 1, info);
    assert Informed(sessions, 0, 2) && sessions[2].revision == U64_MAX;
  }

  class ApplicationInfoResource {
    var sessions: map<u16, AppSession>
    var revision: nat

    ghost predicate Valid()
      reads this
    {
      RevisionsOk(sessions, revision)
    }

    constructor ()
      ensures Valid() && sessions == map[]
    {
      sessions, revision := map[], 0;
    }

    /** The session that supplied the latest application information of the slot. */
    method InfoSession(slotId: byte) returns (best: Option<u16>)
      ensures best == None <==> !HasInfo(sessions, slotId)
      ensures best.Some? ==> IsLatest(sessions, slotId, best.value)
    {
      best := None;
      var left := sessions.Keys;
      while left != {}
        invariant left <= sessions.Keys
        invariant best == None ==> forall id: u16 | Informed(sessions, slotId, id) :: id in left
        invariant best.Some? ==>
                    && Informed(sessions, slotId, best.value)
                    && forall id: u16 | Informed(sessions, slotId, id) && id !in left ::
                         NotLater(sessions[id], id, sessions[best.value], best.value)
        decreases left
      {
        var id :| id in left;
        left := left - {id};
        if Informed(sessions, slotId, id) {
          if best == None || NotLater(sessions[best.value], best.value, sessions[id], id) {
            best := Some(id);
          }
        }
      }
    }

    method OnOpen(transport: CiTransport, slotId: byte, sessionId: u16) returns (r: Result<()>)
      requires Valid() && transport.Valid() && slotId < |transport.slots| == |transport.hist|
      modifies this, transport`slots, transport`hist, transport.link`writes
      ensures Valid() && transport.Valid()
      ensures sessions == old(sessions)[sessionId := AppSession(slotId, None, 0)]
      ensures OnlySlot(old(transport.slots), transport.slots, old(transport.hist), transport.hist, slotId)
      ensures |transport.hist| == |transport.slots| == old(|transport.slots|)
      ensures Quiet(old(transport.hist)[slotId], transport.hist[slotId])
      ensures Kept(old(transport.At(slotId)), transport.At(slotId), r)
      ensures r.Err? ==> IsLinkError(r.error) && !transport.hist[slotId].intact
      ensures r.Ok? ==>
                transport.hist[slotId].sent == old(transport.hist)[slotId].sent + [ApduItem(sessionId, 0x9F_8020, [])]
    {
      sessions := sessions[sessionId := AppSession(slotId, None, 0)];
      r := SendQuiet(transport, slotId, sessionId, Apdu.APPLICATION_INFO_ENQ, []);
    }

    method OnApdu(slotId: byte, sessionId: u16, tag: Apdu.ApduTag, body: seq<byte>)
      returns (r: Result<()>, events: seq<CaEvent>)
      requires Valid()
      modifies this
      ensures Valid()
      ensures r.Err? ==> r.error == InvalidData && sessions == old(sessions) && events == []
      ensures r.Ok? <==> tag == Apdu.APPLICATION_INFO && ParseApplicationInfo(body).Ok? && sessionId in old(sessions)
      ensures r.Ok? ==>
                var info := ParseApplicationInfo(body).value;
                && sessions == Store(old(sessions), old(revision), sessionId, info)
                && revision == NextRevision(old(revision))
                && events == [AppInfoReceived(slotId, info)]
    {
      if tag != Apdu.APPLICATION_INFO || sessionId !in sessions {
        return Err(InvalidData), [];
      }
      var parsed := ParseApplicationInfo(body);
      if parsed.Err? {
        return Err(InvalidData), [];
      }
      revision := NextRevision(revision);
      sessions := sessions[sessionId := AppSession(sessions[sessionId].slotId, Some(parsed.value), revision)];
      return Ok(()), [AppInfoReceived(slotId, parsed.value)];
    }

    method OnClose(sessionId: u16)
      requires Valid()
      modifies this`sessions
      ensures Valid()
      ensures sessions == old(sessions) - {sessionId}
    {
      sessions := sessions - {sessionId};
    }
  }
}
