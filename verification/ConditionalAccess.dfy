/** Conditional Access Support resource (EN 50221, section 8.4.3): keeps the
    desired programs and sends each session the difference. */
module ConditionalAccess {
  import opened Basics
  import opened CaPmt
  import opened Cam
  import opened Events
  import opened Registry
  import opened Sending
  import opened Sorting
  import opened Transport
  import Apdu

  /** CA_system_ids of a CA_INFO body. */
  function ParseCaInfo(body: seq<byte>): Result<seq<u16>> {
    if |body| % 2 != 0 then Err(InvalidData)
    else Ok(seq(|body| / 2, i requires 0 <= i < |body| / 2 => ReadU16(body[2 * i..2 * i + 2])))
  }

  /** The bytes a module sends for a CAID list. */
  function CaInfoBytes(caids: seq<u16>): seq<byte> {
    if caids == [] then [] else BigEndian(caids[0]) + CaInfoBytes(caids[1..])
  }

  lemma {:induction false} CaInfoAt(caids: seq<u16>, i: nat)
    requires i < |caids|
    ensures |CaInfoBytes(caids)| == 2 * |caids|
    ensures CaInfoBytes(caids)[2 * i..2 * i + 2] == BigEndian(caids[i])
  {
    var rest := CaInfoBytes(caids[1..]);
    if |caids| > 1 {
      CaInfoAt(caids[1..], if i == 0 then 0 else i - 1);
    }
    if i > 0 {
      assert CaInfoBytes(caids)[2 * i..2 * i + 2] == rest[2 * (i - 1)..2 * (i - 1) + 2];
    }
  }

  /** Any CAID list, empty or not, is read back in order. */
  lemma CaInfoRoundTrip(caids: seq<u16>)
    ensures ParseCaInfo(CaInfoBytes(caids)) == Ok(caids)
  {
    var body := CaInfoBytes(caids);
    if caids != [] {
      CaInfoAt(caids, 0);
    }
    hide CaInfoBytes;
    forall i | 0 <= i < |caids| ensures ReadU16(CaInfoBytes(caids)[2 * i..2 * i + 2]) == caids[i] {
      CaInfoAt(caids, i);
      ReadU16Inverse(caids[i], BigEndian(caids[i]));
    }
    assert ParseCaInfo(body).value == caids;
  }

  /** The parser accepts exactly the coded CAID lists: bodies of odd length are refused,
      every other one is the coding of exactly one list. */
  lemma CaInfoExact(body: seq<byte>, caids: seq<u16>)
    ensures ParseCaInfo(body) == Ok(caids) <==> body == CaInfoBytes(caids)
    ensures ParseCaInfo(body) == Err(InvalidData) <==> |body| % 2 == 1
  {
    CaInfoRoundTrip(caids);
    if ParseCaInfo(body) == Ok(caids) {
      var coded := CaInfoBytes(caids);
      if caids != [] {
        CaInfoAt(caids, 0);
      }
      hide CaInfoBytes;
      forall i | 0 <= i < |caids| ensures coded[2 * i..2 * i + 2] == body[2 * i..2 * i + 2] {
        CaInfoAt(caids, i);
        ReadU16Inverse(caids[i], body[2 * i..2 * i + 2]);
      }
      forall k | 0 <= k < |body| ensures coded[k] == body[k] {
        var i := k / 2;
        assert coded[2 * i..2 * i + 2][k % 2] == coded[k] && body[2 * i..2 * i + 2][k % 2] == body[k];
      }
      assert body == coded;
    }
  }

  /** Between two updates: the first `i` sessions follow the new programs, the
      others are untouched and follow the old ones. */
  ghost predicate HalfSynced(sessions: map<u16, CaSession>, was: map<u16, CaSession>, ids: seq<u16>, i: nat,
                             before: map<u16, Program>, after: map<u16, Program>, hist: seq<History>)
    requires i <= |ids| && sessions.Keys == was.Keys == Elements(ids)
  {
    && (forall k | 0 <= k < |ids| ::
          && ids[k] in sessions && ids[k] in was
          && sessions[ids[k]].slotId == was[ids[k]].slotId < |hist|
          && sessions[ids[k]].caids == was[ids[k]].caids)
    && (forall k | 0 <= k < i :: Synced(sessions[ids[k]], ids[k], after, hist[sessions[ids[k]].slotId]))
    && (forall k | i <= k < |ids| ::
          && sessions[ids[k]] == was[ids[k]]
          && Synced(sessions[ids[k]], ids[k], before, hist[sessions[ids[k]].slotId]))
  }

  lemma SyncedFrame(s: CaSession, other: u16, id: u16, slotId: byte, programs: map<u16, Program>,
                    hist: seq<History>, hist': seq<History>)
    requires s.slotId < |hist| == |hist'| && slotId < |hist|
    requires forall o | 0 <= o < |hist| && o != slotId :: hist'[o] == hist[o]
    requires ViewsKept(hist[slotId], hist'[slotId], id) && other != id
    requires Synced(s, other, programs, hist[s.slotId])
    ensures Synced(s, other, programs, hist'[s.slotId])
  {
    if s.slotId == slotId {
      SyncedKept(s, other, id, programs, hist[slotId], hist'[slotId]);
    }
  }

  lemma HalfSyncedStep(sessions: map<u16, CaSession>, sessions': map<u16, CaSession>, was: map<u16, CaSession>,
                       ids: seq<u16>, i: nat, before: map<u16, Program>, after: map<u16, Program>,
                       hist: seq<History>, hist': seq<History>)
    requires i < |ids| && Ascending(ids) && sessions.Keys == was.Keys == Elements(ids)
    requires HalfSynced(sessions, was, ids, i, before, after, hist)
    requires ids[i] in sessions' && sessions' == sessions[ids[i] := sessions'[ids[i]]]
    requires sessions'[ids[i]].slotId == sessions[ids[i]].slotId && sessions'[ids[i]].caids == sessions[ids[i]].caids
    requires |hist'| == |hist|
    requires forall o | 0 <= o < |hist| && o != sessions[ids[i]].slotId :: hist'[o] == hist[o]
    requires ViewsKept(hist[sessions[ids[i]].slotId], hist'[sessions[ids[i]].slotId], ids[i])
    requires Synced(sessions'[ids[i]], ids[i], after, hist'[sessions[ids[i]].slotId])
    ensures sessions'.Keys == was.Keys
    ensures HalfSynced(sessions', was, ids, i + 1, before, after, hist')
  {
    var id := ids[i];
    var slotId := sessions[id].slotId;
    assert sessions'.Keys == was.Keys;
    hide Synced, ViewsKept;
    forall k | 0 <= k < |ids| && k != i
      ensures ids[k] != id && sessions'[ids[k]] == sessions[ids[k]]
      ensures sessions[ids[k]].slotId < |hist|
    {
      assert ids[k] in sessions;
    }
    StepKept(sessions, ids, 0, i, id, slotId, after, hist, hist');
    StepKept(sessions, ids, i + 1, |ids|, id, slotId, before, hist, hist');
  }

  /** Sessions other than `id` cannot tell the two logs apart. */
  lemma StepKept(sessions: map<u16, CaSession>, ids: seq<u16>, from: nat, to: nat, id: u16, slotId: byte,
                 programs: map<u16, Program>, hist: seq<History>, hist': seq<History>)
    requires to <= |ids| && |hist'| == |hist| && slotId < |hist|
    requires forall k | from <= k < to :: ids[k] != id && ids[k] in sessions && sessions[ids[k]].slotId < |hist|
    requires forall k | from <= k < to :: Synced(sessions[ids[k]], ids[k], programs, hist[sessions[ids[k]].slotId])
    requires forall o | 0 <= o < |hist| && o != slotId :: hist'[o] == hist[o]
    requires ViewsKept(hist[slotId], hist'[slotId], id)
    ensures forall k | from <= k < to :: Synced(sessions[ids[k]], ids[k], programs, hist'[sessions[ids[k]].slotId])
  {
    hide Synced, ViewsKept;
    forall k | from <= k < to
      ensures Synced(sessions[ids[k]], ids[k], programs, hist'[sessions[ids[k]].slotId])
    {
      SyncedFrame(sessions[ids[k]], ids[k], id, slotId, programs, hist, hist');
    }
  }

  lemma HalfSyncedStart(sessions: map<u16, CaSession>, ids: seq<u16>,
                        before: map<u16, Program>, after: map<u16, Program>, hist: seq<History>)
    requires sessions.Keys == Elements(ids) && InSync(sessions, before, hist)
    ensures HalfSynced(sessions, sessions, ids, 0, before, after, hist)
  {
    hide Synced;
    forall k | 0 <= k < |ids| ensures ids[k] in sessions {
      assert ids[k] in Elements(ids);
    }
  }

  lemma HalfSyncedEnd(sessions: map<u16, CaSession>, was: map<u16, CaSession>, ids: seq<u16>,
                      before: map<u16, Program>, after: map<u16, Program>, hist: seq<History>)
    requires sessions.Keys == was.Keys == Elements(ids)
    requires HalfSynced(sessions, was, ids, |ids|, before, after, hist)
    ensures InSync(sessions, after, hist)
    ensures SameSessions(was, sessions)
  {
    hide Synced;
    forall id | id in sessions
      ensures sessions[id].slotId < |hist| && Synced(sessions[id], id, after, hist[sessions[id].slotId])
      ensures sessions[id].slotId == was[id].slotId && sessions[id].caids == was[id].caids
    {
      assert id in Elements(ids);
      var k :| 0 <= k < |ids| && ids[k] == id;
    }
  }

  /** Same sessions on the same slots with the same CAIDs. */
  predicate SameSessions(was: map<u16, CaSession>, now: map<u16, CaSession>) {
    && now.Keys == was.Keys
    && forall id | id in was :: now[id].slotId == was[id].slotId && now[id].caids == was[id].caids
  }

  /** Slots outside `touched` are exactly as they were. */
  ghost predicate OnlyTouched(slots: seq<TransportSlot>, slots': seq<TransportSlot>,
                              hist: seq<History>, hist': seq<History>, touched: set<int>)
  {
    && |slots'| == |slots| == |hist| == |hist'|
    && forall s | 0 <= s < |slots| && s !in touched :: slots'[s] == slots[s] && hist'[s] == hist[s]
  }

  lemma TouchMore(a: seq<TransportSlot>, b: seq<TransportSlot>, c: seq<TransportSlot>,
                  ha: seq<History>, hb: seq<History>, hc: seq<History>, touched: set<int>, slotId: int)
    requires OnlyTouched(a, b, ha, hb, touched) && OnlySlot(b, c, hb, hc, slotId)
    ensures OnlyTouched(a, c, ha, hc, touched + {slotId})
  {
  }

  /** Every listed slot hosts a session. */
  predicate Hosted(touched: seq<u16>, sessions: map<u16, CaSession>) {
    forall s | s in touched :: exists id | id in sessions :: sessions[id].slotId == s
  }

  lemma SameTouched(slots: seq<TransportSlot>, slots': seq<TransportSlot>, hist: seq<History>, hist': seq<History>,
                    a: seq<u16>, b: seq<u16>, sessions: map<u16, CaSession>)
    requires Elements(a) == Elements(b)
    requires OnlyTouched(slots, slots', hist, hist', Elements(a)) && Hosted(a, sessions)
    ensures OnlyTouched(slots, slots', hist, hist', Elements(b)) && Hosted(b, sessions)
  {
    forall s | s in b ensures s in a {
      assert s in Elements(b);
    }
  }

  lemma NoElements(numbers: seq<u16>)
    ensures Elements(numbers[..0]) == {}
  {
  }

  lemma NextNumber(numbers: seq<u16>, i: nat, programs: map<u16, Program>)
    requires i < |numbers| && Ascending(numbers) && Elements(numbers) == programs.Keys && Keyed(programs)
    ensures numbers[i] in programs && programs[numbers[i]].number == numbers[i]
    ensures numbers[i] !in Elements(numbers[..i])
    ensures Elements(numbers[..i + 1]) == Elements(numbers[..i]) + {numbers[i]}
  {
    assert numbers[i] in Elements(numbers);
    assert numbers[..i + 1] == numbers[..i] + [numbers[i]];
  }

  /** What is still to be withdrawn after the first `i` programs. */
  ghost function Left(previous: map<u16, Program>, numbers: seq<u16>, i: nat): map<u16, Program>
    requires i <= |numbers|
  {
    previous - Elements(numbers[..i])
  }

  lemma LeftBounds(previous: map<u16, Program>, numbers: seq<u16>)
    requires Elements(numbers) == previous.Keys
    ensures Left(previous, numbers, 0) == previous
    ensures Left(previous, numbers, |numbers|) == map[]
  {
    assert numbers[..|numbers|] == numbers;
  }

  lemma LeftStep(slotId: byte, previous: map<u16, Program>, caids: seq<u16>, numbers: seq<u16>, i: nat)
    requires i < |numbers| && Ascending(numbers) && Elements(numbers) == previous.Keys
    requires Selectable(CaSession(slotId, Some(caids), previous))
    ensures numbers[i] in previous && previous[numbers[i]].number == numbers[i]
    ensures Matches(previous[numbers[i]], caids)
    ensures numbers[i] in Left(previous, numbers, i)
    ensures Left(previous, numbers, i + 1) == Left(previous, numbers, i) - {numbers[i]}
  {
    NextNumber(numbers, i, previous);
  }

  /** The state of a pass over the sessions that has handled the first `i` of them. */
  ghost predicate Progress(sessions: map<u16, CaSession>, was: map<u16, CaSession>, ids: seq<u16>, i: nat,
                           before: map<u16, Program>, after: map<u16, Program>,
                           slots0: seq<TransportSlot>, slots: seq<TransportSlot>,
                           hist0: seq<History>, hist: seq<History>, touched: seq<u16>)
  {
    && i <= |ids| && sessions.Keys == was.Keys == Elements(ids) && Ascending(ids)
    && |slots| == |hist| == |slots0|
    && HalfSynced(sessions, was, ids, i, before, after, hist)
    && OnlyTouched(slots0, slots, hist0, hist, Elements(touched))
    && Hosted(touched, sessions)
    && EachIssued(hist0, hist)
    && EachFine(hist0, hist)
  }

  /** On every slot, only well-formed items were handed over. */
  predicate EachIssued(hist: seq<History>, hist': seq<History>) {
    && |hist| == |hist'|
    && forall s | 0 <= s < |hist| :: StillIssued(hist[s], hist'[s]) && hist'[s].swallowed == hist[s].swallowed
  }

  lemma EachIssuedStep(slots: seq<TransportSlot>, slots': seq<TransportSlot>, hist0: seq<History>,
                       hist: seq<History>, hist': seq<History>, slotId: nat, id: u16)
    requires EachIssued(hist0, hist) && OnlySlot(slots, slots', hist, hist', slotId) && slotId < |hist|
    requires ViewsKept(hist[slotId], hist'[slotId], id)
    ensures EachIssued(hist0, hist')
  {
    hide AllIssued, Believes;
    forall s | 0 <= s < |hist0|
      ensures StillIssued(hist0[s], hist'[s]) && hist'[s].swallowed == hist0[s].swallowed
    {
      assert StillIssued(hist0[s], hist[s]);
    }
  }

  lemma ProgressStart(sessions: map<u16, CaSession>, ids: seq<u16>, before: map<u16, Program>,
                      after: map<u16, Program>, slots: seq<TransportSlot>, hist: seq<History>)
    requires |slots| == |hist| && sessions.Keys == Elements(ids) && Ascending(ids)
    requires InSync(sessions, before, hist)
    ensures Progress(sessions, sessions, ids, 0, before, after, slots, slots, hist, hist, [])
  {
    HalfSyncedStart(sessions, ids, before, after, hist);
  }

  lemma ProgressAt(sessions: map<u16, CaSession>, was: map<u16, CaSession>, ids: seq<u16>, i: nat,
                   before: map<u16, Program>, after: map<u16, Program>,
                   slots0: seq<TransportSlot>, slots: seq<TransportSlot>,
                   hist0: seq<History>, hist: seq<History>, touched: seq<u16>)
    requires i < |ids|
    requires Progress(sessions, was, ids, i, before, after, slots0, slots, hist0, hist, touched)
    ensures ids[i] in sessions && sessions[ids[i]].slotId < |slots| == |hist|
    ensures Synced(sessions[ids[i]], ids[i], before, hist[sessions[ids[i]].slotId])
  {
    hide Synced, OnlyTouched, Hosted;
  }

  lemma ProgressStep(sessions: map<u16, CaSession>, sessions': map<u16, CaSession>, was: map<u16, CaSession>,
                     ids: seq<u16>, i: nat, before: map<u16, Program>, after: map<u16, Program>,
                     slots0: seq<TransportSlot>, slots: seq<TransportSlot>, slots': seq<TransportSlot>,
                     hist0: seq<History>, hist: seq<History>, hist': seq<History>,
                     touched: seq<u16>, changed: Result<bool>)
    requires i < |ids|
    requires Progress(sessions, was, ids, i, before, after, slots0, slots, hist0, hist, touched)
    requires ids[i] in sessions && ids[i] in sessions' && sessions[ids[i]].slotId < |slots|
    requires sessions' == sessions[ids[i] := sessions'[ids[i]]]
    requires sessions'[ids[i]].slotId == sessions[ids[i]].slotId && sessions'[ids[i]].caids == sessions[ids[i]].caids
    requires OnlySlot(slots, slots', hist, hist', sessions[ids[i]].slotId) && |hist'| == |slots'| == |slots|
    requires ViewsKept(hist[sessions[ids[i]].slotId], hist'[sessions[ids[i]].slotId], ids[i])
    requires changed.Ok? ==> Synced(sessions'[ids[i]], ids[i], after, hist'[sessions[ids[i]].slotId])
    requires changed == Ok(false) ==> slots' == slots && hist' == hist
    requires Blameless(hist[sessions[ids[i]].slotId], hist'[sessions[ids[i]].slotId], changed)
    ensures SameSessions(was, sessions') && |hist'| == |slots'| == |slots0| && EachIssued(hist0, hist')
    ensures changed.Ok? ==>
              Progress(sessions', was, ids, i + 1, before, after, slots0, slots', hist0, hist',
                       if changed.value then touched + [sessions[ids[i]].slotId] else touched)
  {
    hide Synced, ViewsKept, EachIssued, EachFine;
    if changed.Ok? {
      EachFineStep(slots, slots', hist0, hist, hist', sessions[ids[i]].slotId);
    }
    EachIssuedStep(slots, slots', hist0, hist, hist', sessions[ids[i]].slotId, ids[i]);
    SameKeys(sessions, sessions', was, ids, i, before, after, hist);
    if changed.Ok? {
      HalfSyncedStep(sessions, sessions', was, ids, i, before, after, hist, hist');
      hide HalfSynced;
      HostedStep(sessions, sessions', touched, ids[i]);
      if changed.value {
        TouchMore(slots0, slots, slots', hist0, hist, hist', Elements(touched), sessions[ids[i]].slotId);
        assert Elements(touched + [sessions[ids[i]].slotId]) == Elements(touched) + {sessions[ids[i]].slotId};
      }
    }
  }

  lemma SameKeys(sessions: map<u16, CaSession>, sessions': map<u16, CaSession>, was: map<u16, CaSession>,
                 ids: seq<u16>, i: nat, before: map<u16, Program>, after: map<u16, Program>, hist: seq<History>)
    requires i < |ids| && sessions.Keys == was.Keys == Elements(ids)
    requires HalfSynced(sessions, was, ids, i, before, after, hist)
    requires ids[i] in sessions' && sessions' == sessions[ids[i] := sessions'[ids[i]]]
    requires sessions'[ids[i]].slotId == sessions[ids[i]].slotId && sessions'[ids[i]].caids == sessions[ids[i]].caids
    ensures SameSessions(was, sessions')
  {
    hide Synced;
    assert sessions'.Keys == was.Keys;
    forall id | id in was
      ensures sessions'[id].slotId == was[id].slotId && sessions'[id].caids == was[id].caids
    {
      assert id in Elements(ids);
      var k :| 0 <= k < |ids| && ids[k] == id;
    }
  }

  lemma HostedStep(sessions: map<u16, CaSession>, sessions': map<u16, CaSession>, touched: seq<u16>, id: u16)
    requires Hosted(touched, sessions) && id in sessions && id in sessions'
    requires sessions' == sessions[id := sessions'[id]] && sessions'[id].slotId == sessions[id].slotId
    ensures Hosted(touched, sessions') && Hosted(touched + [sessions[id].slotId], sessions')
  {
    forall s | s in touched ensures exists k | k in sessions' :: sessions'[k].slotId == s {
      var k :| k in sessions && sessions[k].slotId == s;
      assert k in sessions' && sessions'[k].slotId == s;
    }
  }

  lemma ProgressEnd(sessions: map<u16, CaSession>, was: map<u16, CaSession>, ids: seq<u16>,
                    before: map<u16, Program>, after: map<u16, Program>,
                    slots0: seq<TransportSlot>, slots: seq<TransportSlot>,
                    hist0: seq<History>, hist: seq<History>, touched: seq<u16>)
    requires Progress(sessions, was, ids, |ids|, before, after, slots0, slots, hist0, hist, touched)
    ensures InSync(sessions, after, hist) && SameSessions(was, sessions) && |slots| == |hist| == |slots0|
    ensures EachIssued(hist0, hist) && EachFine(hist0, hist)
    ensures OnlyTouched(slots0, slots, hist0, hist, Elements(touched)) && Hosted(touched, sessions)
  {
    HalfSyncedEnd(sessions, was, ids, before, after, hist);
  }

  /** CAIDs were confirmed, but the programs for them could not be sent. */
  predicate Missed(s: CaSession) {
    s.caids.Some? && s.selected == map[]
  }

  class ConditionalAccessResource {
    var sessions: map<u16, CaSession>
    /** Desired programs outlive the sessions. */
    var programs: map<u16, Program>

    ghost predicate Valid()
      reads this
    {
      RegistryOk(sessions, programs)
    }

    constructor ()
      ensures sessions == map[] && programs == map[] && Valid()
    {
      sessions, programs := map[], map[];
    }

    /** Confirmed CAIDs of one live session. */
    function SessionCaids(slotId: byte, sessionId: u16): Option<seq<u16>>
      reads this
    {
      if sessionId in sessions && sessions[sessionId].slotId == slotId then sessions[sessionId].caids else None
    }

    /** Hands one CA_PMT to the transport; only this session's list in the module moves. */
    static method SendPmt(transport: CiTransport, slotId: byte, sessionId: u16, body: seq<byte>)
      returns (r: Result<()>)
      requires transport.Valid() && slotId < |transport.slots| && |body| < 0x1_0000
      modifies transport`slots, transport`hist, transport.link`writes
      ensures transport.Valid()
      ensures OnlySlot(old(transport.slots), transport.slots, old(transport.hist), transport.hist, slotId)
      ensures |transport.hist| == |transport.slots| == old(|transport.slots|) == old(|transport.hist|)
      ensures r.Err? ==> IsLinkError(r.error) && !transport.hist[slotId].intact
      ensures ViewsKept(old(transport.hist)[slotId], transport.hist[slotId], sessionId)
      ensures Kept(old(transport.At(slotId)), transport.At(slotId), r)
      ensures transport.hist[slotId].intact ==> old(transport.hist)[slotId].intact
      ensures var h, h' := old(transport.hist)[slotId], transport.hist[slotId];
              h'.intact && sessionId in Believes(h.sent) ==>
                Believes(h'.sent) == Believes(h.sent)[sessionId := TakePmt(Believes(h.sent)[sessionId], body)]
    {
      ghost var t, h := transport.slots[slotId], transport.hist[slotId];
      r := transport.SendApdu(slotId, sessionId, Apdu.CA_PMT, body);
      ApduBelieved(t, transport.slots[slotId], h, transport.hist[slotId], sessionId, Apdu.CA_PMT, body, r.Ok?);
      hide Believes, TakePmt, AllSound, OnRecord, ApduItem;
    }

    /** Brings one session up to date with a program that was just stored. */
    method UpdateOne(transport: CiTransport, sessionId: u16, program: Program, ghost before: map<u16, Program>)
      returns (r: Result<bool>)
      requires transport.Valid() && Valid()
      requires sessionId in sessions && sessions[sessionId].slotId < |transport.slots| == |transport.hist|
      requires Keyed(before) && programs == before[program.number := program]
      requires Synced(sessions[sessionId], sessionId, before, transport.hist[sessions[sessionId].slotId])
      modifies this`sessions, transport`slots, transport`hist, transport.link`writes
      ensures transport.Valid() && Valid()
      ensures sessionId in sessions && sessions == old(sessions)[sessionId := sessions[sessionId]]
      ensures sessions[sessionId].slotId == old(sessions)[sessionId].slotId
      ensures sessions[sessionId].caids == old(sessions)[sessionId].caids
      ensures var slotId := sessions[sessionId].slotId;
              && OnlySlot(old(transport.slots), transport.slots, old(transport.hist), transport.hist, slotId)
              && |transport.hist| == |transport.slots| == old(|transport.slots|)
              && ViewsKept(old(transport.hist)[slotId], transport.hist[slotId], sessionId)
              && Blameless(old(transport.hist)[slotId], transport.hist[slotId], r)
              && (r.Ok? ==> Synced(sessions[sessionId], sessionId, programs, transport.hist[slotId]))
      ensures r.Err? ==> IsLinkError(r.error)
      ensures r == Ok(false) ==> transport.slots == old(transport.slots) && transport.hist == old(transport.hist)
    {
      var session := sessions[sessionId];
      var n := program.number;
      ghost var h := transport.hist[session.slotId];
      hide Synced, ViewsKept, RegistryOk, AllSound, OnRecord, OnlySlot, Matches, TooLarge, NoneTooLarge, Body, Wanted,
        Shown, TakePmt, Believes;
      ViewsKeptRefl(h, sessionId);
      OnlySlotRefl(transport.slots, transport.hist, session.slotId);
      assert sessions == sessions[sessionId := sessions[sessionId]];
      if session.caids == None {
        UnconfirmedSynced(session, sessionId, before, programs, h);
        return Ok(false);
      }
      var caids := session.caids.value;
      var previous := n in session.selected;
      var management := if previous then Update else if session.selected == map[] then Only else Add;
      SectionFits(program, caids);
      var built := BuildCaPmt(program, caids, management, OkDescrambling);
      if built.value.Some? {
        BodyFits(program, caids, management, OkDescrambling);
        r := SendSelected(transport, sessionId, session, built.value.value, session.selected[n := program]);
        if r.Ok? {
          SelectSynced(session, sessionId, before, program, h, transport.hist[session.slotId], built.value.value);
        }
        SelectRegistry(old(sessions), programs, sessionId, program);
      } else if previous {
        var p := session.selected[n];
        SelectedMatches(sessions, programs, sessionId, n);
        SectionFits(p, caids);
        var withdraw := BuildCaPmt(p, caids, Update, NotSelected);
        // the selected program still has a matching descriptor
        assert withdraw.value.Some?;
        BodyFits(p, caids, Update, NotSelected);
        r := SendSelected(transport, sessionId, session, withdraw.value.value, session.selected - {n});
        if r.Ok? {
          WithdrawSynced(session, sessionId, before, program, h, transport.hist[session.slotId],
                         withdraw.value.value);
        }
        WithdrawRegistry(old(sessions), programs, sessionId, n);
      } else {
        UnmatchedSynced(session, sessionId, before, program, h);
        return Ok(false);
      }
    }

    /** Sends a CA_PMT and, once it is handed over, stores the new selection. */
    method SendSelected(transport: CiTransport, sessionId: u16, session: CaSession, body: seq<byte>,
                        selected: map<u16, Program>)
      returns (r: Result<bool>)
      requires transport.Valid() && session.slotId < |transport.slots| && |body| < 0x1_0000
      modifies this`sessions, transport`slots, transport`hist, transport.link`writes
      ensures transport.Valid()
      ensures sessions == if r.Ok? then old(sessions)[sessionId := session.(selected := selected)] else old(sessions)
      ensures OnlySlot(old(transport.slots), transport.slots, old(transport.hist), transport.hist, session.slotId)
      ensures |transport.hist| == |transport.slots| == old(|transport.slots|) == old(|transport.hist|)
      ensures r.Err? ==> IsLinkError(r.error)
      ensures r.Ok? ==> r.value
      ensures Blameless(old(transport.hist)[session.slotId], transport.hist[session.slotId], r)
      ensures var h, h' := old(transport.hist)[session.slotId], transport.hist[session.slotId];
              && ViewsKept(h, h', sessionId)
              && (h'.intact ==> h.intact)
              && (h'.intact && sessionId in Believes(h.sent) ==>
                    Believes(h'.sent) == Believes(h.sent)[sessionId := TakePmt(Believes(h.sent)[sessionId], body)])
    {
      var sent := SendPmt(transport, session.slotId, sessionId, body);
      if sent.Err? {
        return Err(sent.error);
      }
      sessions := sessions[sessionId := session.(selected := selected)];
      return Ok(true);
    }

    /** Withdraws one program from one session if it was selected there. */
    method RemoveOne(transport: CiTransport, sessionId: u16, n: u16, ghost before: map<u16, Program>)
      returns (r: Result<bool>)
      requires transport.Valid() && Valid()
      requires sessionId in sessions && sessions[sessionId].slotId < |transport.slots| == |transport.hist|
      requires Keyed(before) && programs == before - {n}
      requires Synced(sessions[sessionId], sessionId, before, transport.hist[sessions[sessionId].slotId])
      modifies this`sessions, transport`slots, transport`hist, transport.link`writes
      ensures transport.Valid() && Valid()
      ensures sessionId in sessions && sessions == old(sessions)[sessionId := sessions[sessionId]]
      ensures sessions[sessionId].slotId == old(sessions)[sessionId].slotId
      ensures sessions[sessionId].caids == old(sessions)[sessionId].caids
      ensures var slotId := sessions[sessionId].slotId;
              && OnlySlot(old(transport.slots), transport.slots, old(transport.hist), transport.hist, slotId)
              && |transport.hist| == |transport.slots| == old(|transport.slots|)
              && ViewsKept(old(transport.hist)[slotId], transport.hist[slotId], sessionId)
              && Blameless(old(transport.hist)[slotId], transport.hist[slotId], r)
              && (r.Ok? ==> Synced(sessions[sessionId], sessionId, programs, transport.hist[slotId]))
      ensures r.Err? ==> IsLinkError(r.error)
      ensures r == Ok(false) ==> transport.slots == old(transport.slots) && transport.hist == old(transport.hist)
    {
      var session := sessions[sessionId];
      ghost var h := transport.hist[session.slotId];
      hide Synced, ViewsKept, RegistryOk, AllSound, OnRecord, OnlySlot, Matches, TooLarge, NoneTooLarge, Body, Wanted,
        Shown, TakePmt, Believes;
      ViewsKeptRefl(h, sessionId);
      OnlySlotRefl(transport.slots, transport.hist, session.slotId);
      assert sessions == sessions[sessionId := sessions[sessionId]];
      if n !in session.selected {
        NotSelectedSynced(session, sessionId, before, n, h);
        return Ok(false);
      }
      SelectedMatches(sessions, programs, sessionId, n);
      // a selected program has confirmed CAIDs and a matching descriptor
      var caids := session.caids.value;
      var p := session.selected[n];
      SectionFits(p, caids);
      var withdraw := BuildCaPmt(p, caids, Update, NotSelected);
      assert withdraw.value.Some?;
      BodyFits(p, caids, Update, NotSelected);
      r := SendSelected(transport, sessionId, session, withdraw.value.value, session.selected - {n});
      if r.Ok? {
        RemoveSynced(session, sessionId, before, n, h, transport.hist[session.slotId], withdraw.value.value);
      }
      WithdrawRegistry(old(sessions), programs, sessionId, n);
    }

    /** Adds or replaces a desired program and updates every session. */
    method SetProgram(transport: CiTransport, program: Program) returns (r: Result<seq<u16>>)
      requires transport.Valid() && Valid() && |transport.slots| == |transport.hist|
      requires InSync(sessions, programs, transport.hist)
      modifies this, transport`slots, transport`hist, transport.link`writes
      ensures transport.Valid() && Valid()
      ensures programs == old(programs)[program.number := program]
      ensures SameSessions(old(sessions), sessions) && EachIssued(old(transport.hist), transport.hist)
      ensures |transport.hist| == |transport.slots| == old(|transport.slots|)
      ensures r.Err? ==> IsLinkError(r.error)
      ensures r.Ok? ==>
                && EachFine(old(transport.hist), transport.hist)
                && InSync(sessions, programs, transport.hist)
                && Ascending(r.value)
                && OnlyTouched(old(transport.slots), transport.slots, old(transport.hist), transport.hist,
                               Elements(r.value))
                && Hosted(r.value, sessions)
    {
      var n := program.number;
      if n in programs && programs[n] == program {
        return Ok([]);
      }
      ghost var before := programs;
      programs := programs[n := program];
      var ids := SortedKeys(sessions.Keys);
      ProgressStart(sessions, ids, before, programs, transport.slots, transport.hist);
      r := UpdateAll(transport, ids, program, before);
    }

    /** One pass over the sessions, in ascending order of their numbers. */
    method UpdateAll(transport: CiTransport, ids: seq<u16>, program: Program, ghost before: map<u16, Program>)
      returns (r: Result<seq<u16>>)
      requires transport.Valid() && Valid() && Keyed(before) && programs == before[program.number := program]
      requires Progress(sessions, sessions, ids, 0, before, programs, transport.slots, transport.slots,
                        transport.hist, transport.hist, [])
      modifies this`sessions, transport`slots, transport`hist, transport.link`writes
      ensures transport.Valid() && Valid()
      ensures SameSessions(old(sessions), sessions) && EachIssued(old(transport.hist), transport.hist)
      ensures |transport.hist| == |transport.slots| == old(|transport.slots|)
      ensures r.Err? ==> IsLinkError(r.error)
      ensures r.Ok? ==>
                && EachFine(old(transport.hist), transport.hist)
                && InSync(sessions, programs, transport.hist)
                && Ascending(r.value)
                && OnlyTouched(old(transport.slots), transport.slots, old(transport.hist), transport.hist,
                               Elements(r.value))
                && Hosted(r.value, sessions)
    {
      hide *;
      var touched: seq<u16> := [];
      var i := 0;
      while i < |ids|
        invariant 0 <= i <= |ids|
        invariant transport.Valid() && Valid()
        invariant Progress(sessions, old(sessions), ids, i, before, programs, old(transport.slots), transport.slots,
                           old(transport.hist), transport.hist, touched)
      {
        var id := ids[i];
        ghost var was, slots, hist := sessions, transport.slots, transport.hist;
        ProgressAt(sessions, old(sessions), ids, i, before, programs, old(transport.slots), transport.slots,
                   old(transport.hist), transport.hist, touched);
        var slotId := sessions[id].slotId;
        var changed := UpdateOne(transport, id, program, before);
        ProgressStep(was, sessions, old(sessions), ids, i, before, programs,
                     old(transport.slots), slots, transport.slots,
                     old(transport.hist), hist, transport.hist, touched, changed);
        if changed.Err? {
          return Err(changed.error);
        }
        if changed.value {
          touched := touched + [slotId];
        }
        i := i + 1;
      }
      ProgressEnd(sessions, old(sessions), ids, before, programs, old(transport.slots), transport.slots,
                  old(transport.hist), transport.hist, touched);
      var slotIds := SortDedup(touched);
      SameTouched(old(transport.slots), transport.slots, old(transport.hist), transport.hist,
                  touched, slotIds, sessions);
      return Ok(slotIds);
    }

    /** Removes a desired program and withdraws it wherever it was selected. */
    method RemoveProgram(transport: CiTransport, n: u16) returns (r: Result<seq<u16>>)
      requires transport.Valid() && Valid() && |transport.slots| == |transport.hist|
      requires InSync(sessions, programs, transport.hist)
      modifies this, transport`slots, transport`hist, transport.link`writes
      ensures transport.Valid() && Valid()
      ensures programs == old(programs) - {n}
      ensures SameSessions(old(sessions), sessions) && EachIssued(old(transport.hist), transport.hist)
      ensures |transport.hist| == |transport.slots| == old(|transport.slots|)
      ensures r.Err? ==> IsLinkError(r.error)
      ensures r.Ok? ==>
                && EachFine(old(transport.hist), transport.hist)
                && InSync(sessions, programs, transport.hist)
                && Ascending(r.value)
                && OnlyTouched(old(transport.slots), transport.slots, old(transport.hist), transport.hist,
                               Elements(r.value))
                && Hosted(r.value, sessions)
    {
      if n !in programs {
        assert programs - {n} == programs;
        return Ok([]);
      }
      ghost var before := programs;
      programs := programs - {n};
      var ids := SortedKeys(sessions.Keys);
      ProgressStart(sessions, ids, before, programs, transport.slots, transport.hist);
      r := WithdrawAll(transport, ids, n, before);
    }

    /** One withdrawing pass over the sessions, in ascending order of their numbers. */
    method WithdrawAll(transport: CiTransport, ids: seq<u16>, n: u16, ghost before: map<u16, Program>)
      returns (r: Result<seq<u16>>)
      requires transport.Valid() && Valid() && Keyed(before) && programs == before - {n}
      requires Progress(sessions, sessions, ids, 0, before, programs, transport.slots, transport.slots,
                        transport.hist, transport.hist, [])
      modifies this`sessions, transport`slots, transport`hist, transport.link`writes
      ensures transport.Valid() && Valid()
      ensures SameSessions(old(sessions), sessions) && EachIssued(old(transport.hist), transport.hist)
      ensures |transport.hist| == |transport.slots| == old(|transport.slots|)
      ensures r.Err? ==> IsLinkError(r.error)
      ensures r.Ok? ==>
                && EachFine(old(transport.hist), transport.hist)
                && InSync(sessions, programs, transport.hist)
                && Ascending(r.value)
                && OnlyTouched(old(transport.slots), transport.slots, old(transport.hist), transport.hist,
                               Elements(r.value))
                && Hosted(r.value, sessions)
    {
      hide *;
      var touched: seq<u16> := [];
      var i := 0;
      while i < |ids|
        invariant 0 <= i <= |ids|
        invariant transport.Valid() && Valid()
        invariant Progress(sessions, old(sessions), ids, i, before, programs, old(transport.slots), transport.slots,
                           old(transport.hist), transport.hist, touched)
      {
        var id := ids[i];
        ghost var was, slots, hist := sessions, transport.slots, transport.hist;
        ProgressAt(sessions, old(sessions), ids, i, before, programs, old(transport.slots), transport.slots,
                   old(transport.hist), transport.hist, touched);
        var slotId := sessions[id].slotId;
        var changed := RemoveOne(transport, id, n, before);
        ProgressStep(was, sessions, old(sessions), ids, i, before, programs,
                     old(transport.slots), slots, transport.slots,
                     old(transport.hist), hist, transport.hist, touched, changed);
        if changed.Err? {
          return Err(changed.error);
        }
        if changed.value {
          touched := touched + [slotId];
        }
        i := i + 1;
      }
      ProgressEnd(sessions, old(sessions), ids, before, programs, old(transport.slots), transport.slots,
                  old(transport.hist), transport.hist, touched);
      var slotIds := SortDedup(touched);
      SameTouched(old(transport.slots), transport.slots, old(transport.hist), transport.hist,
                  touched, slotIds, sessions);
      return Ok(slotIds);
    }

    /** Sends every desired program that matches a new CAID list: the first one
        with ONLY, the others with ADD. */
    method SelectAll(transport: CiTransport, slotId: byte, sessionId: u16, caids: seq<u16>, ghost list: ProgramList)
      returns (r: Result<()>, selected: map<u16, Program>)
      requires transport.Valid() && slotId < |transport.slots| == |transport.hist| && Keyed(programs)
      requires Shown(transport.hist[slotId], sessionId, list)
      modifies transport`slots, transport`hist, transport.link`writes
      ensures transport.Valid()
      ensures OnlySlot(old(transport.slots), transport.slots, old(transport.hist), transport.hist, slotId)
      ensures |transport.hist| == |transport.slots| == old(|transport.slots|)
      ensures ViewsKept(old(transport.hist)[slotId], transport.hist[slotId], sessionId)
      ensures Kept(old(transport.At(slotId)), transport.At(slotId), r)
      ensures r.Err? ==> IsLinkError(r.error) && !transport.hist[slotId].intact
      ensures r.Ok? ==> selected == Wanted(programs, Some(caids))
      ensures r.Ok? ==> Rebuilding(transport.hist[slotId], sessionId, list, selected, caids)
    {
      hide *;
      var numbers := SortedKeys(programs.Keys);
      selected := map[];
      RestrictBounds(programs, caids);
      ViewsKeptRefl(transport.hist[slotId], sessionId);
      OnlySlotRefl(transport.slots, transport.hist, slotId);
      RebuildStart(transport.hist[slotId], sessionId, list, caids);
      NoElements(numbers);
      r := Ok(());
      KeptRefl(transport.At(slotId), r);
      var i := 0;
      while i < |numbers|
        invariant 0 <= i <= |numbers| && r.Ok?
        invariant transport.Valid()
        invariant |transport.hist| == |transport.slots| == old(|transport.slots|)
        invariant OnlySlot(old(transport.slots), transport.slots, old(transport.hist), transport.hist, slotId)
        invariant ViewsKept(old(transport.hist)[slotId], transport.hist[slotId], sessionId)
        invariant selected == Wanted(Restrict(programs, Elements(numbers[..i])), Some(caids))
        invariant Rebuilding(transport.hist[slotId], sessionId, list, selected, caids)
        invariant Kept(old(transport.At(slotId)), transport.At(slotId), r)
      {
        NextNumber(numbers, i, programs);
        RestrictStep(programs, Elements(numbers[..i]), numbers[i], caids);
        ghost var before, sofar := transport.At(slotId), r;
        r, selected := SelectNext(transport, slotId, sessionId, caids, programs[numbers[i]], selected, list,
                                  old(transport.slots), old(transport.hist));
        KeptStep(old(transport.At(slotId)), before, transport.At(slotId), sofar, r);
        if r.Err? {
          return;
        }
        i := i + 1;
      }
      assert numbers[..|numbers|] == numbers;
    }

    /** Sends one desired program if it matches the new CAID list. */
    static method SelectNext(transport: CiTransport, slotId: byte, sessionId: u16, caids: seq<u16>, p: Program,
                             selected: map<u16, Program>, ghost list: ProgramList,
                             ghost slots0: seq<TransportSlot>, ghost hist0: seq<History>)
      returns (r: Result<()>, selected': map<u16, Program>)
      requires transport.Valid() && slotId < |transport.slots| == |transport.hist| == |hist0|
      requires OnlySlot(slots0, transport.slots, hist0, transport.hist, slotId)
      requires ViewsKept(hist0[slotId], transport.hist[slotId], sessionId)
      requires Rebuilding(transport.hist[slotId], sessionId, list, selected, caids) && p.number !in selected
      modifies transport`slots, transport`hist, transport.link`writes
      ensures transport.Valid()
      ensures |transport.hist| == |transport.slots| == old(|transport.slots|)
      ensures OnlySlot(slots0, transport.slots, hist0, transport.hist, slotId)
      ensures ViewsKept(hist0[slotId], transport.hist[slotId], sessionId)
      ensures Kept(old(transport.At(slotId)), transport.At(slotId), r)
      ensures r.Err? ==> IsLinkError(r.error) && !transport.hist[slotId].intact
      ensures r.Ok? ==> selected' == if Matches(p, caids) then selected[p.number := p] else selected
      ensures r.Ok? ==> Rebuilding(transport.hist[slotId], sessionId, list, selected', caids)
    {
      hide *;
      r, selected' := Ok(()), selected;
      KeptRefl(transport.At(slotId), r);
      var management := if selected == map[] then Only else Add;
      SectionFits(p, caids);
      var built := BuildCaPmt(p, caids, management, OkDescrambling);
      if built.value.Some? {
        BodyFits(p, caids, management, OkDescrambling);
        ghost var slots, hist := transport.slots, transport.hist;
        r := SendPmt(transport, slotId, sessionId, built.value.value);
        OnlySlotTrans(slots0, slots, transport.slots, hist0, hist, transport.hist, slotId);
        ViewsKeptTrans(hist0[slotId], hist[slotId], transport.hist[slotId], sessionId);
        if r.Ok? {
          RebuildSelect(hist[slotId], transport.hist[slotId], sessionId, list, selected, caids, p,
                        built.value.value);
          selected' := selected[p.number := p];
        }
      }
    }

    /** Withdraws, under the old CAIDs, everything that was selected before. */
    static method WithdrawPrevious(transport: CiTransport, slotId: byte, sessionId: u16, oldCaids: seq<u16>,
                                   previous: map<u16, Program>)
      returns (r: Result<()>)
      requires transport.Valid() && slotId < |transport.slots| == |transport.hist|
      requires Selectable(CaSession(slotId, Some(oldCaids), previous))
      requires Shown(transport.hist[slotId], sessionId, ListOf(previous, oldCaids))
      modifies transport`slots, transport`hist, transport.link`writes
      ensures transport.Valid()
      ensures OnlySlot(old(transport.slots), transport.slots, old(transport.hist), transport.hist, slotId)
      ensures |transport.hist| == |transport.slots| == old(|transport.slots|)
      ensures ViewsKept(old(transport.hist)[slotId], transport.hist[slotId], sessionId)
      ensures Kept(old(transport.At(slotId)), transport.At(slotId), r)
      ensures r.Err? ==> IsLinkError(r.error) && !transport.hist[slotId].intact
      ensures r.Ok? ==> Shown(transport.hist[slotId], sessionId, map[])
    {
      hide *;
      var numbers := SortedKeys(previous.Keys);
      ViewsKeptRefl(transport.hist[slotId], sessionId);
      OnlySlotRefl(transport.slots, transport.hist, slotId);
      LeftBounds(previous, numbers);
      r := Ok(());
      KeptRefl(transport.At(slotId), r);
      var i := 0;
      while i < |numbers|
        invariant 0 <= i <= |numbers| && r.Ok?
        invariant transport.Valid()
        invariant |transport.hist| == |transport.slots| == old(|transport.slots|)
        invariant OnlySlot(old(transport.slots), transport.slots, old(transport.hist), transport.hist, slotId)
        invariant ViewsKept(old(transport.hist)[slotId], transport.hist[slotId], sessionId)
        invariant Shown(transport.hist[slotId], sessionId, ListOf(Left(previous, numbers, i), oldCaids))
        invariant Kept(old(transport.At(slotId)), transport.At(slotId), r)
      {
        LeftStep(slotId, previous, oldCaids, numbers, i);
        ghost var before, sofar := transport.At(slotId), r;
        r := WithdrawNext(transport, slotId, sessionId, oldCaids, previous[numbers[i]], Left(previous, numbers, i),
                          old(transport.slots), old(transport.hist));
        KeptStep(old(transport.At(slotId)), before, transport.At(slotId), sofar, r);
        if r.Err? {
          return;
        }
        i := i + 1;
      }
      WithdrawnAll(transport.hist[slotId], sessionId, Left(previous, numbers, |numbers|), oldCaids);
    }

    static method WithdrawNext(transport: CiTransport, slotId: byte, sessionId: u16, oldCaids: seq<u16>, p: Program,
                               ghost rest: map<u16, Program>,
                               ghost slots0: seq<TransportSlot>, ghost hist0: seq<History>)
      returns (r: Result<()>)
      requires transport.Valid() && slotId < |transport.slots| == |transport.hist| == |hist0|
      requires OnlySlot(slots0, transport.slots, hist0, transport.hist, slotId)
      requires ViewsKept(hist0[slotId], transport.hist[slotId], sessionId)
      requires Matches(p, oldCaids) && p.number in rest
      requires Shown(transport.hist[slotId], sessionId, ListOf(rest, oldCaids))
      modifies transport`slots, transport`hist, transport.link`writes
      ensures transport.Valid()
      ensures |transport.hist| == |transport.slots| == old(|transport.slots|)
      ensures OnlySlot(slots0, transport.slots, hist0, transport.hist, slotId)
      ensures ViewsKept(hist0[slotId], transport.hist[slotId], sessionId)
      ensures Kept(old(transport.At(slotId)), transport.At(slotId), r)
      ensures r.Err? ==> IsLinkError(r.error) && !transport.hist[slotId].intact
      ensures r.Ok? ==> Shown(transport.hist[slotId], sessionId, ListOf(rest - {p.number}, oldCaids))
    {
      hide *;
      r := Ok(());
      KeptRefl(transport.At(slotId), r);
      SectionFits(p, oldCaids);
      var built := BuildCaPmt(p, oldCaids, Update, NotSelected);
      if built.value.Some? {
        BodyFits(p, oldCaids, Update, NotSelected);
        ghost var slots, hist := transport.slots, transport.hist;
        r := SendPmt(transport, slotId, sessionId, built.value.value);
        OnlySlotTrans(slots0, slots, transport.slots, hist0, hist, transport.hist, slotId);
        ViewsKeptTrans(hist0[slotId], hist[slotId], transport.hist[slotId], sessionId);
        WithdrawShown(hist[slotId], transport.hist[slotId], sessionId, rest, oldCaids, p, built.value.value);
      }
    }

    /** Rebuilds the selection of one session for a new CAID list. */
    method SynchronizeSession(transport: CiTransport, sessionId: u16, caids: seq<u16>) returns (r: Result<()>)
      requires transport.Valid() && Valid()
      requires sessionId in sessions && sessions[sessionId].slotId < |transport.slots| == |transport.hist|
      requires Synced(sessions[sessionId], sessionId, programs, transport.hist[sessions[sessionId].slotId])
      modifies this`sessions, transport`slots, transport`hist, transport.link`writes
      ensures transport.Valid() && Valid()
      ensures sessionId in sessions && sessions == old(sessions)[sessionId := sessions[sessionId]]
      ensures sessions[sessionId].slotId == old(sessions)[sessionId].slotId
      ensures sessions[sessionId].caids == Some(caids)
      ensures var slotId := sessions[sessionId].slotId;
              && OnlySlot(old(transport.slots), transport.slots, old(transport.hist), transport.hist, slotId)
              && |transport.hist| == |transport.slots| == old(|transport.slots|)
              && ViewsKept(old(transport.hist)[slotId], transport.hist[slotId], sessionId)
              && Synced(sessions[sessionId], sessionId, programs, transport.hist[slotId])
              && Kept(old(transport.At(slotId)), transport.At(slotId), r)
      ensures r.Err? ==> IsLinkError(r.error) && !transport.hist[sessions[sessionId].slotId].intact
      ensures sessions[sessionId].selected == if r.Ok? then Wanted(programs, Some(caids)) else map[]
    {
      hide AllSound, OnRecord, OnlySlot, ViewsKept, Shown, Matches, ListOf, Wanted, Selectable, Believes, Kept;
      var session := sessions[sessionId];
      var slotId := session.slotId;
      var oldCaids := session.caids;
      var previous := session.selected;
      ghost var list := ListOf(previous, Confirmed(session));
      sessions := sessions[sessionId := CaSession(slotId, Some(caids), map[])];
      EmptySelectable(slotId, caids);
      ResetRegistry(old(sessions), programs, sessionId, sessions[sessionId]);
      ShownIfSynced(session, sessionId, programs, transport.hist[slotId]);
      ghost var h, before := transport.hist[slotId], transport.At(slotId);
      var selected;
      r, selected := SelectAll(transport, slotId, sessionId, caids, list);
      if r.Err? {
        return;
      }
      if selected == map[] && oldCaids.Some? {
        ghost var slots', hist', between, sofar := transport.slots, transport.hist, transport.At(slotId), r;
        r := WithdrawPrevious(transport, slotId, sessionId, oldCaids.value, previous);
        OnlySlotTrans(old(transport.slots), slots', transport.slots,
          old(transport.hist), hist', transport.hist, slotId);
        ViewsKeptTrans(h, hist'[slotId], transport.hist[slotId], sessionId);
        KeptStep(before, between, transport.At(slotId), sofar, r);
        if r.Err? {
          return;
        }
      }
      ListOfEmpty(Confirmed(session));
      ListOfEmpty(caids);
      SelectableUnconfirmed(old(sessions), programs, sessionId);
      WantedSelectable(slotId, programs, caids);
      ResetRegistry(sessions, programs, sessionId, CaSession(slotId, Some(caids), selected));
      sessions := sessions[sessionId := CaSession(slotId, Some(caids), selected)];
    }

    /** A session was opened: nothing is confirmed yet, so nothing is selected. */
    method OnOpen(transport: CiTransport, slotId: byte, sessionId: u16) returns (r: Result<()>)
      requires transport.Valid() && Valid() && slotId < |transport.slots| == |transport.hist|
      requires Shown(transport.hist[slotId], sessionId, map[])
      modifies this`sessions, transport`slots, transport`hist, transport.link`writes
      ensures transport.Valid() && Valid()
      ensures sessions == old(sessions)[sessionId := CaSession(slotId, None, map[])]
      ensures OnlySlot(old(transport.slots), transport.slots, old(transport.hist), transport.hist, slotId)
      ensures |transport.hist| == |transport.slots| == old(|transport.slots|)
      ensures Quiet(old(transport.hist)[slotId], transport.hist[slotId])
      ensures Synced(sessions[sessionId], sessionId, programs, transport.hist[slotId])
      ensures r.Ok? ==>
                transport.hist[slotId].sent == old(transport.hist)[slotId].sent + [ApduItem(sessionId, 0x9F_8030, [])]
      ensures Kept(old(transport.At(slotId)), transport.At(slotId), r)
      ensures r.Err? ==> IsLinkError(r.error) && !transport.hist[slotId].intact
    {
      hide AllSound, OnRecord, OnlySlot, Believes, Matches, RegistryOk;
      sessions := sessions[sessionId := CaSession(slotId, None, map[])];
      UnconfirmedRegistry(old(sessions), programs, sessionId, slotId);
      ListOfEmpty([]);
      r := SendQuiet(transport, slotId, sessionId, Apdu.CA_INFO_ENQ, []);
    }

    /** An APDU arrives on a session. CA_INFO rebuilds the session's selection;
        a link error in the middle of it leaves the slot's log tainted. */
    method OnApdu(transport: CiTransport, slotId: byte, sessionId: u16, tag: Apdu.ApduTag, body: seq<byte>)
      returns (r: Result<()>, events: seq<CaEvent>)
      requires transport.Valid() && Valid() && slotId < |transport.slots| == |transport.hist|
      requires sessionId in sessions ==>
                 sessions[sessionId].slotId == slotId
                 && Synced(sessions[sessionId], sessionId, programs, transport.hist[slotId])
      modifies this`sessions, transport`slots, transport`hist, transport.link`writes
      ensures transport.Valid() && Valid()
      ensures |transport.hist| == |transport.slots| == old(|transport.slots|)
      ensures sessions.Keys == old(sessions).Keys
      ensures sessionId in sessions ==>
                && sessions == old(sessions)[sessionId := sessions[sessionId]]
                && sessions[sessionId].slotId == slotId
                && Synced(sessions[sessionId], sessionId, programs, transport.hist[slotId])
      ensures sessionId !in sessions ==> sessions == old(sessions)
      ensures OnlySlot(old(transport.slots), transport.slots, old(transport.hist), transport.hist, slotId)
      ensures |transport.hist| == |transport.slots| == old(|transport.slots|)
      ensures ViewsKept(old(transport.hist)[slotId], transport.hist[slotId], sessionId)
      ensures Kept(old(transport.At(slotId)), transport.At(slotId), r)
      ensures r.Err? && IsLinkError(r.error) ==>
                !transport.hist[slotId].intact && sessionId in sessions && Missed(sessions[sessionId])
      ensures r.Err? && !IsLinkError(r.error) ==>
                && r.error == InvalidData && sessions == old(sessions)
                && transport.slots == old(transport.slots) && transport.hist == old(transport.hist)
      ensures sessionId in sessions && old(sessions)[sessionId].caids.Some? ==> sessions[sessionId].caids.Some?
      ensures r == Err(InvalidData) <==>
                && tag != Apdu.CA_PMT_REPLY && tag != Apdu.CA_UPDATE
                && !(tag == Apdu.CA_INFO && ParseCaInfo(body).Ok? && sessionId in old(sessions))
      ensures r.Ok? && tag == Apdu.CA_INFO ==>
                && sessionId in sessions && ParseCaInfo(body).Ok?
                && sessions[sessionId].caids == Some(ParseCaInfo(body).value)
                && sessions[sessionId].selected == Wanted(programs, sessions[sessionId].caids)
                && events == [CaInfoReceived(slotId, sessionId, ParseCaInfo(body).value)]
      ensures tag == Apdu.CA_INFO && ParseCaInfo(body).Ok? && sessionId in sessions ==>
                sessions[sessionId].caids == Some(ParseCaInfo(body).value)
      ensures tag != Apdu.CA_INFO ==> sessions == old(sessions)
      ensures tag != Apdu.CA_INFO || r.Err? ==> events == []
    {
      hide AllSound, OnRecord, OnlySlot, ViewsKept, Synced, Believes, RegistryOk, Kept;
      OnlySlotRefl(transport.slots, transport.hist, slotId);
      ViewsKeptRefl(transport.hist[slotId], sessionId);
      events := [];
      if sessionId in sessions {
        assert sessions == sessions[sessionId := sessions[sessionId]];
      }
      if tag == Apdu.CA_PMT_REPLY || tag == Apdu.CA_UPDATE {
        r := Ok(());
        KeptRefl(transport.At(slotId), r);
      } else if tag != Apdu.CA_INFO || ParseCaInfo(body).Err? || sessionId !in sessions {
        r := Err(InvalidData);
        KeptRefl(transport.At(slotId), r);
      } else {
        var caids := ParseCaInfo(body).value;
        r := SynchronizeSession(transport, sessionId, caids);
        if r.Ok? {
          events := [CaInfoReceived(slotId, sessionId, caids)];
        }
      }
    }

    method OnClose(sessionId: u16)
      requires Valid()
      modifies this`sessions
      ensures Valid()
      ensures sessions == old(sessions) - {sessionId}
    {
      CloseRegistry(sessions, programs, sessionId);
      sessions := sessions - {sessionId};
    }
  }
}
