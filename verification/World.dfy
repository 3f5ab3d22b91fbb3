/** The session layer as one value: the session table, the resources' own tables,
    the transport slots with their logs, and everything reported so far. What a
    step on one session number may do, and what every step keeps. */
module World {
  import opened Basics
  import opened CaPmt
  import opened ConditionalAccess
  import opened Events
  import opened Mmi
  import opened Registry
  import opened Resources
  import opened Sending
  import opened SessionTable
  import opened Transport
  import Apdu
  import AI = ApplicationInformation
  import DT = DateTime

  datatype Books = Books(table: Table,
                         app: map<u16, AI.AppSession>,
                         ca: map<u16, CaSession>,
                         dates: map<u16, DT.DateTimeSession>,
                         fragments: map<u16, seq<byte>>)

  datatype World = World(slots: seq<TransportSlot>, hist: seq<History>, books: Books,
                         programs: map<u16, Program>, log: seq<CaEvent>)

  // ------------------------------------------------------------ what is reported

  /** Sessions reported open and not yet closed. */
  function Announced(log: seq<CaEvent>): map<u16, (byte, u32)> {
    if log == [] then map[] else Announce(Announced(log[..|log| - 1]), log[|log| - 1])
  }

  function Announce(open: map<u16, (byte, u32)>, e: CaEvent): map<u16, (byte, u32)> {
    match e
    case SessionOpened(slotId, id, resourceId) => open[id := (slotId, resourceId)]
    case SessionClosed(_, id, _) => open - {id}
    case _ => open
  }

  /** A number is reported opened only while it is not open, and reported closed
      on the slot and for the resource it was opened with. */
  predicate Proper(open: map<u16, (byte, u32)>, e: CaEvent) {
    match e
    case SessionOpened(_, id, _) => id !in open
    case SessionClosed(slotId, id, resourceId) => id in open ==> open[id] == (slotId, resourceId)
    case _ => true
  }

  predicate Alternating(log: seq<CaEvent>) {
    log == []
    || (Alternating(log[..|log| - 1]) && Proper(Announced(log[..|log| - 1]), log[|log| - 1]))
  }

  /** What `Alternating` means for any two events about one number. */
  lemma {:induction false} ClosedBetween(log: seq<CaEvent>, i: nat, j: nat)
    requires Alternating(log) && i < j < |log|
    requires log[i].SessionOpened? && log[j].SessionOpened? && log[i].sessionId == log[j].sessionId
    ensures exists k | i < k < j :: log[k].SessionClosed? && log[k].sessionId == log[i].sessionId
    decreases |log|
  {
    var front := log[..|log| - 1];
    if j < |log| - 1 {
      ClosedBetween(front, i, j);
      var k :| i < k < j && front[k].SessionClosed? && front[k].sessionId == front[i].sessionId;
      assert log[k].SessionClosed?;
    } else {
      StaysOpen(front, i);
    }
  }

  lemma {:induction false} StaysOpen(log: seq<CaEvent>, i: nat)
    requires i < |log| && log[i].SessionOpened?
    ensures log[i].sessionId in Announced(log)
         || exists k | i < k < |log| :: log[k].SessionClosed? && log[k].sessionId == log[i].sessionId
    decreases |log|
  {
    var front := log[..|log| - 1];
    if i < |log| - 1 {
      StaysOpen(front, i);
      if exists k | i < k < |front| :: front[k].SessionClosed? && front[k].sessionId == log[i].sessionId {
        var k :| i < k < |front| && front[k].SessionClosed? && front[k].sessionId == log[i].sessionId;
        assert log[k].SessionClosed?;
      }
    }
  }

  /** Events that neither open nor close a session. */
  predicate Plain(e: CaEvent) {
    !e.SessionOpened? && !e.SessionClosed?
  }

  lemma {:induction false} PlainAnnounced(log: seq<CaEvent>, more: seq<CaEvent>)
    requires forall i | 0 <= i < |more| :: Plain(more[i])
    ensures Announced(log + more) == Announced(log)
    ensures Alternating(log) ==> Alternating(log + more)
    decreases |more|
  {
    if more == [] {
      assert log + more == log;
    } else {
      var front := more[..|more| - 1];
      PlainAnnounced(log, front);
      assert (log + more)[..|log + more| - 1] == log + front;
      assert Plain(more[|more| - 1]);
    }
  }

  lemma AnnouncedAppend(log: seq<CaEvent>, e: CaEvent)
    ensures Announced(log + [e]) == Announce(Announced(log), e)
    ensures Alternating(log + [e]) <==> Alternating(log) && Proper(Announced(log), e)
  {
    assert (log + [e])[..|log|] == log;
  }

  /** Reported by the session layer, about this slot. */
  predicate About(e: CaEvent, slotId: byte) {
    e.slotId == slotId && !e.SlotStatusChanged? && !e.CamStatusChanged? && !e.SlotFailed?
  }

  /** Events that make the controller recompute the slot's CAM status. */
  predicate Telling(e: CaEvent) {
    || e.AppInfoReceived?
    || e.CaInfoReceived?
    || (e.SessionClosed? && Base(e.resourceId) in {Base(Id(ApplicationInformation)), Base(Id(ConditionalAccess))})
  }

  predicate Told(more: seq<CaEvent>) {
    exists i | 0 <= i < |more| :: Telling(more[i])
  }

  // ----------------------------------------------------------- table agreement

  /** Whatever a resource keeps under a number belongs to a live session of that
      resource on that slot; only MMI sessions are ever closing. */
  predicate EntriesBacked(b: Books, id: u16) {
    var live := Live(b.table, id);
    && (id in b.app ==> live == Some(Session(b.app[id].slotId, ApplicationInformation, SessionState.Active)))
    && (id in b.ca ==> live == Some(Session(b.ca[id].slotId, ConditionalAccess, SessionState.Active)))
    && (id in b.dates ==> live == Some(Session(b.dates[id].slotId, DateTime, SessionState.Active)))
    && (id in b.fragments ==> live.Some? && live.value.resource == Mmi)
    && (live.Some? && live.value.state == Closing ==> live.value.resource == Mmi)
  }

  /** The resource of a live session knows it. */
  predicate Listed(b: Books, id: u16) {
    var live := Live(b.table, id);
    live.Some? ==>
      && (live.value.resource == ApplicationInformation ==> id in b.app)
      && (live.value.resource == ConditionalAccess ==> id in b.ca)
      && (live.value.resource == DateTime ==> id in b.dates)
  }

  /** Reported open means live with the same slot and resource; and the other way
      round, unless the slot's link has failed since. */
  predicate Reported(b: Books, id: u16, open: map<u16, (byte, u32)>, intact: bool) {
    var live := Live(b.table, id);
    && (id in open ==> live.Some? && open[id] == (live.value.slotId, Id(live.value.resource)))
    && (live.Some? && intact ==> id in open)
  }

  predicate IntactAt(b: Books, id: u16, hist: seq<History>) {
    var live := Live(b.table, id);
    live.Some? && live.value.slotId < |hist| && hist[live.value.slotId].intact
  }

  predicate NumberOk(b: Books, id: u16, hist: seq<History>, open: map<u16, (byte, u32)>) {
    && EntriesBacked(b, id)
    && (IntactAt(b, id, hist) ==> Listed(b, id))
    && Reported(b, id, open, IntactAt(b, id, hist))
  }

  ghost predicate Agreement(b: Books, hist: seq<History>, open: map<u16, (byte, u32)>) {
    forall id: u16 :: NumberOk(b, id, hist, open)
  }

  predicate WellIssued(h: History) {
    h.intact ==> AllIssued(h.sent)
  }

  /** What holds even while one number is being set up. */
  ghost predicate FrameOk(w: World) {
    && |w.slots| == |w.hist| < 0x100
    && Quotas(w.books.table, |w.slots|)
    && RegistryOk(w.books.ca, w.programs)
    && forall s | 0 <= s < |w.hist| :: WellIssued(w.hist[s])
  }

  ghost predicate WorldOk(w: World) {
    && FrameOk(w)
    && Agreement(w.books, w.hist, Announced(w.log))
    && Alternating(w.log)
  }

  ghost predicate Synchronized(w: World) {
    InSync(w.books.ca, w.programs, w.hist)
  }

  // -------------------------------------------------------- steps on one number

  /** Everything kept under the number is the same. */
  predicate SameAt(a: Books, b: Books, id: u16) {
    && Live(b.table, id) == Live(a.table, id)
    && (id in b.app <==> id in a.app) && (id in a.app ==> b.app[id] == a.app[id])
    && (id in b.ca <==> id in a.ca) && (id in a.ca ==> b.ca[id] == a.ca[id])
    && (id in b.dates <==> id in a.dates) && (id in a.dates ==> b.dates[id] == a.dates[id])
    && (id in b.fragments <==> id in a.fragments) && (id in a.fragments ==> b.fragments[id] == a.fragments[id])
  }

  ghost predicate OnlyNumber(a: Books, b: Books, id: u16) {
    forall other: u16 | other != id :: SameAt(a, b, other)
  }

  predicate Elsewhere(b: Books, id: u16, slotId: byte) {
    Live(b.table, id).Some? && Live(b.table, id).value.slotId != slotId
  }

  /** Sessions of other slots keep everything they have, and none appears there. */
  ghost predicate OtherSlotsKept(a: Books, b: Books, slotId: byte) {
    forall id: u16 :: (Elsewhere(a, id, slotId) || Elsewhere(b, id, slotId)) ==> SameAt(a, b, id)
  }

  ghost predicate HasCaInfo(ca: map<u16, CaSession>, slotId: byte) {
    exists id: u16 :: CaInformed(ca, slotId, id)
  }

  predicate CaInformed(ca: map<u16, CaSession>, slotId: byte, id: u16) {
    id in ca && ca[id].slotId == slotId && ca[id].caids.Some?
  }

  /** Whether application information and CA information are there. */
  ghost predicate SameInfo(a: Books, b: Books, slotId: byte) {
    && (AI.HasInfo(b.app, slotId) <==> AI.HasInfo(a.app, slotId))
    && (HasCaInfo(b.ca, slotId) <==> HasCaInfo(a.ca, slotId))
  }

  /** New events, all about this slot. */
  predicate Spoke(log: seq<CaEvent>, log': seq<CaEvent>, slotId: byte) {
    log <= log' && forall i | |log| <= i < |log'| :: About(log'[i], slotId)
  }

  predicate AllPlain(log: seq<CaEvent>, log': seq<CaEvent>) {
    forall i | |log| <= i < |log'| :: Plain(log'[i])
  }

  /** If the slot lost information, some event tells; if it gained any, some event
      tells unless the link has failed. */
  ghost predicate InfoTold(a: World, b: World, slotId: byte)
    requires a.log <= b.log && slotId < |b.hist|
  {
    || Told(b.log[|a.log|..])
    || (NoLoss(a.books, b.books, slotId) && (b.hist[slotId].intact ==> SameInfo(a.books, b.books, slotId)))
  }

  /** Information that was there still is. */
  ghost predicate NoLoss(a: Books, b: Books, slotId: byte) {
    && (AI.HasInfo(a.app, slotId) ==> AI.HasInfo(b.app, slotId))
    && (HasCaInfo(a.ca, slotId) ==> HasCaInfo(b.ca, slotId))
  }

  /** What anything that happens on one slot may do to the whole layer. */
  ghost predicate SlotStep(a: World, b: World, slotId: byte) {
    && |a.slots| == |a.hist| && slotId < |a.slots|
    && OnlySlot(a.slots, b.slots, a.hist, b.hist, slotId)
    && OtherSlotsKept(a.books, b.books, slotId)
    && StillIssued(a.hist[slotId], b.hist[slotId])
    && b.programs == a.programs
    && Spoke(a.log, b.log, slotId)
    && InfoTold(a, b, slotId)
    && Owned(a, b, slotId)
  }

  /** Only a failed write is passed off as malformed data, and only together with that
      report. */
  predicate Owned(a: World, b: World, slotId: byte)
    requires a.log <= b.log && slotId < |a.hist| && slotId < |b.hist|
  {
    b.hist[slotId].swallowed ==>
      a.hist[slotId].swallowed || (!b.hist[slotId].intact && MalformedData(slotId) in b.log[|a.log|..])
  }

  lemma OtherSlotsKeptTrans(a: Books, b: Books, c: Books, slotId: byte)
    requires OtherSlotsKept(a, b, slotId) && OtherSlotsKept(b, c, slotId)
    ensures OtherSlotsKept(a, c, slotId)
  {
    forall id: u16 | Elsewhere(a, id, slotId) || Elsewhere(c, id, slotId) ensures SameAt(a, c, id) {
      if Elsewhere(a, id, slotId) {
        assert SameAt(a, b, id) && Elsewhere(b, id, slotId);
      } else {
        assert SameAt(b, c, id) && Elsewhere(b, id, slotId);
      }
    }
  }

  lemma SlotStepTrans(a: World, b: World, c: World, slotId: byte)
    requires SlotStep(a, b, slotId) && SlotStep(b, c, slotId)
    ensures SlotStep(a, c, slotId)
  {
    hide AI.HasInfo, HasCaInfo, About, Telling, SameAt, Live, AllIssued;
    OtherSlotsKeptTrans(a.books, b.books, c.books, slotId);
    GrownTrans(a.hist[slotId], b.hist[slotId], c.hist[slotId]);
    hide OtherSlotsKept, Grown;
    ToldTrans(a.log, b.log, c.log);
    LaterToo(a.log, b.log, c.log, MalformedData(slotId));
  }

  lemma LaterToo(a: seq<CaEvent>, b: seq<CaEvent>, c: seq<CaEvent>, e: CaEvent)
    requires a <= b <= c
    ensures e in b[|a|..] || e in c[|b|..] ==> e in c[|a|..]
  {
    assert c[|a|..] == b[|a|..] + c[|b|..];
  }

  lemma ToldTrans(a: seq<CaEvent>, b: seq<CaEvent>, c: seq<CaEvent>)
    requires a <= b <= c
    ensures Told(b[|a|..]) || Told(c[|b|..]) ==> Told(c[|a|..])
  {
    hide Telling;
    var more := c[|a|..];
    if Told(b[|a|..]) {
      var i :| 0 <= i < |b[|a|..]| && Telling(b[|a|..][i]);
      assert more[i] == b[|a|..][i];
    } else if Told(c[|b|..]) {
      var i :| 0 <= i < |c[|b|..]| && Telling(c[|b|..][i]);
      assert more[i + |b| - |a|] == c[|b|..][i];
    }
  }

  /** Unless an I/O error is passed on, the slot keeps its good record. */
  predicate StepBlameless<T>(a: World, b: World, slotId: byte, r: Result<T>) {
    slotId < |a.hist| && slotId < |b.hist| && Blameless(a.hist[slotId], b.hist[slotId], r)
  }

  /** So it does, and its incoming side is as it was. */
  predicate StepFine<T>(a: World, b: World, slotId: byte, r: Result<T>) {
    && StepBlameless(a, b, slotId, r)
    && slotId < |a.slots| && slotId < |b.slots| && Incoming(a.slots[slotId], b.slots[slotId])
  }

  lemma StepSizes(a: World, b: World, slotId: byte)
    requires SlotStep(a, b, slotId)
    ensures |a.slots| == |b.slots| == |a.hist| == |b.hist| && slotId < |b.hist|
    ensures forall s | 0 <= s < |b.hist| :: b.hist[s].intact ==> a.hist[s].intact
    ensures a.log <= b.log && b.programs == a.programs
  {
  }

  lemma SlotStepRefl(a: World, slotId: byte)
    requires |a.slots| == |a.hist| && slotId < |a.slots|
    ensures SlotStep(a, a, slotId)
  {
  }

  /** The number is free or belongs to the slot. */
  predicate Home(b: Books, id: u16, slotId: byte) {
    Live(b.table, id).Some? ==> Live(b.table, id).value.slotId == slotId
  }

  lemma NumberIsSlot(a: Books, b: Books, id: u16, slotId: byte)
    requires OnlyNumber(a, b, id) && Home(a, id, slotId) && Home(b, id, slotId)
    ensures OtherSlotsKept(a, b, slotId)
  {
    hide SameAt;
    forall other: u16 | Elsewhere(a, other, slotId) || Elsewhere(b, other, slotId)
      ensures SameAt(a, b, other)
    {
    }
  }

  /** A step on one number keeps the agreement of all the others. */
  lemma AgreementKept(a: Books, b: Books, id: u16, hist: seq<History>, hist': seq<History>,
                      open: map<u16, (byte, u32)>, open': map<u16, (byte, u32)>)
    requires forall other: u16 | other != id :: NumberOk(a, other, hist, open)
    requires OnlyNumber(a, b, id) && open' - {id} == open - {id}
    requires |hist'| == |hist| && forall s | 0 <= s < |hist| :: hist'[s].intact ==> hist[s].intact
    requires NumberOk(b, id, hist', open')
    ensures Agreement(b, hist', open')
  {
    forall other: u16 ensures NumberOk(b, other, hist', open') {
      if other != id {
        assert NumberOk(a, other, hist, open) && SameAt(a, b, other);
        assert other in open' <==> other in open' - {id};
        assert other in open <==> other in open - {id};
        if other in open {
          assert open[other] == (open - {id})[other];
          assert open'[other] == (open' - {id})[other];
        }
      }
    }
  }

  lemma InSyncKept(a: Books, b: Books, id: u16, slotId: byte, programs: map<u16, Program>,
                   slots: seq<TransportSlot>, slots': seq<TransportSlot>,
                   hist: seq<History>, hist': seq<History>)
    requires InSync(a.ca, programs, hist) && OnlyNumber(a, b, id)
    requires OnlySlot(slots, slots', hist, hist', slotId) && slotId < |hist|
    requires ViewsKept(hist[slotId], hist'[slotId], id)
    requires id in b.ca ==> b.ca[id].slotId < |hist| && Synced(b.ca[id], id, programs, hist'[b.ca[id].slotId])
    ensures InSync(b.ca, programs, hist')
  {
    hide Synced, ViewsKept, Live;
    forall other | other in b.ca
      ensures b.ca[other].slotId < |hist'| && Synced(b.ca[other], other, programs, hist'[b.ca[other].slotId])
    {
      if other != id {
        assert SameAt(a, b, other);
        SyncedFrame(b.ca[other], other, id, slotId, programs, hist, hist');
      }
    }
  }

  /** Only the informed status of the number counts. */
  lemma InfoKept(a: Books, b: Books, id: u16, slotId: byte)
    requires OnlyNumber(a, b, id)
    requires AI.Informed(a.app, slotId, id) <==> AI.Informed(b.app, slotId, id)
    requires CaInformed(a.ca, slotId, id) <==> CaInformed(b.ca, slotId, id)
    ensures SameInfo(a, b, slotId)
  {
    hide Live;
    forall other: u16
      ensures AI.Informed(a.app, slotId, other) <==> AI.Informed(b.app, slotId, other)
      ensures CaInformed(a.ca, slotId, other) <==> CaInformed(b.ca, slotId, other)
    {
      if other != id {
        assert SameAt(a, b, other);
      }
    }
  }

  /** Another slot's information cannot change. */
  lemma OtherInfo(a: World, b: World, slotId: byte, other: byte)
    requires Agreement(a.books, a.hist, Announced(a.log)) && Agreement(b.books, b.hist, Announced(b.log))
    requires OtherSlotsKept(a.books, b.books, slotId) && other != slotId
    ensures SameInfo(a.books, b.books, other)
  {
    forall id: u16
      ensures AI.Informed(a.books.app, other, id) <==> AI.Informed(b.books.app, other, id)
      ensures CaInformed(a.books.ca, other, id) <==> CaInformed(b.books.ca, other, id)
    {
      assert NumberOk(a.books, id, a.hist, Announced(a.log));
      assert NumberOk(b.books, id, b.hist, Announced(b.log));
      if AI.Informed(a.books.app, other, id) || CaInformed(a.books.ca, other, id) {
        assert Elsewhere(a.books, id, slotId);
      }
      if AI.Informed(b.books.app, other, id) || CaInformed(b.books.ca, other, id) {
        assert Elsewhere(b.books, id, slotId);
      }
    }
  }

  /** A step on one number of one slot. */
  ghost predicate NumberStep(a: World, b: World, slotId: byte, id: u16) {
    && |a.slots| == |a.hist| && slotId < |a.slots|
    && OnlySlot(a.slots, b.slots, a.hist, b.hist, slotId)
    && OnlyNumber(a.books, b.books, id)
    && Home(a.books, id, slotId) && Home(b.books, id, slotId)
    && ViewsKept(a.hist[slotId], b.hist[slotId], id)
    && b.programs == a.programs
    && Spoke(a.log, b.log, slotId)
    && InfoTold(a, b, slotId)
  }

  lemma NumberStepIsSlotStep(a: World, b: World, slotId: byte, id: u16)
    requires NumberStep(a, b, slotId, id)
    ensures SlotStep(a, b, slotId)
  {
    NumberIsSlot(a.books, b.books, id, slotId);
    hide OnlyNumber, InfoTold, Spoke, AllIssued, Live, OtherSlotsKept;
  }

  lemma OnlyNumberTrans(a: Books, b: Books, c: Books, id: u16)
    requires OnlyNumber(a, b, id) && OnlyNumber(b, c, id)
    ensures OnlyNumber(a, c, id)
  {
    forall other: u16 | other != id ensures SameAt(a, c, other) {
      assert SameAt(a, b, other) && SameAt(b, c, other);
    }
  }

  lemma FrameKept(a: World, b: World, slotId: byte)
    requires FrameOk(a) && |b.slots| == |b.hist| == |a.slots| && slotId < |a.slots|
    requires OnlySlot(a.slots, b.slots, a.hist, b.hist, slotId)
    requires StillIssued(a.hist[slotId], b.hist[slotId])
    requires Quotas(b.books.table, |b.slots|) && RegistryOk(b.books.ca, b.programs)
    ensures FrameOk(b)
  {
    hide Quotas, RegistryOk, AllIssued;
    forall s | 0 <= s < |b.hist| ensures WellIssued(b.hist[s]) {
      assert WellIssued(a.hist[s]);
    }
  }

  /** A step on one number that leaves the number itself in order keeps the world in order. */
  lemma Settle(a: World, b: World, slotId: byte, id: u16)
    requires FrameOk(a) && NumberStep(a, b, slotId, id)
    requires forall other: u16 | other != id :: NumberOk(a.books, other, a.hist, Announced(a.log))
    requires Quotas(b.books.table, |b.slots|) && RegistryOk(b.books.ca, b.programs)
    requires Alternating(b.log) && Announced(b.log) - {id} == Announced(a.log) - {id}
    requires NumberOk(b.books, id, b.hist, Announced(b.log))
    ensures WorldOk(b)
  {
    hide Quotas, RegistryOk, AllIssued, NumberOk, OnlyNumber, InfoTold, Alternating, Announced;
    FrameKept(a, b, slotId);
    AgreementKept(a.books, b.books, id, a.hist, b.hist, Announced(a.log), Announced(b.log));
  }

  lemma SettleSync(a: World, b: World, slotId: byte, id: u16)
    requires Synchronized(a) && NumberStep(a, b, slotId, id)
    requires id in b.books.ca ==>
               b.books.ca[id].slotId == slotId && Synced(b.books.ca[id], id, b.programs, b.hist[slotId])
    ensures Synchronized(b)
  {
    InSyncKept(a.books, b.books, id, slotId, a.programs, a.slots, b.slots, a.hist, b.hist);
  }

  /** A failed write is passed off as malformed data, which is reported. */
  lemma SwallowStep(a: World, b: World, slotId: byte)
    requires WorldOk(a) && slotId < |a.slots| && !a.hist[slotId].intact
    requires b == a.(hist := a.hist[slotId := a.hist[slotId].(swallowed := true)],
                     log := a.log + [MalformedData(slotId)])
    ensures WorldOk(b) && SlotStep(a, b, slotId)
    ensures Synchronized(a) ==> Synchronized(b)
  {
    var m := a.(log := b.log);
    OneSpoke(a.log, MalformedData(slotId), slotId);
    hide Synced;
    assert Quiet(a.hist[slotId], m.hist[slotId]);
    assert b.log[|a.log|..] == [MalformedData(slotId)];
    QuietStep(a, m, slotId);
    hide Quotas, RegistryOk, AllIssued, Alternating, Announced;
    forall id: u16 ensures NumberOk(b.books, id, b.hist, Announced(b.log)) {
      assert NumberOk(m.books, id, m.hist, Announced(m.log));
    }
    forall s | 0 <= s < |b.hist| ensures WellIssued(b.hist[s]) {
      assert WellIssued(m.hist[s]);
    }
    if Synchronized(a) {
      SwallowSync(m, b, slotId);
    }
  }

  lemma SwallowSync(a: World, b: World, slotId: byte)
    requires Synchronized(a) && slotId < |a.hist|
    requires b == a.(hist := a.hist[slotId := a.hist[slotId].(swallowed := true)])
    ensures Synchronized(b)
  {
    forall id | id in b.books.ca
      ensures b.books.ca[id].slotId < |b.hist|
      ensures Synced(b.books.ca[id], id, b.programs, b.hist[b.books.ca[id].slotId])
    {
      var s := b.books.ca[id].slotId;
      assert Synced(a.books.ca[id], id, a.programs, a.hist[s]);
    }
  }

  /** Nothing but traffic that leaves every program list alone. */
  lemma QuietStep(a: World, b: World, slotId: byte)
    requires WorldOk(a) && slotId < |a.slots|
    requires OnlySlot(a.slots, b.slots, a.hist, b.hist, slotId)
    requires Quiet(a.hist[slotId], b.hist[slotId])
    requires b.books == a.books && b.programs == a.programs && Spoke(a.log, b.log, slotId)
    requires AllPlain(a.log, b.log)
    ensures WorldOk(b) && SlotStep(a, b, slotId)
    ensures Synchronized(a) ==> Synchronized(b)
  {
    PlainLog(a.log, b.log, slotId);
    QuietNumber(a, b, slotId);
    hide Quotas, RegistryOk, AllIssued, Alternating, Announced, NumberStep, NumberOk, Synced;
    NumberStepIsSlotStep(a, b, slotId, 0);
    Settle(a, b, slotId, 0);
    if Synchronized(a) {
      SettleSync(a, b, slotId, 0);
    }
  }

  /** Events that neither open nor close a session leave the open numbers alone. */
  lemma PlainLog(log: seq<CaEvent>, log': seq<CaEvent>, slotId: byte)
    requires Spoke(log, log', slotId) && AllPlain(log, log') && Alternating(log)
    ensures Announced(log') == Announced(log) && Alternating(log')
  {
    var more := log'[|log|..];
    assert log' == log + more;
    assert forall i | 0 <= i < |more| :: more[i] == log'[|log| + i];
    PlainAnnounced(log, more);
  }

  /** Quiet traffic is a step on number 0, which is never anybody's. */
  lemma QuietNumber(a: World, b: World, slotId: byte)
    requires WorldOk(a) && slotId < |a.slots|
    requires OnlySlot(a.slots, b.slots, a.hist, b.hist, slotId)
    requires Quiet(a.hist[slotId], b.hist[slotId])
    requires b.books == a.books && b.programs == a.programs && Spoke(a.log, b.log, slotId)
    requires Announced(b.log) == Announced(a.log)
    ensures NumberStep(a, b, slotId, 0) && NumberOk(b.books, 0, b.hist, Announced(b.log)) && 0 !in b.books.ca
  {
    QuietKept(a.hist[slotId], b.hist[slotId], 0);
    assert NumberOk(a.books, 0, a.hist, Announced(a.log));
    hide Quotas, RegistryOk, AllIssued, Alternating, Announced, ViewsKept, Quiet, About;
    assert OnlyNumber(a.books, b.books, 0);
  }

  lemma SilentSpoke(log: seq<CaEvent>, slotId: byte)
    ensures Spoke(log, log, slotId) && AllPlain(log, log)
  {
  }

  lemma OneSpoke(log: seq<CaEvent>, e: CaEvent, slotId: byte)
    requires About(e, slotId)
    ensures Spoke(log, log + [e], slotId)
  {
  }

  // -------------------------------------------------------- closing and opening

  /** The number is free again and no resource remembers it. */
  function Freed(b: Books, id: u16): Books {
    Books(if Live(b.table, id).Some? then b.table[id - 1 := None] else b.table,
          b.app - {id}, b.ca - {id}, b.dates - {id}, b.fragments - {id})
  }

  lemma FreedOnly(b: Books, id: u16)
    ensures OnlyNumber(b, Freed(b, id), id) && Live(Freed(b, id).table, id) == None
  {
  }

  lemma FreedQuotas(b: Books, id: u16, slotsNum: byte)
    requires Quotas(b.table, slotsNum)
    ensures Quotas(Freed(b, id).table, slotsNum)
  {
    if Live(b.table, id).Some? {
      UpdateKeepsQuotas(b.table, slotsNum, id - 1, None);
    }
  }

  /** Only a session with application or CA information has any to lose. */
  lemma FreedInfo(b: Books, id: u16, slotId: byte)
    requires EntriesBacked(b, id) && Live(b.table, id).Some?
    requires Live(b.table, id).value.resource != ApplicationInformation
    requires Live(b.table, id).value.resource != ConditionalAccess
    ensures SameInfo(b, Freed(b, id), slotId)
  {
    FreedOnly(b, id);
    InfoKept(b, Freed(b, id), id, slotId);
  }

  /** A resource has just been told of a new session. */
  function Introduced(b: Books, slotId: byte, id: u16, kind: Kind): Books {
    match kind
    case ApplicationInformation => b.(app := b.app[id := AI.AppSession(slotId, None, 0)])
    case ConditionalAccess => b.(ca := b.ca[id := CaSession(slotId, None, map[])])
    case DateTime => b.(dates := b.dates[id := DT.DateTimeSession(slotId, 0, None)])
    case _ => b
  }

  predicate Unlisted(b: Books, id: u16) {
    id !in b.app && id !in b.ca && id !in b.dates && id !in b.fragments
  }

  lemma FreeIsUnlisted(b: Books, id: u16, hist: seq<History>, open: map<u16, (byte, u32)>)
    requires NumberOk(b, id, hist, open) && Live(b.table, id) == None
    ensures Unlisted(b, id) && id !in open
  {
  }

  lemma IntroducedOk(b: Books, slotId: byte, id: u16, kind: Kind)
    requires Live(b.table, id) == Some(Session(slotId, kind, SessionState.Active)) && Unlisted(b, id)
    ensures var b' := Introduced(b, slotId, id, kind);
            && OnlyNumber(b, b', id) && EntriesBacked(b', id) && Listed(b', id)
            && !AI.Informed(b'.app, slotId, id) && !CaInformed(b'.ca, slotId, id)
  {
  }

  // ------------------------------------------------- what a session has been told

  /** What the module has said on one session, as far as the host keeps it. */
  datatype Digest = Digest(info: Option<ApplicationInfo>, caids: Option<seq<u16>>, interval: byte,
                           fragment: Option<seq<byte>>)

  function DigestOf(b: Books, id: u16): Digest {
    Digest(if id in b.app then b.app[id].info else None,
           if id in b.ca then b.ca[id].caids else None,
           if id in b.dates then b.dates[id].interval else 0,
           if id in b.fragments then Some(b.fragments[id]) else None)
  }

  /** What one object adds; an object that is none of the resource's changes nothing. */
  function Digested(d: Digest, kind: Kind, tag: Apdu.ApduTag, body: seq<byte>): Digest {
    match kind
    case ApplicationInformation =>
      if tag == Apdu.APPLICATION_INFO && AI.ParseApplicationInfo(body).Ok?
      then d.(info := Some(AI.ParseApplicationInfo(body).value)) else d
    case ConditionalAccess =>
      if tag == Apdu.CA_INFO && ParseCaInfo(body).Ok? then d.(caids := Some(ParseCaInfo(body).value)) else d
    case DateTime =>
      if tag == Apdu.DATE_TIME_ENQ then d.(interval := if body == [] then 0 else body[0]) else d
    case Mmi =>
      if tag in {Apdu.TEXT_MORE, Apdu.MENU_MORE, Apdu.LIST_MORE} then
        var soFar := if d.fragment == None then [] else d.fragment.value;
        d.(fragment := if |soFar| + |body| > MAX_OBJECT_SIZE then None else Some(soFar + body))
      else if tag in {Apdu.TEXT_LAST, Apdu.MENU_LAST, Apdu.LIST_LAST} then d.(fragment := None)
      else d
    case _ => d
  }

  /** All objects in order, up to the first damaged one. */
  function DigestAll(d: Digest, kind: Kind, objects: seq<Result<Apdu.Apdu>>): Digest
    decreases |objects|
  {
    if objects == [] || objects[0].Err? then d
    else DigestAll(Digested(d, kind, objects[0].value.tag, objects[0].value.body), kind, objects[1..])
  }

  /** Some object before the first damaged one asks to close the dialogue. */
  predicate AsksClose(objects: seq<Result<Apdu.Apdu>>)
    decreases |objects|
  {
    objects != [] && objects[0].Ok? && (objects[0].value.tag == Apdu.CLOSE_MMI || AsksClose(objects[1..]))
  }
}
