/** What each operation of the session layer must lead to, and the steps by which
    it keeps the layer in order. */
module SessionSteps {
  import opened Basics
  import opened CaPmt
  import opened Cam
  import opened ConditionalAccess
  import opened Events
  import opened Registry
  import opened Reports
  import opened Resources
  import opened Sending
  import opened SessionTable
  import opened Sorting
  import opened Tpdu
  import opened Transport
  import opened Wire
  import opened World
  import AI = ApplicationInformation
  import Apdu
  import DT = DateTime
  import SpduCoding = Spdu

  lemma WorldSizes(w: World)
    requires WorldOk(w)
    ensures |w.slots| == |w.hist| < 0x100 && Quotas(w.books.table, |w.slots|)
    ensures RegistryOk(w.books.ca, w.programs)
  {
  }

  lemma Reporting(delivered: seq<CaEvent>, events: seq<CaEvent>, e: CaEvent, slotId: byte)
    requires About(e, slotId)
    ensures Spoke(delivered + events, delivered + (events + [e]), slotId)
    ensures Plain(e) ==> AllPlain(delivered + events, delivered + (events + [e]))
    ensures delivered + (events + [e]) == (delivered + events) + [e]
  {
    assert delivered + (events + [e]) == (delivered + events) + [e];
  }

  lemma RefusalQuiet(before: TransportSlot, after: TransportSlot, h: History, h': History,
                     status: byte, offered: u32, ok: bool)
    requires status != SpduCoding.SS_OK
    requires Handed(before, after, h, h',
                    Item.Spdu(SpduCoding.BuildOpenSessionResponse(status, offered, 0)), ok)
    ensures Quiet(h, h')
  {
    var item := Item.Spdu(SpduCoding.BuildOpenSessionResponse(status, offered, 0));
    HandedIssued(before, after, h, h', item, ok);
    if ok {
      BelievesAppend(h.sent, item);
      ReadOpenResponse(Believes(h.sent), status, offered, 0);
    }
  }

  lemma OpenBelieved(before: TransportSlot, after: TransportSlot, h: History, h': History,
                     id: u16, kind: Kind, ok: bool)
    requires Handed(before, after, h, h',
                    Item.Spdu(SpduCoding.BuildOpenSessionResponse(SpduCoding.SS_OK, Id(kind), id)), ok)
    ensures ViewsKept(h, h', id)
    ensures kind == ConditionalAccess ==> Shown(h', id, map[])
    ensures !ok ==> !h'.intact
  {
    var item := Item.Spdu(SpduCoding.BuildOpenSessionResponse(SpduCoding.SS_OK, Id(kind), id));
    HandedIssued(before, after, h, h', item, ok);
    if ok {
      BelievesAppend(h.sent, item);
      ReadOpenResponse(Believes(h.sent), SpduCoding.SS_OK, Id(kind), id);
    }
  }

  /** The number was taken, but the module could not be told. */
  lemma AllocatedOnly(a: World, b: World, slotId: byte, id: u16, kind: Kind)
    requires WorldOk(a) && slotId < |a.slots| && Live(a.books.table, id) == None
    requires OnlyNumber(a.books, b.books, id) && b.books == a.books.(table := b.books.table)
    requires Live(b.books.table, id) == Some(Session(slotId, kind, SessionState.Active))
    requires Quotas(b.books.table, |a.slots|) && |b.slots| == |a.slots|
    requires OnlySlot(a.slots, b.slots, a.hist, b.hist, slotId)
    requires ViewsKept(a.hist[slotId], b.hist[slotId], id) && !b.hist[slotId].intact
    requires b.programs == a.programs && b.log == a.log
    ensures WorldOk(b) && SlotStep(a, b, slotId)
    ensures Synchronized(a) ==> Synchronized(b)
  {
    hide ViewsKept, Quotas, RegistryOk, Alternating, Announced, Synced;
    assert NumberOk(a.books, id, a.hist, Announced(a.log));
    FreeIsUnlisted(a.books, id, a.hist, Announced(a.log));
    assert NumberOk(b.books, id, b.hist, Announced(b.log));
    hide NumberOk, OnlyNumber;
    SilentSpoke(a.log, slotId);
    assert NumberStep(a, b, slotId, id);
    NumberStepIsSlotStep(a, b, slotId, id);
    Settle(a, b, slotId, id);
    if Synchronized(a) {
      SettleSync(a, b, slotId, id);
    }
  }

  lemma OpeningAnnounced(log: seq<CaEvent>, slotId: byte, id: u16, kind: Kind)
    requires Alternating(log) && id !in Announced(log)
    ensures var log' := log + [SessionOpened(slotId, id, Id(kind))];
            && Spoke(log, log', slotId) && Alternating(log')
            && Announced(log') == Announced(log)[id := (slotId, Id(kind))]
  {
    AnnouncedAppend(log, SessionOpened(slotId, id, Id(kind)));
  }

  lemma Accepted(a: World, b: World, slotId: byte, id: u16, kind: Kind)
    requires WorldOk(a) && slotId < |a.slots| && Live(a.books.table, id) == None
    requires OnlyNumber(a.books, a.books.(table := b.books.table), id)
    requires b.books == Introduced(a.books.(table := b.books.table), slotId, id, kind)
    requires Live(b.books.table, id) == Some(Session(slotId, kind, SessionState.Active))
    requires Quotas(b.books.table, |a.slots|) && |b.slots| == |a.slots| && RegistryOk(b.books.ca, b.programs)
    requires OnlySlot(a.slots, b.slots, a.hist, b.hist, slotId)
    requires ViewsKept(a.hist[slotId], b.hist[slotId], id)
    requires b.programs == a.programs && b.log == a.log + [SessionOpened(slotId, id, Id(kind))]
    requires kind == ConditionalAccess ==>
               id in b.books.ca && Synced(b.books.ca[id], id, b.programs, b.hist[slotId])
    ensures WorldOk(b) && SlotStep(a, b, slotId)
    ensures Synchronized(a) ==> Synchronized(b)
  {
    hide ViewsKept, Quotas, RegistryOk, Alternating, Announced, Synced, Spoke, Told;
    var m := a.books.(table := b.books.table);
    assert NumberOk(a.books, id, a.hist, Announced(a.log));
    FreeIsUnlisted(a.books, id, a.hist, Announced(a.log));
    OpeningAnnounced(a.log, slotId, id, kind);
    IntroducedOk(m, slotId, id, kind);
    OnlyNumberTrans(a.books, m, b.books, id);
    AcceptedNumber(m, b.books, slotId, id, kind, b.hist, Announced(a.log));
    hide NumberOk, OnlyNumber;
    InfoKept(a.books, b.books, id, slotId);
    assert (Announced(a.log)[id := (slotId, Id(kind))]) - {id} == Announced(a.log) - {id};
    hide Home;
    assert NumberStep(a, b, slotId, id);
    NumberStepIsSlotStep(a, b, slotId, id);
    Settle(a, b, slotId, id);
    if Synchronized(a) {
      SettleSync(a, b, slotId, id);
    }
  }

  lemma AcceptedNumber(m: Books, b: Books, slotId: byte, id: u16, kind: Kind, hist: seq<History>,
                       open: map<u16, (byte, u32)>)
    requires b == Introduced(m, slotId, id, kind) && EntriesBacked(b, id) && Listed(b, id)
    requires Live(m.table, id) == Some(Session(slotId, kind, SessionState.Active))
    ensures NumberOk(b, id, hist, open[id := (slotId, Id(kind))])
  {
  }

  /** The number is live, on the slot, and bound to the resource. */
  predicate Hosts(table: Table, id: u16, slotId: byte, kind: Kind) {
    Live(table, id).Some? && Live(table, id).value.slotId == slotId && Live(table, id).value.resource == kind
  }

  predicate OnSlot(table: Table, id: u16, slotId: byte) {
    Live(table, id).Some? && Live(table, id).value.slotId == slotId
  }

  lemma HostsOnSlot(table: Table, id: u16, slotId: byte, kind: Kind)
    requires Hosts(table, id, slotId, kind)
    ensures OnSlot(table, id, slotId)
  {
  }

  /** The session's own resource was told of it. */
  lemma KnownIfListed(b: Books, id: u16, slotId: byte, kind: Kind)
    requires Hosts(b.table, id, slotId, kind) && Listed(b, id)
    ensures kind == ApplicationInformation ==> id in b.app
    ensures kind == ConditionalAccess ==> id in b.ca
    ensures kind == DateTime ==> id in b.dates
  {
  }

  /** Whatever the resources keep under their numbers, they keep the numbers. */
  lemma StillListed(a: Books, b: Books, id: u16)
    requires Listed(a, id) && Live(b.table, id) == Live(a.table, id)
    requires a.app.Keys <= b.app.Keys && a.ca.Keys <= b.ca.Keys && a.dates.Keys <= b.dates.Keys
    ensures Listed(b, id)
  {
  }

  /** Unless a write on its slot has failed, every session is known to its resource. */
  lemma ListedIfIntact(w: World, id: u16, slotId: byte)
    requires WorldOk(w) && OnSlot(w.books.table, id, slotId) && slotId < |w.hist| && w.hist[slotId].intact
    ensures Listed(w.books, id)
  {
    hide Announced;
    assert NumberOk(w.books, id, w.hist, Announced(w.log));
  }

  lemma StepGrown(a: World, b: World, slotId: byte)
    requires SlotStep(a, b, slotId)
    ensures Grown(a.hist[slotId], b.hist[slotId])
  {
  }

  /** The answer to an open request. */
  function OpenStatus(table: Table, slotId: byte, resourceId: u32): byte {
    var kind := Lookup(resourceId);
    if kind == None then SpduCoding.SS_NOT_ALLOCATED
    else if Version(resourceId) > Version(Id(kind.value)) then SpduCoding.SS_LOWER_VERSION
    else if Used(table, slotId) >= MAX_SLOT_SESSIONS then SpduCoding.SS_BUSY
    else SpduCoding.SS_OK
  }

  /** The answer in the codes of section 7.2.6: no such resource, a version the host does
      not have, too many sessions on the slot, or none of these. */
  lemma OpenStatusExact(table: Table, slotId: byte, resourceId: u32)
    ensures OpenStatus(table, slotId, resourceId)
         == if Lookup(resourceId) == None then 0xF0
            else if resourceId % 0x40 > 1 then 0xF2
            else if Used(table, slotId) >= 16 then 0xF3
            else 0
  {
    LookupExact(resourceId);
  }

  lemma PlacedNumber(a: Books, b: Books, session: Session)
    requires b == a.(table := Place(a.table, FirstFree(a.table), session)) && FirstFree(a.table) < 0xFFFF
    ensures OnlyNumber(a, b, FirstFree(a.table) + 1)
    ensures Live(a.table, FirstFree(a.table) + 1) == None
    ensures Live(b.table, FirstFree(a.table) + 1) == Some(session)
  {
    PlaceFresh(a.table, session);
    hide Live, FirstFree;
    assert forall other: u16 | other != FirstFree(a.table) + 1 :: Live(b.table, other) == Live(a.table, other);
  }

  lemma SyncedAt(w: World, id: u16, slotId: byte, kind: Kind)
    requires WorldOk(w) && Synchronized(w) && Hosts(w.books.table, id, slotId, kind)
    ensures id in w.books.ca ==>
              && w.books.ca[id].slotId == slotId < |w.hist|
              && Synced(w.books.ca[id], id, w.programs, w.hist[slotId])
  {
    hide Synced;
    assert NumberOk(w.books, id, w.hist, Announced(w.log));
  }

  lemma OneTold(log: seq<CaEvent>, e: CaEvent)
    ensures Telling(e) ==> Told((log + [e])[|log|..])
  {
    assert (log + [e])[|log|..] == [e];
    assert [e][0] == e;
  }

  /** A step on one live number that neither opens nor closes it. */
  lemma Delivered(a: World, b: World, slotId: byte, id: u16)
    requires WorldOk(a) && slotId < |a.slots| && OnSlot(a.books.table, id, slotId)
    requires OnlyNumber(a.books, b.books, id) && b.books.table == a.books.table
    requires EntriesBacked(b.books, id) && (Listed(a.books, id) ==> Listed(b.books, id))
    requires |b.slots| == |a.slots| && RegistryOk(b.books.ca, b.programs)
    requires OnlySlot(a.slots, b.slots, a.hist, b.hist, slotId)
    requires ViewsKept(a.hist[slotId], b.hist[slotId], id)
    requires b.programs == a.programs && Spoke(a.log, b.log, slotId) && AllPlain(a.log, b.log)
    requires InfoTold(a, b, slotId)
    requires Synchronized(a) ==>
               id in b.books.ca ==>
                 b.books.ca[id].slotId == slotId && Synced(b.books.ca[id], id, b.programs, b.hist[slotId])
    ensures WorldOk(b) && SlotStep(a, b, slotId)
    ensures Synchronized(a) ==> Synchronized(b)
  {
    PlainLog(a.log, b.log, slotId);
    hide RegistryOk, Alternating, Announced, Synced, Spoke, InfoTold, AllPlain;
    NumberStays(a, b, slotId, id);
    hide ViewsKept, NumberOk, OnlyNumber, Quotas, EntriesBacked, Listed;
    assert NumberStep(a, b, slotId, id);
    NumberStepIsSlotStep(a, b, slotId, id);
    Settle(a, b, slotId, id);
    if Synchronized(a) {
      SettleSync(a, b, slotId, id);
    }
  }

  lemma NumberStays(a: World, b: World, slotId: byte, id: u16)
    requires Agreement(a.books, a.hist, Announced(a.log)) && slotId < |a.hist| == |b.hist|
    requires OnSlot(a.books.table, id, slotId) && b.books.table == a.books.table
    requires EntriesBacked(b.books, id) && (Listed(a.books, id) ==> Listed(b.books, id))
    requires b.hist[slotId].intact ==> a.hist[slotId].intact
    requires Announced(b.log) == Announced(a.log)
    ensures NumberOk(b.books, id, b.hist, Announced(b.log))
  {
    hide Announced;
    assert NumberOk(a.books, id, a.hist, Announced(a.log));
  }

  /** Confirmed CAIDs are replaced, never forgotten. */
  lemma CaNoLoss(a: Books, b: Books, slotId: byte, id: u16)
    requires b == a.(ca := b.ca) && b.ca.Keys == a.ca.Keys
    requires id !in a.ca ==> b.ca == a.ca
    requires id in a.ca ==> b.ca == a.ca[id := b.ca[id]] && b.ca[id].slotId == a.ca[id].slotId
    requires id in a.ca && a.ca[id].caids.Some? ==> b.ca[id].caids.Some?
    ensures NoLoss(a, b, slotId)
  {
    if HasCaInfo(a.ca, slotId) {
      var k: u16 :| CaInformed(a.ca, slotId, k);
      assert CaInformed(b.ca, slotId, k);
    }
  }

  lemma DeliveredCa(a: World, b: World, slotId: byte, id: u16)
    requires WorldOk(a) && Synchronized(a) && slotId < |a.slots| && OnSlot(a.books.table, id, slotId)
    requires b.books == a.books.(ca := b.books.ca) && b.books.ca.Keys == a.books.ca.Keys
    requires id !in a.books.ca ==> b.books.ca == a.books.ca
    requires id in a.books.ca ==>
               && b.books.ca == a.books.ca[id := b.books.ca[id]] && b.books.ca[id].slotId == slotId
               && |b.hist| == |a.hist| && slotId < |b.hist|
               && Synced(b.books.ca[id], id, b.programs, b.hist[slotId])
    requires |b.slots| == |b.hist| == |a.slots| && RegistryOk(b.books.ca, b.programs)
    requires OnlySlot(a.slots, b.slots, a.hist, b.hist, slotId)
    requires ViewsKept(a.hist[slotId], b.hist[slotId], id)
    requires b.programs == a.programs && Spoke(a.log, b.log, slotId) && AllPlain(a.log, b.log)
    requires b.books.ca == a.books.ca || !b.hist[slotId].intact || Told(b.log[|a.log|..])
    requires id in a.books.ca && a.books.ca[id].caids.Some? ==> b.books.ca[id].caids.Some?
    requires id in a.books.ca ==> b.books.ca[id].slotId == a.books.ca[id].slotId
    ensures WorldOk(b) && Synchronized(b) && SlotStep(a, b, slotId)
  {
    hide RegistryOk, Synced, ViewsKept, Told, AllPlain, Alternating, Announced, NoLoss, EntriesBacked,
      Listed, OnlyNumber, Synchronized, SameInfo, Spoke;
    CaNoLoss(a.books, b.books, slotId, id);
    CaEntries(a, b, id);
    SameInfoRefl(a.books, b.books, slotId);
    Delivered(a, b, slotId, id);
  }

  lemma CaEntries(a: World, b: World, id: u16)
    requires WorldOk(a) && b.books == a.books.(ca := b.books.ca) && b.books.ca.Keys == a.books.ca.Keys
    requires id !in a.books.ca ==> b.books.ca == a.books.ca
    requires id in a.books.ca ==>
               b.books.ca == a.books.ca[id := b.books.ca[id]] && b.books.ca[id].slotId == a.books.ca[id].slotId
    ensures OnlyNumber(a.books, b.books, id) && EntriesBacked(b.books, id)
    ensures Listed(a.books, id) ==> Listed(b.books, id)
  {
    BackedAt(a, id);
    hide WorldOk;
  }

  lemma SameInfoRefl(a: Books, b: Books, slotId: byte)
    ensures b.ca == a.ca && b.app == a.app ==> SameInfo(a, b, slotId) && NoLoss(a, b, slotId)
  {
  }

  lemma QuietIntact(h: History, h': History)
    requires Quiet(h, h')
    ensures h'.intact ==> h.intact
  {
  }

  /** Reports so far and reports to come. */
  lemma Balance(log: seq<CaEvent>, log': seq<CaEvent>, slotId: byte, r: Result<()>, reports: seq<CaEvent>,
                later: seq<CaEvent>)
    ensures log' + Refusal(slotId, r) == log + reports ==>
              && (log' + Refusal(slotId, r)) + later == log + (reports + later)
              && (r.Ok? ==> log' + later == log + (reports + later))
  {
    if log' + Refusal(slotId, r) == log + reports {
      assert (log + reports) + later == log + (reports + later);
      if r.Ok? {
        assert log' + Refusal(slotId, r) == log';
      }
    }
  }

  lemma Assoc3<T>(a: seq<T>, b: seq<T>, c: seq<T>, d: seq<T>)
    ensures (a + (b + c)) + d == (a + b) + (c + d)
  {
  }

  lemma ManySpoke(delivered: seq<CaEvent>, events: seq<CaEvent>, more: seq<CaEvent>, slotId: byte)
    requires forall e | e in more :: About(e, slotId) && Plain(e)
    ensures Spoke(delivered + events, delivered + (events + more), slotId)
    ensures AllPlain(delivered + events, delivered + (events + more))
  {
    var log, log' := delivered + events, delivered + (events + more);
    assert log' == log + more;
    forall i | |log| <= i < |log'| ensures About(log'[i], slotId) && Plain(log'[i]) {
      assert log'[i] == more[i - |log|];
    }
  }

  lemma DeliveredApp(a: World, b: World, slotId: byte, id: u16)
    requires WorldOk(a) && Synchronized(a) && slotId < |a.slots| && OnSlot(a.books.table, id, slotId)
    requires id in a.books.app && id in b.books.app && b.books.app[id].slotId == a.books.app[id].slotId
    requires b == a.(books := a.books.(app := a.books.app[id := b.books.app[id]]), log := b.log)
    requires Spoke(a.log, b.log, slotId) && AllPlain(a.log, b.log) && Told(b.log[|a.log|..])
    ensures WorldOk(b) && Synchronized(b) && SlotStep(a, b, slotId)
  {
    hide RegistryOk, Synced, Told, AllPlain, Alternating, Announced, Believes, AllIssued;
    assert NumberOk(a.books, id, a.hist, Announced(a.log));
    assert OnlyNumber(a.books, b.books, id);
    SyncedOn(a, id, slotId);
    hide NumberOk, OnlyNumber, Synchronized;
    Delivered(a, b, slotId, id);
  }

  lemma SyncedOn(w: World, id: u16, slotId: byte)
    requires WorldOk(w) && Synchronized(w) && OnSlot(w.books.table, id, slotId)
    ensures id in w.books.ca ==>
              && w.books.ca[id].slotId == slotId < |w.hist|
              && Synced(w.books.ca[id], id, w.programs, w.hist[slotId])
  {
    SyncedAt(w, id, slotId, Live(w.books.table, id).value.resource);
  }

  /** A quiet step keeps a session in sync. */
  lemma QuietSynced(s: CaSession, id: u16, programs: map<u16, Program>, h: History, h': History)
    requires Synced(s, id, programs, h) && Quiet(h, h')
    ensures Synced(s, id, programs, h')
  {
  }

  lemma DeliveredDates(a: World, b: World, slotId: byte, id: u16)
    requires WorldOk(a) && Synchronized(a) && slotId < |a.slots| && OnSlot(a.books.table, id, slotId)
    requires b.books == a.books.(dates := b.books.dates) && b.programs == a.programs && b.log == a.log
    requires b.books.dates == a.books.dates
             || (id in a.books.dates && id in b.books.dates
                 && b.books.dates == a.books.dates[id := b.books.dates[id]]
                 && b.books.dates[id].slotId == a.books.dates[id].slotId)
    requires |b.slots| == |b.hist| == |a.slots|
    requires OnlySlot(a.slots, b.slots, a.hist, b.hist, slotId) && Quiet(a.hist[slotId], b.hist[slotId])
    ensures WorldOk(b) && Synchronized(b) && SlotStep(a, b, slotId)
  {
    hide RegistryOk, Synced, Alternating, Announced, Believes, AllIssued, Quiet, ViewsKept;
    SilentSpoke(a.log, slotId);
    assert NumberOk(a.books, id, a.hist, Announced(a.log));
    assert OnlyNumber(a.books, b.books, id);
    SyncedOn(a, id, slotId);
    QuietKept(a.hist[slotId], b.hist[slotId], id);
    if id in a.books.ca {
      QuietSynced(a.books.ca[id], id, a.programs, a.hist[slotId], b.hist[slotId]);
    }
    hide NumberOk, OnlyNumber, Synchronized;
    Delivered(a, b, slotId, id);
  }

  lemma DeliveredMmi(a: World, b: World, slotId: byte, id: u16)
    requires WorldOk(a) && Synchronized(a) && slotId < |a.slots| && Hosts(a.books.table, id, slotId, Mmi)
    requires b.books == a.books.(fragments := b.books.fragments) && b.programs == a.programs
    requires b.books.fragments - {id} == a.books.fragments - {id}
    requires Spoke(a.log, b.log, slotId) && AllPlain(a.log, b.log)
    requires |b.slots| == |b.hist| == |a.slots|
    requires OnlySlot(a.slots, b.slots, a.hist, b.hist, slotId) && Quiet(a.hist[slotId], b.hist[slotId])
    ensures WorldOk(b) && Synchronized(b) && SlotStep(a, b, slotId)
  {
    hide RegistryOk, Synced, Alternating, Announced, Believes, AllIssued, Quiet, ViewsKept, Told;
    assert NumberOk(a.books, id, a.hist, Announced(a.log));
    FragmentsOnly(a.books, b.books, id);
    QuietKept(a.hist[slotId], b.hist[slotId], id);
    hide NumberOk, OnlyNumber, Synchronized;
    Delivered(a, b, slotId, id);
  }

  lemma FragmentsOnly(a: Books, b: Books, id: u16)
    requires b == a.(fragments := b.fragments) && b.fragments - {id} == a.fragments - {id}
    ensures OnlyNumber(a, b, id)
  {
    forall other: u16 | other != id ensures SameAt(a, b, other) {
      assert other in b.fragments <==> other in b.fragments - {id};
      assert other in a.fragments <==> other in a.fragments - {id};
      if other in a.fragments {
        assert b.fragments[other] == (b.fragments - {id})[other] == (a.fragments - {id})[other];
      }
    }
  }

  /** The objects still to come, seen from the next one. */
  lemma DigestStep(d: Digest, kind: Kind, all: seq<Result<Apdu.Apdu>>, item: Option<Result<Apdu.Apdu>>,
                   rest: seq<Result<Apdu.Apdu>>)
    requires all == (if item == None then [] else [item.value]) + rest
    ensures item == None && rest == [] ==> DigestAll(d, kind, all) == d && !AsksClose(all)
    ensures item.Some? && item.value.Err? ==> DigestAll(d, kind, all) == d && !AsksClose(all)
    ensures item.Some? && item.value.Ok? ==>
              && DigestAll(d, kind, all)
                 == DigestAll(Digested(d, kind, item.value.value.tag, item.value.value.body), kind, rest)
              && (AsksClose(all) <==> item.value.value.tag == Apdu.CLOSE_MMI || AsksClose(rest))
  {
    if item.Some? {
      assert all[0] == item.value && all[1..] == rest;
    }
    hide Digested;
  }

  lemma NothingLeft()
    ensures Apdu.ParseAll([]) == [] && !AsksClose([])
  {
  }

  lemma DigestNothing(d: Digest, kind: Kind)
    ensures DigestAll(d, kind, []) == d
  {
  }

  predicate IsClosing(table: Table, id: u16, slotId: byte) {
    OnSlot(table, id, slotId) && Live(table, id).value.state == Closing
  }

  lemma SameDigest(a: Books, b: Books, id: u16)
    requires b == a.(table := b.table)
    ensures DigestOf(b, id) == DigestOf(a, id)
  {
  }

  lemma CloseRequestQuiet(before: TransportSlot, after: TransportSlot, h: History, h': History, id: u16, ok: bool)
    requires Handed(before, after, h, h', Item.Spdu(SpduCoding.BuildCloseSessionRequest(id)), ok)
    ensures Quiet(h, h')
  {
    var item := Item.Spdu(SpduCoding.BuildCloseSessionRequest(id));
    HandedIssued(before, after, h, h', item, ok);
    if ok {
      BelievesAppend(h.sent, item);
      ReadCloseRequest(Believes(h.sent), id);
    }
  }

  lemma CloseResponseKept(before: TransportSlot, after: TransportSlot, h: History, h': History,
                          status: byte, id: u16, ok: bool)
    requires Handed(before, after, h, h', Item.Spdu(SpduCoding.BuildCloseSessionResponse(status, id)), ok)
    ensures ViewsKept(h, h', id)
    ensures status != SpduCoding.SS_OK || !ok ==> Quiet(h, h')
  {
    var item := Item.Spdu(SpduCoding.BuildCloseSessionResponse(status, id));
    HandedIssued(before, after, h, h', item, ok);
    if ok {
      BelievesAppend(h.sent, item);
      ReadCloseResponse(Believes(h.sent), status, id);
    }
  }

  lemma BackedAt(w: World, id: u16)
    requires WorldOk(w)
    ensures EntriesBacked(w.books, id)
  {
    hide Announced;
    assert NumberOk(w.books, id, w.hist, Announced(w.log));
  }

  /** An MMI session starts or stops closing. */
  lemma StateStep(a: World, b: World, slotId: byte, id: u16, state: SessionState)
    requires WorldOk(a) && slotId < |a.slots| && Hosts(a.books.table, id, slotId, Mmi)
    requires b.books == a.books.(table := a.books.table[id - 1 := Some(Session(slotId, Mmi, state))])
    requires |b.slots| == |b.hist| == |a.slots| && b.programs == a.programs && b.log == a.log
    requires OnlySlot(a.slots, b.slots, a.hist, b.hist, slotId) && Quiet(a.hist[slotId], b.hist[slotId])
    ensures WorldOk(b) && SlotStep(a, b, slotId)
    ensures Synchronized(a) ==> Synchronized(b)
  {
    hide RegistryOk, Alternating, Announced, Quiet, ViewsKept, Believes, AllIssued, Synced;
    SilentSpoke(a.log, slotId);
    QuietIntact(a.hist[slotId], b.hist[slotId]);
    QuietKept(a.hist[slotId], b.hist[slotId], id);
    UpdateKeepsQuotas(a.books.table, |a.slots|, id - 1, Some(Session(slotId, Mmi, state)));
    assert NumberOk(a.books, id, a.hist, Announced(a.log));
    assert NumberOk(b.books, id, b.hist, Announced(b.log));
    assert OnlyNumber(a.books, b.books, id);
    hide Quotas, NumberOk, OnlyNumber;
    assert NumberStep(a, b, slotId, id);
    NumberStepIsSlotStep(a, b, slotId, id);
    Settle(a, b, slotId, id);
    if Synchronized(a) {
      SettleSync(a, b, slotId, id);
    }
  }

  /** A session is over and reported so. */
  lemma FreeStep(a: World, b: World, slotId: byte, id: u16)
    requires WorldOk(a) && slotId < |a.slots| && OnSlot(a.books.table, id, slotId)
    requires b.books == Freed(a.books, id) && RegistryOk(b.books.ca, b.programs)
    requires |b.slots| == |b.hist| == |a.slots| && b.programs == a.programs
    requires b.log == a.log + [SessionClosed(slotId, id, Id(Live(a.books.table, id).value.resource))]
    requires OnlySlot(a.slots, b.slots, a.hist, b.hist, slotId) && ViewsKept(a.hist[slotId], b.hist[slotId], id)
    ensures WorldOk(b) && SlotStep(a, b, slotId)
    ensures Synchronized(a) ==> Synchronized(b)
  {
    hide RegistryOk, Alternating, Announced, ViewsKept, Synced, Spoke;
    FreedNumber(a, b, slotId, id);
    FreedOnly(a.books, id);
    FreedQuotas(a.books, id, |a.slots|);
    OneSpoke(a.log, SessionClosed(slotId, id, Id(Live(a.books.table, id).value.resource)), slotId);
    FreedTold(a, b, slotId, id);
    hide Quotas, NumberOk, OnlyNumber, InfoTold, Freed;
    assert NumberStep(a, b, slotId, id);
    NumberStepIsSlotStep(a, b, slotId, id);
    Settle(a, b, slotId, id);
    if Synchronized(a) {
      FreedUnlisted(a.books, id);
      SettleSync(a, b, slotId, id);
    }
  }

  lemma FreedUnlisted(b: Books, id: u16)
    ensures id !in Freed(b, id).ca
  {
  }

  lemma FreedTold(a: World, b: World, slotId: byte, id: u16)
    requires WorldOk(a) && slotId < |b.hist| && OnSlot(a.books.table, id, slotId) && b.books == Freed(a.books, id)
    requires b.log == a.log + [SessionClosed(slotId, id, Id(Live(a.books.table, id).value.resource))]
    ensures InfoTold(a, b, slotId)
  {
    var kind := Live(a.books.table, id).value.resource;
    OneTold(a.log, SessionClosed(slotId, id, Id(kind)));
    if kind != ApplicationInformation && kind != ConditionalAccess {
      BackedAt(a, id);
      FreedInfo(a.books, id, slotId);
    }
  }

  lemma FreedNumber(a: World, b: World, slotId: byte, id: u16)
    requires WorldOk(a) && OnSlot(a.books.table, id, slotId) && b.books == Freed(a.books, id)
    requires b.log == a.log + [SessionClosed(slotId, id, Id(Live(a.books.table, id).value.resource))]
    ensures NumberOk(b.books, id, b.hist, Announced(b.log)) && Alternating(b.log)
    ensures Announced(b.log) - {id} == Announced(a.log) - {id}
  {
    assert NumberOk(a.books, id, a.hist, Announced(a.log));
    AnnouncedAppend(a.log, SessionClosed(slotId, id, Id(Live(a.books.table, id).value.resource)));
    hide Announced, Alternating;
    FreedOnly(a.books, id);
  }

  // ------------------------------------------------- what each SPDU must lead to

  /** What the host says first on a new session: it asks for the module's profile, its
      application information or its CAIDs, or tells the time. */
  ghost predicate Greeted(kind: Kind, id: u16, sent: seq<Item>, sent': seq<Item>) {
    match kind
    case ResourceManager => sent' == sent + [ApduItem(id, 0x9F_8010, [])]
    case ApplicationInformation => sent' == sent + [ApduItem(id, 0x9F_8020, [])]
    case ConditionalAccess => sent' == sent + [ApduItem(id, 0x9F_8030, [])]
    case DateTime => DT.TimeTold(sent, sent', id)
    case _ => sent' == sent
  }

  /** An open request is refused for the right reason, or gets the lowest free number and,
      unless a write fails, the first object of its resource. */
  ghost predicate OpenHandled(a: World, b: World, slotId: byte, resourceId: u32, ok: bool) {
    && slotId < |a.hist| && slotId < |b.hist|
    && var status := OpenStatus(a.books.table, slotId, resourceId);
       if status != SpduCoding.SS_OK then
         && b.books == a.books
         && (ok ==>
               && b.log == a.log + [SessionRefused(slotId, resourceId, status)]
               && var response := SpduCoding.BuildOpenSessionResponse(status, OfferedId(resourceId), 0);
                  b.hist[slotId].sent == a.hist[slotId].sent + [Item.Spdu(response)])
       else
         var index, kind := FirstFree(a.books.table), Lookup(resourceId).value;
         && b.books.table == Place(a.books.table, index, Session(slotId, kind, SessionState.Active))
         && index < 4080
         && (ok ==>
               && a.log + [SessionOpened(slotId, index + 1, Id(kind))] <= b.log
               && var response := SpduCoding.BuildOpenSessionResponse(SpduCoding.SS_OK, Id(kind), index + 1);
                  && a.hist[slotId].sent + [Item.Spdu(response)] <= b.hist[slotId].sent
                  && (b.hist[slotId].intact ==>
                        && b.log == a.log + [SessionOpened(slotId, index + 1, Id(kind))]
                        && Greeted(kind, index + 1, a.hist[slotId].sent + [Item.Spdu(response)],
                                   b.hist[slotId].sent)))
  }

  /** The resource the answer to an open request names: the host's version, if it has any. */
  function OfferedId(resourceId: u32): u32 {
    var kind := Lookup(resourceId);
    if kind == None then resourceId else Id(kind.value)
  }

  /** Objects reach the session they name, in order and up to the first damaged
      one, if it lives on this slot and its resource was told of it; unless a write
      fails, the application is told exactly what they say; the table changes only by a
      close_mmi. */
  predicate ApduHandled(a: World, b: World, slotId: byte, id: u16, data: seq<byte>, ok: bool) {
    if !OnSlot(a.books.table, id, slotId) then
      ok && b.books == a.books && b.log == a.log + [MalformedData(slotId)]
    else
      var live := Live(a.books.table, id).value;
      && (ok && Listed(a.books, id) ==>
            DigestOf(b.books, id) == DigestAll(DigestOf(a.books, id), live.resource, Apdu.ParseAll(data)))
      && (ok ==>
            b.books.table == if live.resource == Mmi && AsksClose(Apdu.ParseAll(data))
                             then a.books.table[id - 1 := Some(live.(state := Closing))] else a.books.table)
      && (ok && Listed(a.books, id) && slotId < |b.hist| && b.hist[slotId].intact ==>
            b.log == a.log + ReportsAll(live.resource, slotId, id, DigestOf(a.books, id).fragment,
                                        Apdu.ParseAll(data)))
  }

  lemma ApduStray(a: World, b: World, slotId: byte, id: u16, data: seq<byte>)
    requires !OnSlot(a.books.table, id, slotId) && b == a.(log := a.log + [MalformedData(slotId)])
    ensures ApduHandled(a, b, slotId, id, data, true)
  {
  }

  lemma ApduDelivered(a: World, b: World, slotId: byte, id: u16, data: seq<byte>, ok: bool, close: bool)
    requires OnSlot(a.books.table, id, slotId)
    requires var live := Live(a.books.table, id).value;
             ok ==>
               && (Listed(a.books, id) ==>
                     DigestOf(b.books, id) == DigestAll(DigestOf(a.books, id), live.resource, Apdu.ParseAll(data)))
               && (close <==> live.resource == Mmi && AsksClose(Apdu.ParseAll(data)))
               && b.books.table == (if close then a.books.table[id - 1 := Some(live.(state := Closing))]
                                    else a.books.table)
               && (Listed(a.books, id) && slotId < |b.hist| && b.hist[slotId].intact ==>
                     b.log == a.log + ReportsAll(live.resource, slotId, id, DigestOf(a.books, id).fragment,
                                                 Apdu.ParseAll(data)))
    ensures ApduHandled(a, b, slotId, id, data, ok)
  {
    hide DigestAll, Apdu.ParseAll, AsksClose, DigestOf, ReportsAll;
  }

  /** A close request frees the session if it lives on this slot. */
  predicate CloseHandled(a: World, b: World, slotId: byte, id: u16, ok: bool) {
    if !ok then b.books == a.books && b.log == a.log
    else
      var known := OnSlot(a.books.table, id, slotId);
      var status := if known then SpduCoding.SS_OK else SpduCoding.SS_NOT_ALLOCATED;
      && slotId < |a.hist| && slotId < |b.hist|
      && b.hist[slotId].sent
         == a.hist[slotId].sent + [Item.Spdu(SpduCoding.BuildCloseSessionResponse(status, id))]
      && if !known then
           b.books == a.books && b.log == a.log + [MalformedData(slotId)]
         else
           && b.books == Freed(a.books, id)
           && b.log == a.log + [SessionClosed(slotId, id, Id(Live(a.books.table, id).value.resource))]
  }

  /** A close response frees the session if the host is closing it; an unknown
      status reopens it. */
  predicate CompletionHandled(a: World, b: World, slotId: byte, id: u16, status: byte) {
    if !IsClosing(a.books.table, id, slotId) then
      b.books == a.books && b.log == a.log + [MalformedData(slotId)]
    else if status in {SpduCoding.SS_OK, SpduCoding.SS_NOT_ALLOCATED} then
      b.books == Freed(a.books, id) && b.log == a.log + [SessionClosed(slotId, id, Id(Mmi))]
    else
      && b.books == a.books.(table := a.books.table[id - 1 := Some(Session(slotId, Mmi, SessionState.Active))])
      && b.log == a.log + [MalformedData(slotId)]
  }

  ghost predicate SpduHandled(a: World, b: World, slotId: byte, data: seq<byte>, ok: bool) {
    match SpduCoding.Parse(data)
    case Err(_) => ok && b.books == a.books && b.log == a.log + [MalformedData(slotId)]
    case Ok(SessionNumber(id, apdu)) => ApduHandled(a, b, slotId, id, apdu, ok)
    case Ok(OpenSessionRequest(resourceId)) => OpenHandled(a, b, slotId, resourceId, ok)
    case Ok(CloseSessionRequest(id)) => CloseHandled(a, b, slotId, id, ok)
    case Ok(CloseSessionResponse(status, id)) => ok && CompletionHandled(a, b, slotId, id, status)
    case Ok(CreateSessionResponse(_, _, _)) => ok && b.books == a.books && b.log == a.log + [MalformedData(slotId)]
  }

  predicate Accepts(accept: seq<bool>, slotId: byte) {
    slotId < |accept| && accept[slotId]
  }

  ghost predicate Processed(a: World, b: World, recv: TransportRecv, accepted: bool, ok: bool) {
    match recv
    case TcReply(slotId) => b.books == a.books && b.log == a.log + [TransportReady(slotId)]
    case Whole(slotId, spdu) =>
      if accepted then SpduHandled(a, b, slotId, spdu, ok)
      else b.books == a.books && b.log == a.log + [MalformedData(slotId)]
    case Status(_) => b.books == a.books && b.log == a.log
    case Malformed(slotId) => b.books == a.books && b.log == a.log + [MalformedData(slotId)]
  }

  /** From the frame on the link to the new state: reassembly, then dispatch, then
      one write attempt. An unaccepted or partial SPDU moves nothing but the transport. */
  ghost predicate FrameHandled(a: World, b: World, slotId: byte, frame: seq<byte>, accepted: bool, ok: bool) {
    && slotId < |a.slots| == |b.slots| < 0x100
    && FrameSlotId(frame, |a.slots|) == Some(slotId)
    && var (t, recv) := Receive(a.slots[slotId], frame, |a.slots|);
       && recv.slotId == slotId && Incoming(t, b.slots[slotId])
       && (Processed(a, b, recv, accepted, ok) || Processed(a, b, recv, accepted, true))
       && (!(recv.Whole? && accepted) ==>
             && Flushed(t, b.slots[slotId], ok)
             && |a.hist| == |a.slots| == |b.hist|
             && b.hist[slotId].sent == a.hist[slotId].sent
             && b.hist[slotId].intact == (a.hist[slotId].intact && ok))
  }

  lemma SameSentQuiet(h: History, h': History)
    requires h'.sent == h.sent && h'.intact == h.intact && h'.swallowed == h.swallowed && h.trace <= h'.trace
    ensures Quiet(h, h')
  {
  }

  lemma LoggedQuiet(h: History, h': History, wrote: bool, ok: bool)
    requires Logged(h, h', wrote, ok)
    ensures Quiet(h, h') && h'.sent == h.sent && h'.intact == (h.intact && ok)
  {
  }

  /** A later write attempt does not undo what a frame led to. */
  lemma ProcessedAfter(a: World, b: World, c: World, recv: TransportRecv, accepted: bool, ok: bool)
    requires Processed(a, b, recv, accepted, ok)
    requires c.books == b.books && c.log == b.log && |c.hist| == |b.hist|
    requires recv.slotId < |c.hist| && c.hist[recv.slotId].sent == b.hist[recv.slotId].sent
    requires c.hist[recv.slotId].intact ==> b.hist[recv.slotId].intact
    ensures Processed(a, c, recv, accepted, ok)
  {
    hide Greeted, ReportsAll, DigestAll, SpduCoding.Parse, Apdu.ParseAll, AsksClose, OpenStatus, Freed, Place, DigestOf;
  }

  /** Only books and reports decide whether a frame was processed. */
  lemma ProcessedFrom(a: World, b: World, c: World, recv: TransportRecv, accepted: bool, ok: bool)
    requires Processed(b, c, recv, accepted, ok) && a.books == b.books && a.log == b.log && |a.hist| == |b.hist|
    requires recv.slotId < |b.hist| && b.hist[recv.slotId].sent == a.hist[recv.slotId].sent
    ensures Processed(a, c, recv, accepted, ok)
  {
    hide Greeted, ReportsAll, DigestAll, SpduCoding.Parse, Apdu.ParseAll, AsksClose, OpenStatus, Freed, Place, DigestOf;
  }

  lemma HandledHere(a: World, b: World, c: World, d: World, slotId: byte, frame: seq<byte>, recv: TransportRecv,
                    accepted: bool, done: bool, flushed: bool)
    requires |a.slots| == |b.slots| == |c.slots| == |d.slots| < 0x100 && slotId < |a.slots|
    requires |c.hist| == |d.hist|
    requires FrameSlotId(frame, |a.slots|) == Some(slotId) && recv.slotId == slotId
    requires (b.slots[slotId], recv) == Receive(a.slots[slotId], frame, |a.slots|)
    requires b.books == a.books && b.log == a.log && Processed(b, c, recv, accepted, done)
    requires !(recv.Whole? && accepted) ==> c.slots == b.slots && done
    requires d.books == c.books && d.log == c.log && |a.hist| == |b.hist|
    requires slotId < |b.hist| && b.hist[slotId].sent == a.hist[slotId].sent
    requires slotId < |d.hist| && d.hist[slotId].sent == c.hist[slotId].sent
    requires d.hist[slotId].intact ==> c.hist[slotId].intact
    requires if done then Flushed(c.slots[slotId], d.slots[slotId], flushed) else d == c
    requires Incoming(b.slots[slotId], c.slots[slotId])
    requires |a.hist| == |a.slots| == |d.hist|
    requires !(recv.Whole? && accepted) ==>
               && d.hist[slotId].sent == a.hist[slotId].sent
               && d.hist[slotId].intact == (a.hist[slotId].intact && flushed)
    ensures FrameHandled(a, d, slotId, frame, accepted, done && flushed)
  {
    ProcessedFrom(a, b, c, recv, accepted, done);
    ProcessedAfter(a, c, d, recv, accepted, done);
    hide Processed, Receive, FrameSlotId;
  }

  // ------------------------------------------------------------------- dropping

  /** Everything the slot had is gone and reported closed; nothing else changed. */
  ghost predicate SlotDropped(a: World, b: World, slotId: byte) {
    && |a.slots| == |b.slots| == |a.hist| == |b.hist| && slotId < |b.slots|
    && OnlySlot(a.slots, b.slots, a.hist, b.hist, slotId)
    && b.slots[slotId] == IDLE && b.hist[slotId] == NOTHING
    && (forall id: u16 :: !OnSlot(b.books.table, id, slotId))
    && OtherSlotsKept(a.books, b.books, slotId)
    && b.programs == a.programs
    && Spoke(a.log, b.log, slotId)
    && |b.log| == |a.log| + Used(a.books.table, slotId)
    && (forall i | |a.log| <= i < |b.log| :: b.log[i].SessionClosed?)
    && (Told(b.log[|a.log|..]) || NoLoss(a.books, b.books, slotId))
  }

  /** The log of a slot that is being dropped, as it was but no longer trusted. */
  function Doubt(a: World, w: World, slotId: byte): World
    requires slotId < |w.hist| && slotId < |a.hist|
  {
    w.(hist := w.hist[slotId := a.hist[slotId].(intact := false)])
  }

  /** The first `index` numbers have been gone through. */
  ghost predicate DroppedBelow(a: World, b: World, slotId: byte, index: nat) {
    && |a.slots| == |b.slots| == |a.hist| == |b.hist| && slotId < |b.hist|
    && b.slots[slotId] == IDLE && b.hist[slotId] == NOTHING
    && index <= |b.books.table|
    && WorldOk(Doubt(a, b, slotId)) && SlotStep(a, Doubt(a, b, slotId), slotId)
    && (Synchronized(a) ==> Synchronized(Doubt(a, b, slotId)))
    && (forall i | 0 <= i < index :: !On(b.books.table[i], slotId))
    && |b.log| + Used(b.books.table, slotId) == |a.log| + Used(a.books.table, slotId)
    && forall i | |a.log| <= i < |b.log| :: b.log[i].SessionClosed?
  }

  lemma DropStart(a: World, b: World, slotId: byte)
    requires WorldOk(a) && |a.slots| == |b.slots| == |b.hist| && slotId < |b.slots|
    requires OnlySlot(a.slots, b.slots, a.hist, b.hist, slotId)
    requires b.slots[slotId] == IDLE && b.hist[slotId] == NOTHING
    requires b.books == a.books && b.programs == a.programs && b.log == a.log
    ensures DroppedBelow(a, b, slotId, 0)
  {
    hide WorldOk, Synchronized, SlotStep, AllPlain, Spoke;
    WorldSizes(a);
    SilentSpoke(a.log, slotId);
    QuietStep(a, Doubt(a, b, slotId), slotId);
  }

  lemma DropBacked(a: World, b: World, slotId: byte, index: nat)
    requires DroppedBelow(a, b, slotId, index) && index < |b.books.table|
    ensures index < 0xFFFF && EntriesBacked(b.books, index + 1) && RegistryOk(b.books.ca, b.programs)
  {
    TableSize(Doubt(a, b, slotId));
    BackedAt(Doubt(a, b, slotId), index + 1);
  }

  lemma TableSize(w: World)
    requires WorldOk(w)
    ensures |w.books.table| <= 16 * |w.slots| <= 4080
  {
  }

  lemma DropNext(a: World, b: World, c: World, slotId: byte, index: nat)
    requires DroppedBelow(a, b, slotId, index) && index < |b.books.table| && index < 0xFFFF
    requires c.slots == b.slots && c.hist == b.hist && c.programs == b.programs
    requires RegistryOk(c.books.ca, c.programs)
    requires if On(b.books.table[index], slotId)
             then c.books == Freed(b.books, index + 1)
                  && c.log == b.log + [SessionClosed(slotId, index + 1, Id(b.books.table[index].value.resource))]
             else c.books == b.books && c.log == b.log
    ensures DroppedBelow(a, c, slotId, index + 1) && |c.books.table| == |b.books.table|
  {
    hide WorldOk, Synchronized, SlotStep, RegistryOk;
    if On(b.books.table[index], slotId) {
      var b', c' := Doubt(a, b, slotId), Doubt(a, c, slotId);
      OnlySlotRefl(b'.slots, b'.hist, slotId);
      ViewsKeptRefl(b'.hist[slotId], index + 1);
      FreeStep(b', c', slotId, index + 1);
      SlotStepTrans(a, b', c', slotId);
      UsedUpdate(b.books.table, index, None, slotId);
    }
  }

  lemma DropEnd(a: World, b: World, slotId: byte)
    requires DroppedBelow(a, b, slotId, |b.books.table|)
    ensures WorldOk(b) && SlotDropped(a, b, slotId)
    ensures Synchronized(a) ==> Synchronized(b)
  {
    var b' := Doubt(a, b, slotId);
    NoneLeft(b.books.table, slotId);
    forall id: u16 ensures !OnSlot(b.books.table, id, slotId) {
      if 0 < id <= |b.books.table| {
        assert !On(b.books.table[id - 1], slotId);
      }
    }
    hide Quotas, RegistryOk, Alternating, Announced, Synced, AllIssued, NoLoss, Told;
    Undoubt(a, b, slotId);
  }

  lemma {:induction false} NoneLeft(table: Table, slotId: int)
    requires forall i | 0 <= i < |table| :: !On(table[i], slotId)
    ensures Used(table, slotId) == 0
  {
    if table != [] {
      NoneLeft(table[..|table| - 1], slotId);
    }
  }

  /** Nothing depends on the log of a slot without sessions. */
  lemma Undoubt(a: World, b: World, slotId: byte)
    requires slotId < |a.hist| && slotId < |b.hist| && b.hist[slotId] == NOTHING && WorldOk(Doubt(a, b, slotId))
    requires forall id: u16 :: !OnSlot(b.books.table, id, slotId)
    ensures WorldOk(b)
    ensures Synchronized(Doubt(a, b, slotId)) ==> Synchronized(b)
  {
    hide Quotas, RegistryOk, Alternating, Announced, Synced;
    var b' := Doubt(a, b, slotId);
    forall id: u16 ensures NumberOk(b.books, id, b.hist, Announced(b.log)) {
      assert NumberOk(b.books, id, b'.hist, Announced(b'.log)) && !OnSlot(b.books.table, id, slotId);
    }
    forall s | 0 <= s < |b.hist| ensures WellIssued(b.hist[s]) {
      assert WellIssued(b'.hist[s]);
    }
    if Synchronized(b') {
      forall id | id in b.books.ca
        ensures b.books.ca[id].slotId < |b.hist|
        ensures Synced(b.books.ca[id], id, b.programs, b.hist[b.books.ca[id].slotId])
      {
        assert NumberOk(b.books, id, b'.hist, Announced(b'.log)) && !OnSlot(b.books.table, id, slotId);
      }
    }
  }

  // ----------------------------------------------------------- programs and time

  /** A change of the desired programs: sessions and CAIDs stay; slots outside the
      returned ones, all of which host a session, are untouched. */
  ghost predicate ProgramsChanged(a: World, b: World, r: Result<seq<u16>>) {
    && |a.slots| == |b.slots| == |a.hist| == |b.hist|
    && b.books == a.books.(ca := b.books.ca) && SameSessions(a.books.ca, b.books.ca) && b.log == a.log
    && EachIssued(a.hist, b.hist)
    && (r.Err? ==> IsLinkError(r.error))
    && (r.Ok? ==>
          && EachFine(a.hist, b.hist)
          && Ascending(r.value) && Hosted(r.value, b.books.ca)
          && OnlyTouched(a.slots, b.slots, a.hist, b.hist, Elements(r.value)))
  }

  lemma ProgramStep(a: World, b: World)
    requires WorldOk(a) && |b.slots| == |b.hist| == |a.slots|
    requires b.books == a.books.(ca := b.books.ca) && SameSessions(a.books.ca, b.books.ca) && b.log == a.log
    requires EachIssued(a.hist, b.hist) && RegistryOk(b.books.ca, b.programs)
    ensures WorldOk(b)
  {
    hide Quotas, RegistryOk, Alternating, Announced, AllIssued;
    forall id: u16 ensures NumberOk(b.books, id, b.hist, Announced(b.log)) {
      assert NumberOk(a.books, id, a.hist, Announced(a.log));
      assert id in b.books.ca <==> id in a.books.ca;
      if Live(a.books.table, id).Some? && Live(a.books.table, id).value.slotId < |b.hist| {
        assert StillIssued(a.hist[Live(a.books.table, id).value.slotId], b.hist[Live(a.books.table, id).value.slotId]);
      }
    }
    forall s | 0 <= s < |b.hist| ensures WellIssued(b.hist[s]) {
      assert WellIssued(a.hist[s]) && StillIssued(a.hist[s], b.hist[s]);
    }
  }

  /** The resource timers: only date-time sessions and their slots' traffic change. */
  ghost predicate Ticked(a: World, b: World) {
    && |a.slots| == |b.slots| == |a.hist| == |b.hist|
    && b.books == a.books.(dates := b.books.dates) && b.programs == a.programs && b.log == a.log
    && DT.SameHosts(a.books.dates, b.books.dates)
    && DT.OnlyHosts(b.books.dates, a.slots, b.slots, a.hist, b.hist)
  }

  lemma DatesOnSlots(w: World)
    requires WorldOk(w)
    ensures forall id | id in w.books.dates :: w.books.dates[id].slotId < |w.slots|
  {
    hide RegistryOk, Alternating, Announced, AllIssued;
    forall id | id in w.books.dates ensures w.books.dates[id].slotId < |w.slots| {
      assert NumberOk(w.books, id, w.hist, Announced(w.log));
      assert w.books.table[id - 1].Some?;
    }
  }

  lemma TickStep(a: World, b: World)
    requires WorldOk(a) && Ticked(a, b)
    ensures WorldOk(b)
    ensures Synchronized(a) ==> Synchronized(b)
  {
    hide Quotas, RegistryOk, Alternating, Announced, AllIssued, Believes, Synced;
    assert forall s | 0 <= s < |a.hist| :: Quiet(a.hist[s], b.hist[s]);
    forall id: u16 ensures NumberOk(b.books, id, b.hist, Announced(b.log)) {
      assert NumberOk(a.books, id, a.hist, Announced(a.log));
      assert id in b.books.dates <==> id in a.books.dates;
      if Live(a.books.table, id).Some? && Live(a.books.table, id).value.slotId < |b.hist| {
        assert Quiet(a.hist[Live(a.books.table, id).value.slotId], b.hist[Live(a.books.table, id).value.slotId]);
      }
    }
    forall s | 0 <= s < |b.hist| ensures WellIssued(b.hist[s]) {
      assert WellIssued(a.hist[s]) && Quiet(a.hist[s], b.hist[s]);
    }
    if Synchronized(a) {
      forall id | id in b.books.ca
        ensures b.books.ca[id].slotId < |b.hist|
        ensures Synced(b.books.ca[id], id, b.programs, b.hist[b.books.ca[id].slotId])
      {
        var s := b.books.ca[id].slotId;
        QuietSynced(b.books.ca[id], id, a.programs, a.hist[s], b.hist[s]);
      }
    }
  }

  // -------------------------------------------------------- queries and commands

  lemma CaidsNeedSession(w: World, slotId: byte, id: u16)
    requires WorldOk(w)
    ensures id in w.books.ca && w.books.ca[id].slotId == slotId ==>
              Live(w.books.table, id) == Some(Session(slotId, ConditionalAccess, SessionState.Active))
  {
    BackedAt(w, id);
  }

  lemma CaInformedLive(w: World, slotId: byte)
    requires WorldOk(w)
    ensures forall id: u16 | CaInformed(w.books.ca, slotId, id) :: 0 < id <= |w.books.table|
  {
    forall id: u16 | CaInformed(w.books.ca, slotId, id) ensures 0 < id <= |w.books.table| {
      BackedAt(w, id);
    }
  }

  predicate IsActive(table: Table, id: u16, slotId: byte, kind: Kind) {
    Live(table, id) == Some(Session(slotId, kind, SessionState.Active))
  }

  /** The session that identified itself is always an active one of the slot. */
  lemma InformedActive(w: World, slotId: byte, id: u16)
    requires WorldOk(w) && AI.Informed(w.books.app, slotId, id)
    ensures IsActive(w.books.table, id, slotId, ApplicationInformation)
  {
    BackedAt(w, id);
  }

  /** A command touches its slot's traffic only, and nothing at all when refused. */
  ghost predicate Commanded(a: World, b: World, slotId: byte, r: Result<()>) {
    && SlotStep(a, b, slotId) && StepFine(a, b, slotId, r)
    && b.books == a.books && b.log == a.log
    && (r == Err(InvalidProperty) ==> b == a)
    && (r.Err? && r.error != InvalidProperty ==> IsLinkError(r.error))
  }

  /** Exactly this one object was handed over. */
  predicate SentOne(a: World, b: World, slotId: byte, id: u16, tag: Apdu.ApduTag, body: seq<byte>) {
    && slotId < |a.hist| && slotId < |b.hist| && |body| < 0x1_0000
    && b.hist[slotId].sent == a.hist[slotId].sent + [ApduItem(id, tag, body)]
  }

  lemma CommandQuiet(before: TransportSlot, after: TransportSlot, h: History, h': History,
                     id: u16, tag: Apdu.ApduTag, body: seq<byte>, ok: bool)
    requires |body| < 0x1_0000 && Handed(before, after, h, h', ApduItem(id, tag, body), ok) && tag != Apdu.CA_PMT
    ensures Quiet(h, h') && Incoming(before, after)
    ensures ok ==> h'.sent == h.sent + [ApduItem(id, tag, body)]
  {
    ApduBelieved(before, after, h, h', id, tag, body, ok);
    hide Believes, ApduItem, AllIssued;
  }

  /** Only the slot's own traffic moves. */
  ghost predicate Controlled(a: World, b: World, slotId: byte) {
    SlotStep(a, b, slotId) && b.books == a.books && b.log == a.log && |b.hist| == |b.slots| == |a.slots|
  }

  lemma ControlBuilds(slotId: byte, tag: byte)
    requires slotId < 0xFF && tag in {CREATE_TC, RCV, DATA_LAST}
    ensures Build(slotId, tag, []).Ok?
  {
  }

  lemma ControlQuiet(before: TransportSlot, after: TransportSlot, h: History, h': History, tag: byte, ok: bool)
    requires Handed(before, after, h, h', Single(tag, []), ok) && tag in {CREATE_TC, RCV, DATA_LAST}
    ensures Quiet(h, h')
  {
    HandedIssued(before, after, h, h', Single(tag, []), ok);
    if ok {
      BelievesAppend(h.sent, Single(tag, []));
    }
  }

  // ---------------------------------------------------------- a write cut short

  /** A program that carries a CA descriptor for CAID 0x0B00. */
  const SCRAMBLED: Program := ProgramData(7, 0, [CaDescriptor(0x0B00, [0x09, 0x04, 0x0B, 0x00, 0xE1, 0x00])], [])

  /** One CA session on one slot, after a CA_INFO for 0x0B00 whose select was cut short:
      the session is confirmed, nothing is selected, and a data error is reported. */
  const CUT_SHORT: World :=
    World([IDLE], [History([Item.Spdu(SpduCoding.BuildOpenSessionResponse(SpduCoding.SS_OK, Id(ConditionalAccess), 1))],
                           [], false, true)],
          Books([Some(Session(0, ConditionalAccess, SessionState.Active))], map[],
                map[1 := CaSession(0, Some([0x0B00]), map[])], map[], map[]),
          map[7 := SCRAMBLED],
          [SessionOpened(0, 1, Id(ConditionalAccess)), MalformedData(0)])

  /** That world is in order as far as anybody can tell, but its selection is not what
      is wanted. */
  lemma CutShortDiverges()
    ensures WorldOk(CUT_SHORT) && Synchronized(CUT_SHORT) && Fine(CUT_SHORT.hist[0])
    ensures Missed(CUT_SHORT.books.ca[1])
    ensures CUT_SHORT.books.ca[1].selected != Wanted(CUT_SHORT.programs, CUT_SHORT.books.ca[1].caids)
  {
    CutShortWanted();
    CutShortAnnounced();
    CutShortFrame();
    hide Announced, Alternating, Wanted, Believes, Id, FrameOk;
    forall id: u16 ensures NumberOk(CUT_SHORT.books, id, CUT_SHORT.hist, Announced(CUT_SHORT.log)) {
    }
  }

  lemma CutShortFrame()
    ensures FrameOk(CUT_SHORT)
  {
    hide Matches, Id, SpduCoding.BuildOpenSessionResponse;
    UsedAppend([], CUT_SHORT.books.table[0], 0);
    assert [] + CUT_SHORT.books.table == CUT_SHORT.books.table;
  }

  lemma CutShortWanted()
    ensures 7 in Wanted(CUT_SHORT.programs, CUT_SHORT.books.ca[1].caids)
  {
    assert SCRAMBLED.descriptors[0].caid in [0x0B00];
    assert AnyMatches(SCRAMBLED.descriptors, [0x0B00]);
  }

  lemma CutShortAnnounced()
    ensures Announced(CUT_SHORT.log) == map[1 := (0, Id(ConditionalAccess))] && Alternating(CUT_SHORT.log)
  {
    var start := [SessionOpened(0, 1, Id(ConditionalAccess))];
    AnnouncedAppend([], start[0]);
    assert [] + start == start;
    PlainAnnounced(start, [MalformedData(0)]);
    assert CUT_SHORT.log == start + [MalformedData(0)];
  }
}
