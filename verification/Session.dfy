/** Session layer (EN 50221, section 7.2): one session table for all slots, the
    resources behind it, and the activity reported to the application. */
module Session {
  import opened Basics
  import opened CaPmt
  import opened Cam
  import opened ConditionalAccess
  import opened Events
  import opened Mmi
  import opened Registry
  import opened Reports
  import opened Resources
  import opened Sending
  import opened SessionSteps
  import opened SessionTable
  import opened Sorting
  import opened Tpdu
  import opened Transport
  import opened Wire
  import opened World
  import AI = ApplicationInformation
  import Apdu
  import DT = DateTime
  import HC = HostControl
  import RM = ResourceManager
  import SpduCoding = Spdu

  class CiSession {
    const transport: CiTransport
    const app: AI.ApplicationInfoResource
    const ca: ConditionalAccessResource
    const dates: DT.DateTimeResource
    const mmi: MmiResource
    var table: Table
    var events: seq<CaEvent>
    /** Events already taken by the application. */
    ghost var delivered: seq<CaEvent>

    ghost function Snapshot(): Books
      reads this, app, ca, dates, mmi
    {
      Books(table, app.sessions, ca.sessions, dates.sessions, mmi.fragments)
    }

    ghost function Now(): World
      reads this, transport, app, ca, dates, mmi
    {
      World(transport.slots, transport.hist, Snapshot(), ca.programs, delivered + events)
    }

    ghost predicate Valid()
      reads this, transport, transport.link`writes, app, ca, dates, mmi
    {
      transport.Valid() && app.Valid() && WorldOk(Now())
    }

    constructor (transport: CiTransport)
      requires transport.Valid() && forall s | 0 <= s < |transport.hist| :: WellIssued(transport.hist[s])
      ensures this.transport == transport && fresh(app) && fresh(ca) && fresh(dates) && fresh(mmi)
      ensures Valid() && Synchronized(Now())
      ensures Now() == World(transport.slots, transport.hist, Books([], map[], map[], map[], map[]), map[], [])
      ensures delivered == [] && events == []
    {
      this.transport := transport;
      app := new AI.ApplicationInfoResource();
      ca := new ConditionalAccessResource();
      dates := new DT.DateTimeResource();
      mmi := new MmiResource();
      table, events, delivered := [], [], [];
    }

    /** Takes the next queued event. */
    method NextEvent() returns (event: Option<CaEvent>)
      modifies this`events, this`delivered
      ensures Now() == old(Now())
      ensures event == if old(events) == [] then None else Some(old(events)[0])
      ensures events == if old(events) == [] then [] else old(events)[1..]
    {
      if events == [] {
        return None;
      }
      event := Some(events[0]);
      delivered := delivered + [events[0]];
      events := events[1..];
    }

    /** Frees the session and runs the resource's close callback. */
    method FreeSession(sessionId: u16)
      requires ca.Valid() && app.Valid() && EntriesBacked(Snapshot(), sessionId)
      modifies this`table, this`events, app`sessions, ca`sessions, dates, mmi
      ensures ca.Valid() && app.Valid()
      ensures Snapshot() == Freed(old(Snapshot()), sessionId)
      ensures var live := Live(old(table), sessionId);
              events == old(events) + if live == None then []
                                      else [SessionClosed(live.value.slotId, sessionId, Id(live.value.resource))]
    {
      var live := Live(table, sessionId);
      hide RegistryOk, AI.RevisionsOk;
      assert sessionId !in app.sessions ==> app.sessions - {sessionId} == app.sessions;
      assert sessionId !in ca.sessions ==> ca.sessions - {sessionId} == ca.sessions;
      assert sessionId !in dates.sessions ==> dates.sessions - {sessionId} == dates.sessions;
      assert sessionId !in mmi.fragments ==> mmi.fragments - {sessionId} == mmi.fragments;
      if live == None {
        return;
      }
      table := table[sessionId - 1 := None];
      match live.value.resource {
        case ApplicationInformation => app.OnClose(sessionId);
        case ConditionalAccess => ca.OnClose(sessionId);
        case DateTime => dates.OnClose(sessionId);
        case Mmi => mmi.OnClose(sessionId);
        case _ =>
      }
      events := events + [SessionClosed(live.value.slotId, sessionId, Id(live.value.resource))];
    }

    /** Takes the lowest free number while the slot is below its quota. */
    method AllocSession(slotId: byte, kind: Kind) returns (sessionId: Option<u16>)
      requires slotId < |transport.slots| < 0x100 && Quotas(table, |transport.slots|)
      modifies this`table
      ensures sessionId == None <==> Used(old(table), slotId) >= MAX_SLOT_SESSIONS
      ensures sessionId == None ==> table == old(table)
      ensures sessionId.Some? ==>
                && sessionId.value == FirstFree(old(table)) + 1
                && table == Place(old(table), FirstFree(old(table)), Session(slotId, kind, SessionState.Active))
                && Quotas(table, |transport.slots|) && |table| <= 4080
    {
      if Used(table, slotId) >= MAX_SLOT_SESSIONS {
        return None;
      }
      var index := FirstFree(table);
      PlaceKeepsQuotas(table, |transport.slots|, Session(slotId, kind, SessionState.Active));
      table := Place(table, index, Session(slotId, kind, SessionState.Active));
      return Some(index + 1);
    }

    // ------------------------------------------------------------ opening a session

    /** Refuses a session: a response, and a report once it is handed over. */
    method Refuse(slotId: byte, offered: u32, resourceId: u32, status: byte) returns (r: Result<()>)
      requires Valid() && slotId < |transport.slots| && status != SpduCoding.SS_OK
      modifies this`events, transport`slots, transport`hist, transport.link`writes
      ensures Valid() && SlotStep(old(Now()), Now(), slotId)
      ensures StepFine(old(Now()), Now(), slotId, r)
      ensures old(Synchronized(Now())) ==> Synchronized(Now())
      ensures Snapshot() == old(Snapshot())
      ensures r.Err? ==> IsLinkError(r.error) && Now().log == old(Now()).log
      ensures r.Ok? ==> Now().log == old(Now()).log + [SessionRefused(slotId, resourceId, status)]
      ensures r.Ok? ==>
                transport.hist[slotId].sent
                == old(transport.hist)[slotId].sent
                   + [Item.Spdu(SpduCoding.BuildOpenSessionResponse(status, offered, 0))]
      ensures old(transport.link.writes) <= transport.link.writes
    {
      hide AllSound, OnRecord, WorldOk, SlotStep, Synchronized, OnlySlot, Handed, Quiet, Spoke, AllPlain;
      ghost var a := Now();
      WorldSizes(a);
      var response := SpduCoding.BuildOpenSessionResponse(status, offered, 0);
      r := transport.SendSpdu(slotId, response);
      OnlySlotLengths(a.slots, transport.slots, a.hist, transport.hist, slotId);
      HandedSent(a.slots[slotId], transport.slots[slotId], a.hist[slotId], transport.hist[slotId],
                 Item.Spdu(response), r.Ok?);
      RefusalQuiet(a.slots[slotId], transport.slots[slotId], a.hist[slotId], transport.hist[slotId],
                   status, offered, r.Ok?);
      if r.Ok? {
        events := events + [SessionRefused(slotId, resourceId, status)];
        Reporting(delivered, old(events), SessionRefused(slotId, resourceId, status), slotId);
      } else {
        SilentSpoke(a.log, slotId);
      }
      QuietStep(a, Now(), slotId);
    }

    /** The resource's open callback. */
    method Introduce(slotId: byte, sessionId: u16, kind: Kind) returns (r: Result<()>)
      requires transport.Valid() && app.Valid() && ca.Valid() && slotId < |transport.slots| == |transport.hist|
      requires kind == ConditionalAccess ==> Shown(transport.hist[slotId], sessionId, map[])
      modifies app, ca`sessions, dates, transport`slots, transport`hist, transport.link`writes
      ensures transport.Valid() && app.Valid() && ca.Valid()
      ensures Snapshot() == Introduced(old(Snapshot()), slotId, sessionId, kind)
      ensures OnlySlot(old(transport.slots), transport.slots, old(transport.hist), transport.hist, slotId)
      ensures |transport.hist| == |transport.slots| == old(|transport.slots|)
      ensures Quiet(old(transport.hist)[slotId], transport.hist[slotId])
      ensures kind == ConditionalAccess ==>
                && sessionId in ca.sessions
                && Synced(ca.sessions[sessionId], sessionId, ca.programs, transport.hist[slotId])
      ensures Kept(old(transport.At(slotId)), transport.At(slotId), r)
      ensures r.Err? ==> IsLinkError(r.error) && !transport.hist[slotId].intact
      ensures r.Ok? ==> Greeted(kind, sessionId, old(transport.hist)[slotId].sent, transport.hist[slotId].sent)
    {
      OnlySlotRefl(transport.slots, transport.hist, slotId);
      QuietRefl(transport.hist[slotId]);
      hide AllSound, OnRecord, AI.RevisionsOk, RegistryOk, OnlySlot, Quiet, Synced, Shown;
      r := Ok(());
      match kind {
        case ResourceManager => r := RM.OnOpen(transport, slotId, sessionId);
        case ApplicationInformation => r := app.OnOpen(transport, slotId, sessionId);
        case ConditionalAccess => r := ca.OnOpen(transport, slotId, sessionId);
        case DateTime => r := dates.OnOpen(transport, slotId, sessionId);
        case _ =>
      }
    }

    /** Turns a resource's data error into a report; the slot keeps going. A short
        write is such an error, although it is the link that failed. */
    method ResourceResult(slotId: byte, result: Result<()>) returns (r: Result<()>)
      requires Valid() && slotId < |transport.slots|
      requires result == Err(ShortWrite) ==> !transport.hist[slotId].intact
      modifies this`events, transport`hist
      ensures Valid() && SlotStep(old(Now()), Now(), slotId)
      ensures StepFine(old(Now()), Now(), slotId, r)
      ensures old(Synchronized(Now())) ==> Synchronized(Now())
      ensures |transport.hist| == |transport.slots|
      ensures result == Err(InvalidData) ==>
                r == Ok(()) && Now() == old(Now()).(log := old(Now()).log + [MalformedData(slotId)])
      ensures result == Err(ShortWrite) ==>
                && r == Ok(())
                && Now() == old(Now()).(log := old(Now()).log + [MalformedData(slotId)],
                                        hist := old(transport.hist)[slotId :=
                                                  old(transport.hist)[slotId].(swallowed := true)])
      ensures result.Ok? || result.error !in {InvalidData, ShortWrite} ==> r == result && Now() == old(Now())
    {
      hide AllSound, OnRecord, AI.RevisionsOk, WorldOk, SlotStep, Synchronized;
      ghost var a := Now();
      WorldSizes(a);
      if result.Err? && (result.error == InvalidData || result.error == ShortWrite) {
        events := events + [MalformedData(slotId)];
        Reporting(delivered, old(events), MalformedData(slotId), slotId);
        if result.error == ShortWrite {
          transport.Swallow(slotId);
          SwallowStep(a, Now(), slotId);
        } else {
          OnlySlotRefl(a.slots, a.hist, slotId);
          QuietRefl(a.hist[slotId]);
          QuietStep(a, Now(), slotId);
        }
        return Ok(());
      }
      SlotStepRefl(a, slotId);
      return result;
    }

    /** Confirms a session that was just given its number, and introduces it to its resource. */
    method Accept(slotId: byte, sessionId: u16, kind: Kind, ghost a: World) returns (r: Result<()>)
      requires transport.Valid() && app.Valid() && WorldOk(a) && slotId < |a.slots|
      requires Live(a.books.table, sessionId) == None
      requires Live(table, sessionId) == Some(Session(slotId, kind, SessionState.Active))
      requires Quotas(table, |a.slots|) && OnlyNumber(a.books, Snapshot(), sessionId)
      requires Now() == a.(books := a.books.(table := table))
      modifies this`events, app, ca`sessions, dates, transport`slots, transport`hist, transport.link`writes
      ensures Valid() && SlotStep(a, Now(), slotId)
      ensures StepFine(old(Now()), Now(), slotId, r)
      ensures Synchronized(a) ==> Synchronized(Now())
      ensures table == old(table)
      ensures r.Err? ==> IsLinkError(r.error)
      ensures r.Ok? ==> a.log + [SessionOpened(slotId, sessionId, Id(kind))] <= Now().log
      ensures slotId < |transport.hist|
      ensures r.Ok? ==>
                a.hist[slotId].sent
                + [Item.Spdu(SpduCoding.BuildOpenSessionResponse(SpduCoding.SS_OK, Id(kind), sessionId))]
                <= transport.hist[slotId].sent
      ensures r.Ok? && transport.hist[slotId].intact ==>
                && Now().log == a.log + [SessionOpened(slotId, sessionId, Id(kind))]
                && Greeted(kind, sessionId,
                           a.hist[slotId].sent
                           + [Item.Spdu(SpduCoding.BuildOpenSessionResponse(SpduCoding.SS_OK, Id(kind), sessionId))],
                           transport.hist[slotId].sent)
      ensures old(transport.link.writes) <= transport.link.writes
    {
      hide AllSound, OnRecord, AI.RevisionsOk, WorldOk, SlotStep, Synchronized, OnlySlot, Handed, Quiet, ViewsKept,
        Shown, Synced, Quotas, OnlyNumber, Live, RegistryOk, Introduced, Greeted;
      WorldSizes(a);
      var response := SpduCoding.BuildOpenSessionResponse(SpduCoding.SS_OK, Id(kind), sessionId);
      r := transport.SendSpdu(slotId, response);
      OnlySlotLengths(a.slots, transport.slots, a.hist, transport.hist, slotId);
      OpenBelieved(a.slots[slotId], transport.slots[slotId], a.hist[slotId], transport.hist[slotId],
                   sessionId, kind, r.Ok?);
      HandedSent(a.slots[slotId], transport.slots[slotId], a.hist[slotId], transport.hist[slotId],
                 Item.Spdu(response), r.Ok?);
      if r.Err? {
        AllocatedOnly(a, Now(), slotId, sessionId, kind);
        return;
      }
      r := Confirm(slotId, sessionId, kind, a);
    }

    /** The module knows the number: report the session and introduce it. */
    method Confirm(slotId: byte, sessionId: u16, kind: Kind, ghost a: World) returns (r: Result<()>)
      requires transport.Valid() && app.Valid() && WorldOk(a) && slotId < |a.slots|
      requires Live(a.books.table, sessionId) == None && OnlyNumber(a.books, Snapshot(), sessionId)
      requires Live(table, sessionId) == Some(Session(slotId, kind, SessionState.Active))
      requires Quotas(table, |a.slots|)
      requires Snapshot() == a.books.(table := table) && ca.programs == a.programs && delivered + events == a.log
      requires OnlySlot(a.slots, transport.slots, a.hist, transport.hist, slotId)
      requires ViewsKept(a.hist[slotId], transport.hist[slotId], sessionId)
      requires kind == ConditionalAccess ==> Shown(transport.hist[slotId], sessionId, map[])
      modifies this`events, app, ca`sessions, dates, transport`slots, transport`hist, transport.link`writes
      ensures Valid() && SlotStep(a, Now(), slotId)
      ensures StepFine(old(Now()), Now(), slotId, r)
      ensures Synchronized(a) ==> Synchronized(Now())
      ensures r.Err? ==> IsLinkError(r.error)
      ensures a.log + [SessionOpened(slotId, sessionId, Id(kind))] <= Now().log
      ensures slotId < |transport.hist| && old(transport.hist)[slotId].sent <= transport.hist[slotId].sent
      ensures transport.hist[slotId].intact ==>
                && Now().log == a.log + [SessionOpened(slotId, sessionId, Id(kind))]
                && Greeted(kind, sessionId, old(transport.hist)[slotId].sent, transport.hist[slotId].sent)
      ensures old(transport.link.writes) <= transport.link.writes
    {
      hide AllSound, OnRecord, AI.RevisionsOk, WorldOk, SlotStep, Synchronized, OnlySlot, Quiet, ViewsKept, Shown,
        Synced, Quotas, OnlyNumber, Live, RegistryOk, Introduced, Greeted;
      WorldSizes(a);
      OnlySlotLengths(a.slots, transport.slots, a.hist, transport.hist, slotId);
      ghost var slots, hist := transport.slots, transport.hist;
      events := events + [SessionOpened(slotId, sessionId, Id(kind))];
      r := Introduce(slotId, sessionId, kind);
      OnlySlotTrans(a.slots, slots, transport.slots, a.hist, hist, transport.hist, slotId);
      QuietKept(hist[slotId], transport.hist[slotId], sessionId);
      ViewsKeptTrans(a.hist[slotId], hist[slotId], transport.hist[slotId], sessionId);
      Accepted(a, Now(), slotId, sessionId, kind);
      ghost var b := Now();
      r := ResourceResult(slotId, r);
      SlotStepTrans(a, b, Now(), slotId);
      QuietGrown(hist[slotId], b.hist[slotId]);
      StepGrown(b, Now(), slotId);
    }

    /** Handles open_session_request. */
    method OpenSession(slotId: byte, resourceId: u32) returns (r: Result<()>)
      requires Valid() && slotId < |transport.slots|
      modifies this`table, this`events, app, ca`sessions, dates, transport`slots, transport`hist,
        transport.link`writes
      ensures Valid() && SlotStep(old(Now()), Now(), slotId)
      ensures StepFine(old(Now()), Now(), slotId, r)
      ensures old(Synchronized(Now())) ==> Synchronized(Now())
      ensures r.Err? ==> IsLinkError(r.error)
      ensures OpenHandled(old(Now()), Now(), slotId, resourceId, r.Ok?)
      ensures old(transport.link.writes) <= transport.link.writes
    {
      hide AllSound, OnRecord, AI.RevisionsOk, WorldOk, SlotStep, Synchronized, OnlyNumber, Quotas, Greeted;
      WorldSizes(Now());
      var kind := Lookup(resourceId);
      if kind == None {
        r := Refuse(slotId, resourceId, resourceId, SpduCoding.SS_NOT_ALLOCATED);
        return;
      }
      if Version(resourceId) > Version(Id(kind.value)) {
        r := Refuse(slotId, Id(kind.value), resourceId, SpduCoding.SS_LOWER_VERSION);
        return;
      }
      ghost var a := Now();
      var sessionId := AllocSession(slotId, kind.value);
      if sessionId == None {
        r := Refuse(slotId, Id(kind.value), resourceId, SpduCoding.SS_BUSY);
        return;
      }
      PlacedNumber(a.books, Snapshot(), Session(slotId, kind.value, SessionState.Active));
      r := Accept(slotId, sessionId.value, kind.value, a);
    }

    // ------------------------------------------------------------- incoming objects

    /** An object for a Conditional Access session. */
    method DeliverCa(slotId: byte, sessionId: u16, tag: Apdu.ApduTag, body: seq<byte>) returns (r: Result<()>)
      requires Valid() && Synchronized(Now()) && slotId < |transport.slots|
      requires Hosts(table, sessionId, slotId, ConditionalAccess)
      modifies this`events, ca`sessions, transport`slots, transport`hist, transport.link`writes
      ensures Valid() && Synchronized(Now()) && SlotStep(old(Now()), Now(), slotId) && table == old(table)
      ensures StepFine(old(Now()), Now(), slotId, r)
      ensures transport.hist[slotId].swallowed == old(transport.hist)[slotId].swallowed
      ensures Listed(old(Snapshot()), sessionId) ==>
                && Listed(Snapshot(), sessionId)
                && DigestOf(Snapshot(), sessionId)
                   == Digested(DigestOf(old(Snapshot()), sessionId), ConditionalAccess, tag, body)
      ensures r.Err? && IsLinkError(r.error) ==> sessionId in ca.sessions && Missed(ca.sessions[sessionId])
      ensures r.Err? ==> r.error == InvalidData || (IsLinkError(r.error) && !transport.hist[slotId].intact)
      ensures Faulted(old(transport.link.writes), transport.link.writes, r)
      ensures Uncut(r) && Listed(old(Snapshot()), sessionId) ==>
                Now().log + Refusal(slotId, r)
                == old(Now()).log
                   + ObjectReports(ConditionalAccess, slotId, sessionId, DigestOf(old(Snapshot()), sessionId).fragment,
                                   Apdu.Apdu(tag, body))
    {
      hide AllSound, OnRecord, AI.RevisionsOk, WorldOk, SlotStep, Synchronized, OnlySlot, ViewsKept, Synced,
        RegistryOk, Live, ParseCaInfo, Spoke, AllPlain, Told, Hosts, OnSlot, Kept, Faulted, Blameless, Incoming;
      ghost var a := Now();
      WorldSizes(a);
      SyncedAt(a, sessionId, slotId, ConditionalAccess);
      var more;
      r, more := ca.OnApdu(transport, slotId, sessionId, tag, body);
      KeptParts(old(transport.At(slotId)), transport.At(slotId), r);
      events := events + more;
      if more == [] {
        assert delivered + events == a.log;
        SilentSpoke(a.log, slotId);
      } else {
        Reporting(delivered, old(events), more[0], slotId);
        assert events == old(events) + [more[0]];
        OneTold(a.log, more[0]);
      }
      HostsOnSlot(table, sessionId, slotId, ConditionalAccess);
      DeliveredCa(a, Now(), slotId, sessionId);
      ViewsKeptLog(a.hist[slotId], transport.hist[slotId], sessionId);
      if Listed(a.books, sessionId) {
        KnownIfListed(a.books, sessionId, slotId, ConditionalAccess);
        StillListed(a.books, Snapshot(), sessionId);
      }
    }

    /** An object for an Application Information session. */
    method DeliverApp(slotId: byte, sessionId: u16, tag: Apdu.ApduTag, body: seq<byte>) returns (r: Result<()>)
      requires Valid() && Synchronized(Now()) && slotId < |transport.slots|
      requires Hosts(table, sessionId, slotId, ApplicationInformation)
      modifies this`events, app
      ensures Valid() && Synchronized(Now()) && SlotStep(old(Now()), Now(), slotId) && table == old(table)
      ensures StepFine(old(Now()), Now(), slotId, r)
      ensures transport.hist[slotId].swallowed == old(transport.hist)[slotId].swallowed
      ensures Listed(old(Snapshot()), sessionId) ==>
                && Listed(Snapshot(), sessionId)
                && DigestOf(Snapshot(), sessionId)
                   == Digested(DigestOf(old(Snapshot()), sessionId), ApplicationInformation, tag, body)
      ensures r.Err? ==> r.error == InvalidData || (IsLinkError(r.error) && !transport.hist[slotId].intact)
      ensures Faulted(old(transport.link.writes), transport.link.writes, r)
      ensures Uncut(r) && Listed(old(Snapshot()), sessionId) ==>
                Now().log + Refusal(slotId, r)
                == old(Now()).log
                   + ObjectReports(ApplicationInformation, slotId, sessionId,
                                   DigestOf(old(Snapshot()), sessionId).fragment, Apdu.Apdu(tag, body))
    {
      hide AllSound, OnRecord, AI.RevisionsOk, WorldOk, SlotStep, Synchronized, RegistryOk, Live, Hosts, OnSlot,
        Spoke, AllPlain, Told;
      ghost var a := Now();
      WorldSizes(a);
      HostsOnSlot(table, sessionId, slotId, ApplicationInformation);
      var more;
      r, more := app.OnApdu(slotId, sessionId, tag, body);
      events := events + more;
      if more == [] {
        assert delivered + events == a.log;
        SilentSpoke(a.log, slotId);
        SlotStepRefl(a, slotId);
        assert Now() == a;
      } else {
        Reporting(delivered, old(events), more[0], slotId);
        assert events == old(events) + [more[0]];
        OneTold(a.log, more[0]);
        DeliveredApp(a, Now(), slotId, sessionId);
      }
      if Listed(a.books, sessionId) {
        KnownIfListed(a.books, sessionId, slotId, ApplicationInformation);
        StillListed(a.books, Snapshot(), sessionId);
      }
    }

    /** An object for a Date-Time session. */
    method DeliverDates(slotId: byte, sessionId: u16, tag: Apdu.ApduTag, body: seq<byte>) returns (r: Result<()>)
      requires Valid() && Synchronized(Now()) && slotId < |transport.slots|
      requires Hosts(table, sessionId, slotId, DateTime)
      modifies this`events, dates, transport`slots, transport`hist, transport.link`writes
      ensures Valid() && Synchronized(Now()) && SlotStep(old(Now()), Now(), slotId) && table == old(table)
      ensures StepFine(old(Now()), Now(), slotId, r)
      ensures transport.hist[slotId].swallowed == old(transport.hist)[slotId].swallowed
      ensures Listed(old(Snapshot()), sessionId) ==>
                && Listed(Snapshot(), sessionId)
                && DigestOf(Snapshot(), sessionId)
                   == Digested(DigestOf(old(Snapshot()), sessionId), DateTime, tag, body)
      ensures r.Err? ==> r.error == InvalidData || (IsLinkError(r.error) && !transport.hist[slotId].intact)
      ensures Faulted(old(transport.link.writes), transport.link.writes, r)
      ensures Uncut(r) && Listed(old(Snapshot()), sessionId) ==>
                Now().log + Refusal(slotId, r)
                == old(Now()).log
                   + ObjectReports(DateTime, slotId, sessionId, DigestOf(old(Snapshot()), sessionId).fragment,
                                   Apdu.Apdu(tag, body))
    {
      hide AllSound, OnRecord, AI.RevisionsOk, WorldOk, SlotStep, Synchronized, RegistryOk, Live, Hosts, OnSlot,
        Spoke, AllPlain, OnlySlot, Quiet;
      ghost var a := Now();
      WorldSizes(a);
      HostsOnSlot(table, sessionId, slotId, DateTime);
      r := dates.OnApdu(transport, slotId, sessionId, tag, body);
      QuietGrown(a.hist[slotId], transport.hist[slotId]);
      QuietIntact(a.hist[slotId], transport.hist[slotId]);
      SilentSpoke(a.log, slotId);
      DeliveredDates(a, Now(), slotId, sessionId);
      if Listed(a.books, sessionId) {
        KnownIfListed(a.books, sessionId, slotId, DateTime);
        StillListed(a.books, Snapshot(), sessionId);
      }
    }

    /** An object for an MMI session; `close` asks to close the session. */
    method DeliverMmi(slotId: byte, sessionId: u16, tag: Apdu.ApduTag, body: seq<byte>)
      returns (r: Result<()>, close: bool)
      requires Valid() && Synchronized(Now()) && slotId < |transport.slots|
      requires Hosts(table, sessionId, slotId, Mmi)
      modifies this`events, mmi, transport`slots, transport`hist, transport.link`writes
      ensures Valid() && Synchronized(Now()) && SlotStep(old(Now()), Now(), slotId) && table == old(table)
      ensures StepFine(old(Now()), Now(), slotId, r)
      ensures transport.hist[slotId].swallowed == old(transport.hist)[slotId].swallowed
      ensures Listed(old(Snapshot()), sessionId) ==>
                && Listed(Snapshot(), sessionId)
                && DigestOf(Snapshot(), sessionId) == Digested(DigestOf(old(Snapshot()), sessionId), Mmi, tag, body)
      ensures r.Err? ==> r.error == InvalidData || (IsLinkError(r.error) && !transport.hist[slotId].intact)
      ensures close <==> tag == Apdu.CLOSE_MMI
      ensures Faulted(old(transport.link.writes), transport.link.writes, r)
      ensures Uncut(r) && Listed(old(Snapshot()), sessionId) ==>
                Now().log + Refusal(slotId, r)
                == old(Now()).log
                   + ObjectReports(Mmi, slotId, sessionId, DigestOf(old(Snapshot()), sessionId).fragment,
                                   Apdu.Apdu(tag, body))
    {
      hide AllSound, OnRecord, AI.RevisionsOk, WorldOk, SlotStep, Synchronized, RegistryOk, Live, Hosts, OnSlot,
        Spoke, AllPlain, OnlySlot, Quiet, MenuOf, Kept, Faulted, Dialogue, ObjectReports;
      ghost var a := Now();
      WorldSizes(a);
      HostsOnSlot(table, sessionId, slotId, Mmi);
      var more;
      r, more, close := mmi.OnApdu(transport, slotId, sessionId, tag, body);
      KeptParts(old(transport.At(slotId)), transport.At(slotId), r);
      MmiReports(slotId, a.books, sessionId, Apdu.Apdu(tag, body));
      QuietGrown(a.hist[slotId], transport.hist[slotId]);
      events := events + more;
      ManySpoke(delivered, old(events), more, slotId);
      Assoc3(delivered, old(events), more, Refusal(slotId, r));
      DeliveredMmi(a, Now(), slotId, sessionId);
      if Listed(a.books, sessionId) {
        StillListed(a.books, Snapshot(), sessionId);
      }
    }

    /** One object for a session of any resource. */
    method Deliver(slotId: byte, sessionId: u16, kind: Kind, tag: Apdu.ApduTag, body: seq<byte>)
      returns (r: Result<()>, close: bool)
      requires Valid() && Synchronized(Now()) && slotId < |transport.slots|
      requires Hosts(table, sessionId, slotId, kind)
      modifies this`events, app, ca`sessions, dates, mmi, transport`slots, transport`hist, transport.link`writes
      ensures Valid() && Synchronized(Now()) && SlotStep(old(Now()), Now(), slotId) && table == old(table)
      ensures StepFine(old(Now()), Now(), slotId, r)
      ensures transport.hist[slotId].swallowed == old(transport.hist)[slotId].swallowed
      ensures Listed(old(Snapshot()), sessionId) ==>
                && Listed(Snapshot(), sessionId)
                && DigestOf(Snapshot(), sessionId) == Digested(DigestOf(old(Snapshot()), sessionId), kind, tag, body)
      ensures kind == ConditionalAccess && r.Err? && IsLinkError(r.error) ==>
                sessionId in ca.sessions && Missed(ca.sessions[sessionId])
      ensures r.Err? ==> r.error == InvalidData || (IsLinkError(r.error) && !transport.hist[slotId].intact)
      ensures close <==> kind == Mmi && tag == Apdu.CLOSE_MMI
      ensures Faulted(old(transport.link.writes), transport.link.writes, r)
      ensures Uncut(r) && Listed(old(Snapshot()), sessionId) ==>
                Now().log + Refusal(slotId, r)
                == old(Now()).log
                   + ObjectReports(kind, slotId, sessionId, DigestOf(old(Snapshot()), sessionId).fragment,
                                   Apdu.Apdu(tag, body))
    {
      close := false;
      hide AllSound, OnRecord, AI.RevisionsOk, WorldOk, SlotStep, Synchronized, Hosts, OnlySlot, Quiet, Spoke,
        AllPlain, DigestOf;
      match kind {
        case ApplicationInformation => r := DeliverApp(slotId, sessionId, tag, body);
        case ConditionalAccess => r := DeliverCa(slotId, sessionId, tag, body);
        case DateTime => r := DeliverDates(slotId, sessionId, tag, body);
        case Mmi => r, close := DeliverMmi(slotId, sessionId, tag, body);
        case HostControl => r := DeliverRequest(slotId, sessionId, tag, body);
        case ResourceManager => r := DeliverProfile(slotId, sessionId, tag, body);
      }
    }

    /** An object for a Host Control session. */
    method DeliverRequest(slotId: byte, sessionId: u16, tag: Apdu.ApduTag, body: seq<byte>)
      returns (r: Result<()>)
      requires Valid() && slotId < |transport.slots|
      modifies this`events
      ensures Valid() && SlotStep(old(Now()), Now(), slotId)
      ensures StepFine(old(Now()), Now(), slotId, r)
      ensures old(Synchronized(Now())) ==> Synchronized(Now())
      ensures r.Err? ==> r.error == InvalidData
      ensures var request := HC.OnApdu(slotId, tag, body);
              Now() == if request.Ok? then old(Now()).(log := old(Now()).log + [request.value]) else old(Now())
      ensures Now().log + Refusal(slotId, r)
           == old(Now()).log + ObjectReports(HostControl, slotId, sessionId, None, Apdu.Apdu(tag, body))
    {
      hide AllSound, OnRecord, AI.RevisionsOk, WorldOk, SlotStep, Synchronized, OnlySlot, Quiet, Spoke, AllPlain;
      r := Ok(());
      var request := HC.OnApdu(slotId, tag, body);
      WorldSizes(Now());
      if request.Err? {
        SlotStepRefl(Now(), slotId);
        return Err(request.error);
      }
      Report(slotId, request.value);
    }

    /** An object for a Resource Manager session. */
    method DeliverProfile(slotId: byte, sessionId: u16, tag: Apdu.ApduTag, ghost body: seq<byte>)
      returns (r: Result<()>)
      requires Valid() && slotId < |transport.slots|
      modifies transport`slots, transport`hist, transport.link`writes
      ensures Valid() && SlotStep(old(Now()), Now(), slotId)
      ensures StepFine(old(Now()), Now(), slotId, r)
      ensures old(Synchronized(Now())) ==> Synchronized(Now())
      ensures transport.hist[slotId].swallowed == old(transport.hist)[slotId].swallowed
      ensures r.Err? ==> r.error == InvalidData || (IsLinkError(r.error) && !transport.hist[slotId].intact)
      ensures Faulted(old(transport.link.writes), transport.link.writes, r)
      ensures Uncut(r) ==>
                Now().log + Refusal(slotId, r)
                == old(Now()).log + ObjectReports(ResourceManager, slotId, sessionId, None, Apdu.Apdu(tag, body))
    {
      hide AllSound, OnRecord, AI.RevisionsOk, WorldOk, SlotStep, Synchronized, OnlySlot, Quiet, Spoke, AllPlain;
      ghost var a := Now();
      WorldSizes(a);
      r := RM.OnApdu(transport, slotId, sessionId, tag);
      QuietGrown(a.hist[slotId], transport.hist[slotId]);
      SilentSpoke(a.log, slotId);
      QuietStep(a, Now(), slotId);
    }

    /** Queues an event that neither opens nor closes a session. */
    method Report(slotId: byte, event: CaEvent)
      requires Valid() && slotId < |transport.slots| && About(event, slotId) && Plain(event)
      modifies this`events
      ensures Valid() && SlotStep(old(Now()), Now(), slotId)
      ensures old(Synchronized(Now())) ==> Synchronized(Now())
      ensures Now() == old(Now()).(log := old(Now()).log + [event])
    {
      hide AllSound, OnRecord, AI.RevisionsOk, WorldOk, SlotStep, Synchronized, OnlySlot, Quiet, Spoke, AllPlain;
      ghost var a := Now();
      WorldSizes(a);
      events := events + [event];
      Reporting(delivered, old(events), event, slotId);
      OnlySlotRefl(a.slots, a.hist, slotId);
      QuietRefl(a.hist[slotId]);
      QuietStep(a, Now(), slotId);
    }

    /** All objects of one payload, in order, up to the first damaged one. */
    method DeliverAll(slotId: byte, sessionId: u16, kind: Kind, data: seq<byte>)
      returns (r: Result<()>, close: bool)
      requires Valid() && Synchronized(Now()) && slotId < |transport.slots|
      requires Hosts(table, sessionId, slotId, kind)
      modifies this`events, app, ca`sessions, dates, mmi, transport`slots, transport`hist, transport.link`writes
      ensures Valid() && Synchronized(Now()) && SlotStep(old(Now()), Now(), slotId) && table == old(table)
      ensures StepFine(old(Now()), Now(), slotId, r)
      ensures r.Ok? && Listed(old(Snapshot()), sessionId) ==>
                && Listed(Snapshot(), sessionId)
                && DigestOf(Snapshot(), sessionId)
                   == DigestAll(DigestOf(old(Snapshot()), sessionId), kind, Apdu.ParseAll(data))
      ensures r.Err? ==> r.error == Io && !transport.hist[slotId].intact
      ensures Faults(old(transport.link.writes)) <= Faults(transport.link.writes)
      ensures transport.hist[slotId].intact ==> Faults(transport.link.writes) == Faults(old(transport.link.writes))
      ensures Faults(transport.link.writes) == Faults(old(transport.link.writes))
              && Listed(old(Snapshot()), sessionId) ==>
                r.Ok?
                && Now().log == old(Now()).log + ReportsAll(kind, slotId, sessionId,
                                                            DigestOf(old(Snapshot()), sessionId).fragment,
                                                            Apdu.ParseAll(data))
      ensures r.Ok? ==> (close <==> kind == Mmi && AsksClose(Apdu.ParseAll(data)))
      ensures old(transport.link.writes) <= transport.link.writes
    {
      hide AllSound, OnRecord, AI.RevisionsOk, WorldOk, SlotStep, Synchronized, Hosts, OnlySlot, Quiet, Spoke,
        AllPlain, DigestOf, DigestAll, AsksClose, Digested, Apdu.ParseAll, ReportsAll, Faults;
      ghost var a := Now();
      WorldSizes(a);
      SlotStepRefl(a, slotId);
      NothingLeft();
      close := false;
      r := Ok(());
      var objects := new Apdu.ApduIter(data);
      while objects.data != []
        invariant Valid() && Synchronized(Now()) && SlotStep(a, Now(), slotId) && table == old(table) && r.Ok?
        invariant StepFine(a, Now(), slotId, r)
        invariant |transport.slots| == |transport.hist| == old(|transport.slots|)
        invariant Listed(a.books, sessionId) ==>
                    && Listed(Snapshot(), sessionId)
                    && DigestAll(DigestOf(Snapshot(), sessionId), kind, Apdu.ParseAll(objects.data))
                       == DigestAll(DigestOf(a.books, sessionId), kind, Apdu.ParseAll(data))
        invariant old(transport.link.writes) <= transport.link.writes
        invariant Faults(old(transport.link.writes)) <= Faults(transport.link.writes)
        invariant transport.hist[slotId].intact ==>
                    Faults(transport.link.writes) == Faults(old(transport.link.writes))
        invariant Faults(transport.link.writes) == Faults(old(transport.link.writes))
                  && Listed(a.books, sessionId) ==>
                    Now().log + ReportsAll(kind, slotId, sessionId, DigestOf(Snapshot(), sessionId).fragment,
                                           Apdu.ParseAll(objects.data))
                    == a.log + ReportsAll(kind, slotId, sessionId, DigestOf(a.books, sessionId).fragment,
                                          Apdu.ParseAll(data))
        invariant AsksClose(Apdu.ParseAll(data)) && kind == Mmi
             <==> close || (AsksClose(Apdu.ParseAll(objects.data)) && kind == Mmi)
        decreases |objects.data|
      {
        ghost var b := Now();
        var one;
        r, one := DeliverNext(slotId, sessionId, kind, objects);
        SlotStepTrans(a, b, Now(), slotId);
        StepSizes(b, Now(), slotId);
        close := close || one;
        if r.Err? {
          return;
        }
      }
      DigestNothing(DigestOf(Snapshot(), sessionId), kind);
      NothingReported(kind, slotId, sessionId, DigestOf(Snapshot(), sessionId).fragment);
      assert Now().log + [] == Now().log;
    }

    /** The next object of the payload; a damaged one is reported and ends it. */
    method DeliverNext(slotId: byte, sessionId: u16, kind: Kind, objects: Apdu.ApduIter)
      returns (r: Result<()>, close: bool)
      requires Valid() && Synchronized(Now()) && slotId < |transport.slots|
      requires Hosts(table, sessionId, slotId, kind) && objects.data != []
      modifies objects, this`events, app, ca`sessions, dates, mmi, transport`slots, transport`hist,
        transport.link`writes
      ensures Valid() && Synchronized(Now()) && SlotStep(old(Now()), Now(), slotId) && table == old(table)
      ensures StepFine(old(Now()), Now(), slotId, r)
      ensures |transport.hist| == |transport.slots| == old(|transport.slots|)
      ensures Listed(old(Snapshot()), sessionId) ==>
                && Listed(Snapshot(), sessionId)
                && DigestAll(DigestOf(Snapshot(), sessionId), kind, Apdu.ParseAll(objects.data))
                   == DigestAll(DigestOf(old(Snapshot()), sessionId), kind, Apdu.ParseAll(old(objects.data)))
      ensures r.Err? ==> r.error == Io && !transport.hist[slotId].intact
      ensures AsksClose(Apdu.ParseAll(old(objects.data))) && kind == Mmi
         <==> close || (AsksClose(Apdu.ParseAll(objects.data)) && kind == Mmi)
      ensures |objects.data| < old(|objects.data|)
      ensures Faults(old(transport.link.writes)) <= Faults(transport.link.writes)
      ensures transport.hist[slotId].intact ==> Faults(transport.link.writes) == Faults(old(transport.link.writes))
      ensures Faults(transport.link.writes) == Faults(old(transport.link.writes))
              && Listed(old(Snapshot()), sessionId) ==>
                r.Ok?
                && Now().log + ReportsAll(kind, slotId, sessionId, DigestOf(Snapshot(), sessionId).fragment,
                                          Apdu.ParseAll(objects.data))
                   == old(Now()).log + ReportsAll(kind, slotId, sessionId,
                                                  DigestOf(old(Snapshot()), sessionId).fragment,
                                                  Apdu.ParseAll(old(objects.data)))
      ensures kind == ConditionalAccess
              && transport.hist[slotId].swallowed && !old(transport.hist)[slotId].swallowed ==>
                r.Ok? && sessionId in ca.sessions && Missed(ca.sessions[sessionId])
      ensures old(transport.link.writes) <= transport.link.writes
    {
      hide AllSound, OnRecord, AI.RevisionsOk, WorldOk, SlotStep, Synchronized, Hosts, OnlySlot, Quiet, Spoke,
        AllPlain, DigestOf, DigestAll, AsksClose, Digested, Apdu.ParseAll, ReportsAll, ObjectReports, Collected,
        Faulted;
      ghost var b, all := Now(), Apdu.ParseAll(objects.data);
      WorldSizes(b);
      NothingLeft();
      var item := objects.Next();
      DigestStep(DigestOf(b.books, sessionId), kind, all, item, Apdu.ParseAll(objects.data));
      DigestNothing(DigestOf(b.books, sessionId), kind);
      ghost var fragment := DigestOf(b.books, sessionId).fragment;
      ReportsStep(kind, slotId, sessionId, fragment, all, item.value, Apdu.ParseAll(objects.data));
      NothingReported(kind, slotId, sessionId, fragment);
      if item.value.Err? {
        Report(slotId, MalformedData(slotId));
        assert Now().log + [] == Now().log;
        return Ok(()), false;
      }
      r, close := Deliver(slotId, sessionId, kind, item.value.value.tag, item.value.value.body);
      ghost var c := Now();
      StepSizes(b, c, slotId);
      FaultedCount(old(transport.link.writes), transport.link.writes, r);
      DigestCollects(DigestOf(b.books, sessionId), kind, item.value.value);
      ghost var reports := ObjectReports(kind, slotId, sessionId, fragment, item.value.value);
      ghost var later := ReportsAll(kind, slotId, sessionId, Collected(kind, fragment, item.value.value),
                                    Apdu.ParseAll(objects.data));
      Balance(b.log, c.log, slotId, r, reports, later);
      r := ResourceResult(slotId, r);
      SlotStepTrans(b, c, Now(), slotId);
      StepSizes(c, Now(), slotId);
    }

    /** Handles the objects of a session_number SPDU. */
    method DispatchApdu(slotId: byte, sessionId: u16, data: seq<byte>) returns (r: Result<()>)
      requires Valid() && Synchronized(Now()) && slotId < |transport.slots|
      modifies this`table, this`events, app, ca`sessions, dates, mmi, transport`slots, transport`hist,
        transport.link`writes
      ensures Valid() && Synchronized(Now()) && SlotStep(old(Now()), Now(), slotId)
      ensures StepFine(old(Now()), Now(), slotId, r)
      ensures r.Err? ==> IsLinkError(r.error)
      ensures ApduHandled(old(Now()), Now(), slotId, sessionId, data, r.Ok?)
      ensures OnSlot(old(table), sessionId, slotId) && Listed(old(Snapshot()), sessionId)
              && Faults(transport.link.writes) == Faults(old(transport.link.writes)) ==>
                r.Ok?
                && Now().log == old(Now()).log
                                + ReportsAll(Live(old(table), sessionId).value.resource, slotId, sessionId,
                                             DigestOf(old(Snapshot()), sessionId).fragment, Apdu.ParseAll(data))
      ensures old(transport.link.writes) <= transport.link.writes
    {
      hide AllSound, OnRecord, AI.RevisionsOk, WorldOk, SlotStep, Synchronized, OnlySlot, Spoke, AllPlain, DigestAll,
        Apdu.ParseAll, AsksClose, DigestOf, ReportsAll, Faults, ObjectReports, Faulted, ApduHandled;
      ghost var a := Now();
      WorldSizes(a);
      var live := Live(table, sessionId);
      if live == None || live.value.slotId != slotId {
        Report(slotId, MalformedData(slotId));
        ApduStray(a, Now(), slotId, sessionId, data);
        return Ok(());
      }
      var close;
      r, close := DeliverAll(slotId, sessionId, live.value.resource, data);
      ghost var b := Now();
      StepSizes(a, b, slotId);
      if r.Ok? && close {
        ghost var writes := transport.link.writes;
        r := RequestClose(slotId, sessionId);
        FaultedCount(writes, transport.link.writes, r);
        SlotStepTrans(a, b, Now(), slotId);
        StepSizes(b, Now(), slotId);
        SameDigest(b.books, Snapshot(), sessionId);
      }
      ApduDelivered(a, Now(), slotId, sessionId, data, r.Ok?, close);
    }

    // --------------------------------------------------------------- closing a session

    /** Starts a host-initiated close; a second request for a closing session is not sent. */
    method RequestClose(slotId: byte, sessionId: u16) returns (r: Result<()>)
      requires Valid() && slotId < |transport.slots| && Hosts(table, sessionId, slotId, Mmi)
      modifies this`table, transport`slots, transport`hist, transport.link`writes
      ensures Valid() && SlotStep(old(Now()), Now(), slotId)
      ensures StepFine(old(Now()), Now(), slotId, r)
      ensures old(Synchronized(Now())) ==> Synchronized(Now())
      ensures Snapshot() == old(Snapshot()).(table := table)
      ensures table == old(table)[sessionId - 1 := Some(Live(old(table), sessionId).value.(state := Closing))]
      ensures Live(old(table), sessionId).value.state == Closing ==>
                r.Ok? && transport.slots == old(transport.slots) && transport.hist == old(transport.hist)
      ensures Live(old(table), sessionId).value.state == SessionState.Active && r.Ok? ==>
                transport.hist[slotId].sent
                == old(transport.hist)[slotId].sent + [Item.Spdu(SpduCoding.BuildCloseSessionRequest(sessionId))]
      ensures r.Err? ==> IsLinkError(r.error)
      ensures Faulted(old(transport.link.writes), transport.link.writes, r)
    {
      hide AllSound, OnRecord, AI.RevisionsOk, WorldOk, SlotStep, Synchronized, OnlySlot, Handed, Quiet, ViewsKept,
        Spoke, AllPlain;
      ghost var a := Now();
      WorldSizes(a);
      var session := Live(table, sessionId).value;
      if session.state != SessionState.Active {
        SlotStepRefl(a, slotId);
        assert session == session.(state := Closing);
        return Ok(());
      }
      table := table[sessionId - 1 := Some(session.(state := Closing))];
      r := transport.SendSpdu(slotId, SpduCoding.BuildCloseSessionRequest(sessionId));
      OnlySlotLengths(a.slots, transport.slots, a.hist, transport.hist, slotId);
      CloseRequestQuiet(a.slots[slotId], transport.slots[slotId], a.hist[slotId], transport.hist[slotId],
                        sessionId, r.Ok?);
      HandedSent(a.slots[slotId], transport.slots[slotId], a.hist[slotId], transport.hist[slotId],
                 Item.Spdu(SpduCoding.BuildCloseSessionRequest(sessionId)), r.Ok?);
      SilentSpoke(a.log, slotId);
      StateStep(a, Now(), slotId, sessionId, Closing);
    }

    /** Handles close_session_request from the module. */
    method CloseSession(slotId: byte, sessionId: u16) returns (r: Result<()>)
      requires Valid() && slotId < |transport.slots|
      modifies this`table, this`events, app`sessions, ca`sessions, dates, mmi, transport`slots, transport`hist,
        transport.link`writes
      ensures Valid() && SlotStep(old(Now()), Now(), slotId)
      ensures StepFine(old(Now()), Now(), slotId, r)
      ensures old(Synchronized(Now())) ==> Synchronized(Now())
      ensures r.Err? ==> IsLinkError(r.error)
      ensures CloseHandled(old(Now()), Now(), slotId, sessionId, r.Ok?)
      ensures old(transport.link.writes) <= transport.link.writes
    {
      hide AllSound, OnRecord, AI.RevisionsOk, WorldOk, SlotStep, Synchronized, OnlySlot, Handed, Quiet, ViewsKept,
        Spoke, AllPlain, Freed;
      ghost var a := Now();
      WorldSizes(a);
      var live := Live(table, sessionId);
      var known := live.Some? && live.value.slotId == slotId;
      var status := if known then SpduCoding.SS_OK else SpduCoding.SS_NOT_ALLOCATED;
      r := transport.SendSpdu(slotId, SpduCoding.BuildCloseSessionResponse(status, sessionId));
      OnlySlotLengths(a.slots, transport.slots, a.hist, transport.hist, slotId);
      CloseResponseKept(a.slots[slotId], transport.slots[slotId], a.hist[slotId], transport.hist[slotId],
                        status, sessionId, r.Ok?);
      HandedSent(a.slots[slotId], transport.slots[slotId], a.hist[slotId], transport.hist[slotId],
                 Item.Spdu(SpduCoding.BuildCloseSessionResponse(status, sessionId)), r.Ok?);
      if r.Err? || !known {
        SilentSpoke(a.log, slotId);
        QuietStep(a, Now(), slotId);
        if r.Ok? {
          ghost var b := Now();
          Report(slotId, MalformedData(slotId));
          SlotStepTrans(a, b, Now(), slotId);
        }
        return;
      }
      BackedAt(a, sessionId);
      FreeSession(sessionId);
      FreeStep(a, Now(), slotId, sessionId);
    }

    /** Handles close_session_response, completing a host-initiated close. */
    method CloseSessionComplete(slotId: byte, sessionId: u16, status: byte)
      requires Valid() && slotId < |transport.slots|
      modifies this`table, this`events, app`sessions, ca`sessions, dates, mmi
      ensures Valid() && SlotStep(old(Now()), Now(), slotId)
      ensures old(Synchronized(Now())) ==> Synchronized(Now())
      ensures CompletionHandled(old(Now()), Now(), slotId, sessionId, status)
    {
      hide AllSound, OnRecord, AI.RevisionsOk, WorldOk, SlotStep, Synchronized, OnlySlot, Handed, Quiet, ViewsKept,
        Spoke, AllPlain, Freed;
      ghost var a := Now();
      WorldSizes(a);
      BackedAt(a, sessionId);
      OnlySlotRefl(a.slots, a.hist, slotId);
      ViewsKeptRefl(a.hist[slotId], sessionId);
      if !IsClosing(table, sessionId, slotId) {
        Report(slotId, MalformedData(slotId));
      } else if status == SpduCoding.SS_OK || status == SpduCoding.SS_NOT_ALLOCATED {
        FreeSession(sessionId);
        FreeStep(a, Now(), slotId, sessionId);
      } else {
        table := table[sessionId - 1 := Some(Live(table, sessionId).value.(state := SessionState.Active))];
        SilentSpoke(a.log, slotId);
        QuietRefl(a.hist[slotId]);
        StateStep(a, Now(), slotId, sessionId, SessionState.Active);
        ghost var b := Now();
        Report(slotId, MalformedData(slotId));
        SlotStepTrans(a, b, Now(), slotId);
      }
    }

    method DispatchSpdu(slotId: byte, data: seq<byte>) returns (r: Result<()>)
      requires Valid() && Synchronized(Now()) && slotId < |transport.slots|
      modifies this`table, this`events, app, ca`sessions, dates, mmi, transport`slots, transport`hist,
        transport.link`writes
      ensures Valid() && Synchronized(Now()) && SlotStep(old(Now()), Now(), slotId)
      ensures StepFine(old(Now()), Now(), slotId, r)
      ensures r.Err? ==> IsLinkError(r.error)
      ensures SpduHandled(old(Now()), Now(), slotId, data, r.Ok?)
      ensures old(transport.link.writes) <= transport.link.writes
    {
      hide AllSound, OnRecord, AI.RevisionsOk, WorldOk, SlotStep, Synchronized, ApduHandled, OpenHandled,
        CloseHandled, CompletionHandled, SpduCoding.Parse;
      WorldSizes(Now());
      r := Ok(());
      match SpduCoding.Parse(data) {
        case Err(_) => Report(slotId, MalformedData(slotId));
        case Ok(SessionNumber(id, apdu)) => r := DispatchApdu(slotId, id, apdu);
        case Ok(OpenSessionRequest(resourceId)) => r := OpenSession(slotId, resourceId);
        case Ok(CloseSessionRequest(id)) => r := CloseSession(slotId, id);
        case Ok(CloseSessionResponse(status, id)) => CloseSessionComplete(slotId, id, status);
        case Ok(CreateSessionResponse(_, _, _)) =>
          // the host never sends create_session
          Report(slotId, MalformedData(slotId));
      }
    }

    // -------------------------------------------------------------------- receiving

    /** What one received frame leads to before the next frame is let out. */
    method Process(recv: TransportRecv, accept: seq<bool>) returns (r: Result<()>)
      requires Valid() && Synchronized(Now()) && recv.slotId < |transport.slots|
      modifies this`table, this`events, app, ca`sessions, dates, mmi, transport`slots, transport`hist,
        transport.link`writes
      ensures Valid() && Synchronized(Now()) && SlotStep(old(Now()), Now(), recv.slotId)
      ensures StepFine(old(Now()), Now(), recv.slotId, r)
      ensures r.Err? ==> IsLinkError(r.error)
      ensures Processed(old(Now()), Now(), recv, Accepts(accept, recv.slotId), r.Ok?)
      ensures !(recv.Whole? && Accepts(accept, recv.slotId)) ==>
                r.Ok? && transport.slots == old(transport.slots) && transport.hist == old(transport.hist)
      ensures old(transport.link.writes) <= transport.link.writes
    {
      hide AllSound, OnRecord, AI.RevisionsOk, WorldOk, SlotStep, Synchronized, SpduHandled;
      r := Ok(());
      WorldSizes(Now());
      match recv {
        case TcReply(slotId) => Report(slotId, TransportReady(slotId));
        case Whole(slotId, spdu) =>
          if Accepts(accept, slotId) {
            r := DispatchSpdu(slotId, spdu);
          } else {
            // session data before the transport connection is active
            Report(slotId, MalformedData(slotId));
          }
        case Status(slotId) => SlotStepRefl(Now(), slotId);
        case Malformed(slotId) => Report(slotId, MalformedData(slotId));
      }
    }

    /** One write attempt on the slot, after a read. */
    method LetOut(slotId: byte) returns (r: Result<()>)
      requires Valid() && Synchronized(Now()) && slotId < |transport.slots|
      modifies transport`slots, transport`hist, transport.link`writes
      ensures Valid() && Synchronized(Now()) && SlotStep(old(Now()), Now(), slotId)
      ensures StepBlameless(old(Now()), Now(), slotId, r)
      ensures r.Err? ==> IsLinkError(r.error)
      ensures |transport.slots| == |old(transport.slots)| == |transport.hist| == |old(transport.hist)|
      ensures Flushed(old(transport.slots)[slotId], transport.slots[slotId], r.Ok?)
      ensures transport.hist[slotId].sent == old(transport.hist)[slotId].sent
      ensures transport.hist[slotId].intact == (old(transport.hist)[slotId].intact && r.Ok?)
      ensures old(transport.link.writes) <= transport.link.writes
      ensures r.Ok? ==> Tried(transport.slots[slotId], old(transport.link.writes), transport.link.writes)
    {
      hide AllSound, OnRecord, AI.RevisionsOk, WorldOk, SlotStep, Synchronized, Logged, Flushed, OnlySlot, Quiet,
        AllPlain, Spoke, Tried, Offered;
      ghost var a := Now();
      WorldSizes(a);
      r := transport.Flush(slotId);
      OnlySlotLengths(a.slots, transport.slots, a.hist, transport.hist, slotId);
      LoggedQuiet(a.hist[slotId], transport.hist[slotId], transport.slots[slotId].busy != a.slots[slotId].busy, r.Ok?);
      SilentSpoke(a.log, slotId);
      QuietStep(a, Now(), slotId);
      StepSizes(a, Now(), slotId);
    }

    /** Reads one frame; only the transport of its slot moves. */
    method ReadFrame() returns (r: Result<Option<TransportRecv>>, ghost frame: seq<byte>)
      requires Valid() && Synchronized(Now())
      modifies transport`slots, transport`hist, transport.link`received, transport.link`dries
      ensures Valid() && Synchronized(Now())
      ensures transport.link.received == old(transport.link.received) + if frame == [] then [] else [frame]
      ensures transport.link.dries == old(transport.link.dries) + if r == Ok(None) then 1 else 0
      ensures r == Ok(None) ==> frame == []
      ensures r.Err? ==> !r.error.InvalidProperty? && !r.error.ShortWrite?
      ensures frame != [] && FrameSlotId(frame, |transport.slots|) == None ==> r == Err(InvalidData)
      ensures r.Err? || r.value == None ==> Now() == old(Now())
      ensures |transport.slots| == |transport.hist| == |old(transport.slots)| == |old(transport.hist)| < 0x100
      ensures r.Ok? && r.value.Some? ==>
                var at := r.value.value.slotId;
                && SlotStep(old(Now()), Now(), at) && frame != []
                && at < |transport.slots| && FrameSlotId(frame, |transport.slots|) == Some(at)
                && (transport.slots[at], r.value.value) == Receive(old(transport.slots)[at], frame, |transport.slots|)
                && transport.hist[at] == old(transport.hist)[at].(trace := old(transport.hist)[at].trace + [Got])
    {
      hide AllSound, OnRecord, AI.RevisionsOk, WorldOk, SlotStep, Synchronized, Receive, OnlySlot, Quiet, AllPlain,
        Spoke;
      ghost var a := Now();
      WorldSizes(a);
      r, frame := transport.RecvApdu();
      if r.Ok? && r.value.Some? {
        ghost var at := r.value.value.slotId;
        OnlySlotLengths(a.slots, transport.slots, a.hist, transport.hist, at);
        SameSentQuiet(a.hist[at], transport.hist[at]);
        SilentSpoke(a.log, at);
        QuietStep(a, Now(), at);
        StepSizes(a, Now(), at);
      }
    }

    /** Pulls one frame from the transport and advances the session state. SPDUs are
        only accepted from the marked slots; every frame is consumed all the same. */
    method RecvFiltered(accept: seq<bool>) returns (r: Result<Option<byte>>, ghost frame: seq<byte>, ghost at: byte)
      requires Valid() && Synchronized(Now())
      modifies this`table, this`events, app, ca`sessions, dates, mmi, transport`slots, transport`hist,
        transport.link`writes, transport.link`received, transport.link`dries
      ensures Valid() && Synchronized(Now())
      ensures transport.link.received == old(transport.link.received) + if frame == [] then [] else [frame]
      ensures transport.link.dries == old(transport.link.dries) + if r == Ok(None) then 1 else 0
      ensures r == Ok(None) ==> Now() == old(Now()) && frame == []
      ensures frame != [] && FrameSlotId(frame, |transport.slots|) == None ==> r == Err(InvalidData)
      ensures r.Ok? && r.value.Some? ==>
                && r.value == Some(at) && SlotStep(old(Now()), Now(), at) && frame != []
                && StepBlameless(old(Now()), Now(), at, r)
                && FrameHandled(old(Now()), Now(), at, frame, Accepts(accept, at), true)
                && at < |transport.slots|
                && Tried(transport.slots[at], old(transport.link.writes), transport.link.writes)
      ensures r.Err? && Now() != old(Now()) ==>
                && SlotStep(old(Now()), Now(), at)
                && FrameHandled(old(Now()), Now(), at, frame, Accepts(accept, at), false)
    {
      hide AllSound, OnRecord, AI.RevisionsOk, WorldOk, SlotStep, Synchronized, Processed, Receive, Logged, Flushed,
        OnlySlot, Quiet, AllPlain, Spoke, Tried, Faulted, Offered, FrameHandled;
      ghost var a := Now();
      WorldSizes(a);
      at := 0;
      var received;
      received, frame := ReadFrame();
      if received.Err? {
        return Err(received.error), frame, at;
      }
      if received.value == None {
        return Ok(None), frame, at;
      }
      var recv := received.value.value;
      at := recv.slotId;
      ghost var b := Now();
      var done := Process(recv, accept);
      ghost var c := Now();
      SlotStepTrans(a, b, c, at);
      StepSizes(b, c, at);
      StepSizes(a, c, at);
      if done.Err? {
        HandledHere(a, b, c, c, at, frame, recv, Accepts(accept, at), false, true);
        return Err(done.error), frame, at;
      }
      // the read event allows the next queued frame out
      ghost var writes := transport.link.writes;
      var flushed := LetOut(recv.slotId);
      SlotStepTrans(a, c, Now(), at);
      HandledHere(a, b, c, Now(), at, frame, recv, Accepts(accept, at), true, flushed.Ok?);
      if flushed.Ok? {
        TriedLonger(transport.slots[at], old(transport.link.writes), writes, transport.link.writes);
      }
      if flushed.Err? {
        return Err(flushed.error), frame, at;
      }
      return Ok(Some(recv.slotId)), frame, at;
    }

    // -------------------------------------------------------------- dropping a slot

    /** Closes all sessions of the slot and clears its transport state. */
    method DropSlot(slotId: byte)
      requires Valid() && slotId < |transport.slots|
      modifies this`table, this`events, app`sessions, ca`sessions, dates, mmi, transport`slots, transport`hist,
        transport`cleared
      ensures Valid() && SlotDropped(old(Now()), Now(), slotId)
      ensures old(Synchronized(Now())) ==> Synchronized(Now())
    {
      hide AllSound, OnRecord, AI.RevisionsOk, WorldOk, SlotStep, Synchronized, OnlySlot, Handed, Quiet, ViewsKept,
        Spoke, AllPlain, Freed, DroppedBelow, OtherSlotsKept;
      ghost var a := Now();
      WorldSizes(a);
      transport.ClearSlot(slotId);
      OnlySlotLengths(a.slots, transport.slots, a.hist, transport.hist, slotId);
      label Cleared:
      DropStart(a, Now(), slotId);
      ghost var size := |table|;
      for index := 0 to |table|
        invariant transport.Valid() && app.Valid() && |table| == size
        invariant transport.slots == old@Cleared(transport.slots) && transport.hist == old@Cleared(transport.hist)
        invariant DroppedBelow(a, Now(), slotId, index)
      {
        ghost var b := Now();
        DropBacked(a, b, slotId, index);
        if table[index].Some? && table[index].value.slotId == slotId {
          FreeSession(index + 1);
        }
        DropNext(a, b, Now(), slotId, index);
      }
      DropEnd(a, Now(), slotId);
    }

    // ------------------------------------------------------------ programs and time

    method SetProgram(program: Program) returns (r: Result<seq<u16>>)
      requires Valid() && Synchronized(Now())
      modifies ca, transport`slots, transport`hist, transport.link`writes
      ensures Valid() && ProgramsChanged(old(Now()), Now(), r)
      ensures ca.programs == old(ca.programs)[program.number := program]
      ensures r.Ok? ==> Synchronized(Now())
    {
      hide AllSound, OnRecord, AI.RevisionsOk, WorldOk, OnlyTouched, SameSessions, EachIssued, RegistryOk, Ascending,
        InSync, Hosted;
      ghost var a := Now();
      WorldSizes(a);
      r := ca.SetProgram(transport, program);
      ProgramStep(a, Now());
    }

    method RemoveProgram(n: u16) returns (r: Result<seq<u16>>)
      requires Valid() && Synchronized(Now())
      modifies ca, transport`slots, transport`hist, transport.link`writes
      ensures Valid() && ProgramsChanged(old(Now()), Now(), r)
      ensures ca.programs == old(ca.programs) - {n}
      ensures r.Ok? ==> Synchronized(Now())
    {
      hide AllSound, OnRecord, AI.RevisionsOk, WorldOk, OnlyTouched, SameSessions, EachIssued, RegistryOk, Ascending,
        InSync, Hosted;
      ghost var a := Now();
      WorldSizes(a);
      r := ca.RemoveProgram(transport, n);
      ProgramStep(a, Now());
    }

    /** Runs the resource timers: only date-time sessions have any. */
    method TickAt(now: nat) returns (r: Result<()>, ghost answers: seq<DT.Answer>)
      requires Valid()
      modifies dates, transport`slots, transport`hist, transport.link`writes
      ensures Valid() && Ticked(old(Now()), Now())
      ensures old(Synchronized(Now())) ==> Synchronized(Now())
      ensures r.Err? ==> IsLinkError(r.error)
      ensures r.Ok? ==> DT.StillPending(old(transport.slots), transport.slots)
      ensures r.Ok? ==> EachFine(old(transport.hist), transport.hist)
      ensures r.Ok? ==>
                forall id | id in dates.sessions :: dates.sessions[id] == DT.Ticked(old(dates.sessions)[id], now)
      ensures r.Ok? ==>
                && DT.HandedOver(old(transport.hist), transport.hist, answers)
                && DT.EachAnswered(old(dates.sessions), now, {}, answers)
    {
      hide AllSound, OnRecord, AI.RevisionsOk, WorldOk, DT.OnlyHosts, DT.Ticked, Synchronized, DT.HandedOver,
        DT.EachAnswered;
      ghost var a := Now();
      WorldSizes(a);
      DatesOnSlots(a);
      r, answers := dates.OnTick(transport, now);
      TickStep(a, Now());
    }

    // ---------------------------------------------- the transport, for the controller

    /** Issues one control TPDU. It is only ever issued on a slot with nothing
        outstanding, so it never falls between the fragments of an SPDU. */
    method SendControl(slotId: byte, tag: byte) returns (r: Result<()>)
      requires Valid() && slotId < |transport.slots| && tag in {CREATE_TC, RCV, DATA_LAST}
      requires Idle(transport.slots[slotId])
      modifies transport`slots, transport`hist, transport.link`writes
      ensures Valid() && Controlled(old(Now()), Now(), slotId)
      ensures StepFine(old(Now()), Now(), slotId, r)
      ensures old(Synchronized(Now())) ==> Synchronized(Now())
      ensures r.Err? ==> IsLinkError(r.error)
      ensures r.Ok? ==> Tried(transport.slots[slotId], old(transport.link.writes), transport.link.writes)
      ensures r.Ok? ==>
                && transport.hist[slotId].intact == old(transport.hist)[slotId].intact
                && transport.hist[slotId].sent == old(transport.hist)[slotId].sent + [Single(tag, [])]
                && |transport.slots[slotId].queue| + (if transport.slots[slotId].busy then 1 else 0) == 1
      ensures old(transport.link.writes) <= transport.link.writes
    {
      hide AllSound, OnRecord, AI.RevisionsOk, WorldOk, SlotStep, Synchronized, OnlySlot, Quiet, Spoke, AllPlain;
      ghost var a := Now();
      WorldSizes(a);
      ControlBuilds(slotId, tag);
      r := transport.SendTpdu(slotId, tag, []);
      OnlySlotLengths(a.slots, transport.slots, a.hist, transport.hist, slotId);
      ControlQuiet(a.slots[slotId], transport.slots[slotId], a.hist[slotId], transport.hist[slotId], tag, r.Ok?);
      SilentSpoke(a.log, slotId);
      QuietStep(a, Now(), slotId);
    }

    /** Writes the next queued frame if the slot is idle. */
    method FlushLink(slotId: byte) returns (r: Result<()>)
      requires Valid() && slotId < |transport.slots|
      modifies transport`slots, transport`hist, transport.link`writes
      ensures Valid() && Controlled(old(Now()), Now(), slotId)
      ensures StepFine(old(Now()), Now(), slotId, r)
      ensures old(Synchronized(Now())) ==> Synchronized(Now())
      ensures r.Err? ==> IsLinkError(r.error)
      ensures r.Ok? ==> Tried(transport.slots[slotId], old(transport.link.writes), transport.link.writes)
      ensures Flushed(old(transport.slots)[slotId], transport.slots[slotId], r.Ok?)
      ensures transport.hist[slotId].sent == old(transport.hist)[slotId].sent
      ensures transport.hist[slotId].intact == (old(transport.hist)[slotId].intact && r.Ok?)
      ensures old(transport.link.writes) <= transport.link.writes
    {
      hide AllSound, OnRecord, AI.RevisionsOk, WorldOk, SlotStep, Synchronized, OnlySlot, Quiet, Spoke, AllPlain,
        Flushed, Tried;
      ghost var a := Now();
      WorldSizes(a);
      r := transport.Flush(slotId);
      OnlySlotLengths(a.slots, transport.slots, a.hist, transport.hist, slotId);
      LoggedQuiet(a.hist[slotId], transport.hist[slotId], transport.slots[slotId].busy != a.slots[slotId].busy, r.Ok?);
      SilentSpoke(a.log, slotId);
      QuietStep(a, Now(), slotId);
    }

    /** Takes and clears the DATA_INDICATOR flag of the slot. */
    method TakeDataPending(slotId: byte) returns (pending: bool)
      requires Valid() && slotId < |transport.slots|
      modifies transport`slots
      ensures Valid() && Controlled(old(Now()), Now(), slotId)
      ensures old(Synchronized(Now())) ==> Synchronized(Now())
      ensures pending == old(transport.slots)[slotId].dataPending
      ensures transport.slots[slotId] == old(transport.slots)[slotId].(dataPending := false)
      ensures transport.hist == old(transport.hist)
    {
      hide AllSound, OnRecord, AI.RevisionsOk, WorldOk, SlotStep, Synchronized, OnlySlot, Quiet, Spoke, AllPlain;
      ghost var a := Now();
      WorldSizes(a);
      pending := transport.TakeDataPending(slotId);
      OnlySlotLengths(a.slots, transport.slots, a.hist, transport.hist, slotId);
      QuietRefl(a.hist[slotId]);
      SilentSpoke(a.log, slotId);
      QuietStep(a, Now(), slotId);
    }

    // ------------------------------------------------------------- what always holds

    /** The tables follow the session table: whatever a resource keeps under a number is
        of a live session of that resource on that slot, so a number that is taken again
        starts with nothing. Only MMI sessions close on the host's side, and every number
        fits 16 bits. */
    lemma TablesAgree(id: u16)
      requires Valid()
      ensures |table| <= MAX_SLOT_SESSIONS * |transport.slots| <= 4080
      ensures forall s: nat | s < |transport.slots| :: Used(table, s) <= MAX_SLOT_SESSIONS
      ensures var live := Live(table, id);
              && (id in app.sessions ==>
                    live == Some(Session(app.sessions[id].slotId, ApplicationInformation, SessionState.Active)))
              && (id in ca.sessions ==>
                    live == Some(Session(ca.sessions[id].slotId, ConditionalAccess, SessionState.Active)))
              && (id in dates.sessions ==>
                    live == Some(Session(dates.sessions[id].slotId, DateTime, SessionState.Active)))
              && (id in mmi.fragments ==> live.Some? && live.value.resource == Mmi)
              && (live.Some? && live.value.state == Closing ==> live.value.resource == Mmi)
              && (live == None ==> Unlisted(Snapshot(), id))
              && (live.Some? && live.value.slotId < |transport.hist| && transport.hist[live.value.slotId].intact ==>
                    Listed(Snapshot(), id))
    {
      hide AllSound, OnRecord, AI.RevisionsOk, RegistryOk, Alternating, Announced, AllIssued;
      BackedAt(Now(), id);
      var live := Live(table, id);
      if live.Some? && live.value.slotId < |transport.hist| && transport.hist[live.value.slotId].intact {
        ListedIfIntact(Now(), id, live.value.slotId);
      }
      assert Quotas(table, |transport.slots|);
    }

    /** A number that is reported opened twice was reported closed in between. */
    lemma OpenedOnce(i: nat, j: nat)
      requires Valid() && i < j < |delivered + events|
      requires var log := delivered + events;
               log[i].SessionOpened? && log[j].SessionOpened? && log[i].sessionId == log[j].sessionId
      ensures var log := delivered + events;
              exists k | i < k < j :: log[k].SessionClosed? && log[k].sessionId == log[i].sessionId
    {
      hide AllSound, OnRecord, AI.RevisionsOk, RegistryOk, Agreement, Announced, AllIssued, Quotas;
      ClosedBetween(delivered + events, i, j);
    }

    // ---------------------------------------------------------------------- queries

    /** Application information of the slot: that of the session it came from last. */
    method AppInfo(slotId: byte) returns (info: Option<ApplicationInfo>)
      ensures info == None <==> !AI.HasInfo(app.sessions, slotId)
      ensures info.Some? ==> exists id: u16 :: AI.IsLatest(app.sessions, slotId, id) && app.sessions[id].info == info
    {
      var best := app.InfoSession(slotId);
      info := if best == None then None else app.sessions[best.value].info;
    }

    /** Confirmed CAIDs of one live, active Conditional Access session. */
    function SessionCaids(slotId: byte, sessionId: u16): (caids: Option<seq<u16>>)
      requires Valid()
      reads this, transport, transport.link`writes, app, ca, dates, mmi
      ensures caids == ca.SessionCaids(slotId, sessionId)
    {
      var live := Live(table, sessionId);
      CaidsNeedSession(Now(), slotId, sessionId);
      if live == None || live.value.slotId != slotId || live.value.resource != ConditionalAccess
         || live.value.state != SessionState.Active
      then None else ca.SessionCaids(slotId, sessionId)
    }

    /** The union of what all the slot's Conditional Access sessions reported. */
    method Caids(slotId: byte) returns (caids: seq<u16>)
      requires Valid()
      ensures Ascending(caids)
      ensures forall c :: c in caids <==> exists id: u16 :: CaInformed(ca.sessions, slotId, id)
                                                            && c in ca.sessions[id].caids.value
    {
      TableSize(Now());
      hide WorldOk, AllSound, OnRecord, AI.RevisionsOk;
      var all: seq<u16> := [];
      for index := 0 to |table|
        invariant forall c :: c in all <==> exists id: u16 :: 0 < id <= index && CaInformed(ca.sessions, slotId, id)
                                                             && c in ca.sessions[id].caids.value
      {
        var more := SessionCaids(slotId, index + 1);
        if more.Some? {
          assert CaInformed(ca.sessions, slotId, index + 1);
          all := all + more.value;
        }
      }
      CaInformedLive(Now(), slotId);
      caids := SortDedup(all);
      forall c ensures c in caids <==> c in all {
        assert c in caids <==> c in Elements(caids);
      }
    }

    method HasCa(slotId: byte) returns (has: bool)
      requires Valid()
      ensures has <==> HasCaInfo(ca.sessions, slotId)
    {
      TableSize(Now());
      CaInformedLive(Now(), slotId);
      hide WorldOk, AllSound, OnRecord, AI.RevisionsOk;
      has := false;
      for index := 0 to |table|
        invariant has <==> exists id: u16 :: 0 < id <= index && CaInformed(ca.sessions, slotId, id)
      {
        var caids := SessionCaids(slotId, index + 1);
        if caids.Some? {
          assert CaInformed(ca.sessions, slotId, index + 1);
          has := true;
        }
      }
    }

    /** First active session of the slot connected to the resource. */
    method FindSession(slotId: byte, kind: Kind) returns (sessionId: Option<u16>)
      requires |table| <= 4080
      ensures sessionId.Some? ==>
                && IsActive(table, sessionId.value, slotId, kind)
                && forall id: u16 | IsActive(table, id, slotId, kind) :: sessionId.value <= id
      ensures sessionId == None ==> forall id: u16 :: !IsActive(table, id, slotId, kind)
    {
      for index := 0 to |table|
        invariant forall id: u16 | IsActive(table, id, slotId, kind) :: id > index
      {
        if IsActive(table, index + 1, slotId, kind) {
          return Some(index + 1);
        }
      }
      return None;
    }

    // --------------------------------------------------------------------- commands

    /** Sends one object of the application's on a session. */
    method Command(slotId: byte, sessionId: u16, tag: Apdu.ApduTag, body: seq<byte>) returns (r: Result<()>)
      requires Valid() && slotId < |transport.slots| && tag != Apdu.CA_PMT
      modifies transport`slots, transport`hist, transport.link`writes
      ensures Valid() && Commanded(old(Now()), Now(), slotId, r)
      ensures old(Synchronized(Now())) ==> Synchronized(Now())
      ensures |body| >= 0x1_0000 <==> r == Err(InvalidProperty)
      ensures r.Ok? ==> SentOne(old(Now()), Now(), slotId, sessionId, tag, body)
    {
      hide AllSound, OnRecord, AI.RevisionsOk, WorldOk, SlotStep, Synchronized, OnlySlot, Handed, Quiet, Spoke,
        AllPlain, ApduItem;
      ghost var a := Now();
      WorldSizes(a);
      SlotStepRefl(a, slotId);
      r := transport.SendApdu(slotId, sessionId, tag, body);
      if |body| >= 0x1_0000 {
        return;
      }
      OnlySlotLengths(a.slots, transport.slots, a.hist, transport.hist, slotId);
      CommandQuiet(a.slots[slotId], transport.slots[slotId], a.hist[slotId], transport.hist[slotId],
                   sessionId, tag, body, r.Ok?);
      SilentSpoke(a.log, slotId);
      QuietStep(a, Now(), slotId);
    }

    /** Asks the module to show its menu: on the session that identified itself
        last, or else on the first application information session. */
    method EnterMenu(slotId: byte) returns (r: Result<()>)
      requires Valid() && slotId < |transport.slots|
      modifies transport`slots, transport`hist, transport.link`writes
      ensures Valid() && Commanded(old(Now()), Now(), slotId, r)
      ensures old(Synchronized(Now())) ==> Synchronized(Now())
      ensures r == Err(InvalidProperty) <==> forall id: u16 :: !IsActive(table, id, slotId, ApplicationInformation)
      ensures r.Ok? ==> exists id: u16 :: IsActive(table, id, slotId, ApplicationInformation)
                          && (AI.HasInfo(app.sessions, slotId) ==> AI.IsLatest(app.sessions, slotId, id))
                          && SentOne(old(Now()), Now(), slotId, id, Apdu.ENTER_MENU, [])
    {
      hide AllSound, OnRecord, AI.RevisionsOk, WorldOk, SlotStep, Synchronized, SentOne;
      ghost var a := Now();
      WorldSizes(a);
      TableSize(a);
      SlotStepRefl(a, slotId);
      var sessionId := app.InfoSession(slotId);
      if sessionId.Some? {
        InformedActive(a, slotId, sessionId.value);
      }
      if sessionId == None || !IsActive(table, sessionId.value, slotId, ApplicationInformation) {
        sessionId := FindSession(slotId, ApplicationInformation);
      }
      if sessionId == None {
        return Err(InvalidProperty);
      }
      r := Command(slotId, sessionId.value, Apdu.ENTER_MENU, []);
    }

    /** Sends an object on one exact active session. */
    method CommandOn(slotId: byte, sessionId: u16, kind: Kind, tag: Apdu.ApduTag, body: seq<byte>)
      returns (r: Result<()>)
      requires Valid() && slotId < |transport.slots| && tag != Apdu.CA_PMT
      modifies transport`slots, transport`hist, transport.link`writes
      ensures Valid() && Commanded(old(Now()), Now(), slotId, r)
      ensures old(Synchronized(Now())) ==> Synchronized(Now())
      ensures r == Err(InvalidProperty) <==> !IsActive(table, sessionId, slotId, kind) || |body| >= 0x1_0000
      ensures r.Ok? ==> SentOne(old(Now()), Now(), slotId, sessionId, tag, body)
    {
      hide AllSound, OnRecord, AI.RevisionsOk, WorldOk, SlotStep, Synchronized, SentOne;
      WorldSizes(Now());
      SlotStepRefl(Now(), slotId);
      if !IsActive(table, sessionId, slotId, kind) {
        return Err(InvalidProperty);
      }
      r := Command(slotId, sessionId, tag, body);
    }

    /** Answers a menu with the 1-based item number; 0 cancels it or closes a list. */
    method MmiMenuAnswer(slotId: byte, sessionId: u16, choice: byte) returns (r: Result<()>)
      requires Valid() && slotId < |transport.slots|
      modifies transport`slots, transport`hist, transport.link`writes
      ensures Valid() && Commanded(old(Now()), Now(), slotId, r)
      ensures old(Synchronized(Now())) ==> Synchronized(Now())
      ensures r == Err(InvalidProperty) <==> !IsActive(table, sessionId, slotId, Mmi)
      ensures r.Ok? ==> SentOne(old(Now()), Now(), slotId, sessionId, Apdu.MENU_ANSW, [choice])
    {
      hide AllSound, OnRecord, AI.RevisionsOk, WorldOk, SlotStep, Synchronized, SentOne;
      r := CommandOn(slotId, sessionId, Mmi, Apdu.MENU_ANSW, [choice]);
    }

    /** Answers an enquiry; no answer cancels it. */
    method MmiAnswer(slotId: byte, sessionId: u16, answer: Option<seq<byte>>) returns (r: Result<()>)
      requires Valid() && slotId < |transport.slots|
      modifies transport`slots, transport`hist, transport.link`writes
      ensures Valid() && Commanded(old(Now()), Now(), slotId, r)
      ensures old(Synchronized(Now())) ==> Synchronized(Now())
      ensures r == Err(InvalidProperty) <==>
                !IsActive(table, sessionId, slotId, Mmi) || (answer.Some? && |answer.value| >= 0xFFFF)
      ensures r.Ok? ==> SentOne(old(Now()), Now(), slotId, sessionId, Apdu.ANSW,
                              if answer == None then [0x00] else [0x01] + answer.value)
    {
      hide AllSound, OnRecord, AI.RevisionsOk, WorldOk, SlotStep, Synchronized, SentOne;
      var body: seq<byte> := if answer == None then [0x00] else [0x01] + answer.value;
      r := CommandOn(slotId, sessionId, Mmi, Apdu.ANSW, body);
    }

    /** Asks the module to close the dialogue. */
    method MmiClose(slotId: byte, sessionId: u16) returns (r: Result<()>)
      requires Valid() && slotId < |transport.slots|
      modifies transport`slots, transport`hist, transport.link`writes
      ensures Valid() && Commanded(old(Now()), Now(), slotId, r)
      ensures old(Synchronized(Now())) ==> Synchronized(Now())
      ensures r == Err(InvalidProperty) <==> !IsActive(table, sessionId, slotId, Mmi)
      ensures r.Ok? ==> SentOne(old(Now()), Now(), slotId, sessionId, Apdu.CLOSE_MMI, [0x00])
    {
      hide AllSound, OnRecord, AI.RevisionsOk, WorldOk, SlotStep, Synchronized, SentOne;
      r := CommandOn(slotId, sessionId, Mmi, Apdu.CLOSE_MMI, [0x00]);
    }

    /** Asks the module to release the host control resource. */
    method AskRelease(slotId: byte) returns (r: Result<()>)
      requires Valid() && slotId < |transport.slots|
      modifies transport`slots, transport`hist, transport.link`writes
      ensures Valid() && Commanded(old(Now()), Now(), slotId, r)
      ensures old(Synchronized(Now())) ==> Synchronized(Now())
      ensures r == Err(InvalidProperty) <==> forall id: u16 :: !IsActive(table, id, slotId, HostControl)
      ensures r.Ok? ==> exists id: u16 :: IsActive(table, id, slotId, HostControl)
                                          && SentOne(old(Now()), Now(), slotId, id, Apdu.ASK_RELEASE, [])
    {
      hide AllSound, OnRecord, AI.RevisionsOk, WorldOk, SlotStep, Synchronized, SentOne;
      WorldSizes(Now());
      TableSize(Now());
      SlotStepRefl(Now(), slotId);
      var sessionId := FindSession(slotId, HostControl);
      if sessionId == None {
        return Err(InvalidProperty);
      }
      r := Command(slotId, sessionId.value, Apdu.ASK_RELEASE, []);
    }
  }
}
