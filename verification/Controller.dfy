/** The controller: a state machine per slot over one session layer, driven by
    ticks and by received frames. Times are milliseconds of one unbounded clock. */
module Controller {
  import opened Attending
  import opened Basics
  import opened CaPmt
  import opened Cam
  import opened ControllerState
  import opened Deadlines
  import opened Device
  import opened Dispatching
  import opened Events
  import opened Pacer
  import opened Registry
  import opened Resources
  import opened Session
  import opened SessionSteps
  import opened TickSteps
  import opened Tpdu
  import opened Transport
  import opened Wire
  import opened World
  import Apdu
  import AI = ApplicationInformation
  import DT = DateTime

  class CiController {
    const session: CiSession
    const pacer: CaPmtPacer
    const config: Config
    var slots: seq<CSlot>
    var events: seq<CaEvent>
    var nextStatusCheck: Option<nat>
    var lastTick: Option<nat>
    var linkSuspended: bool
    var recoveryAt: Option<nat>
    var deferredLinkFailure: bool
    /** Events already taken by the application. */
    ghost var delivered: seq<CaEvent>
    /** Automatic resets since the last one asked for. */
    ghost var resets: seq<ResetRecord>

    ghost function Now(): State
      reads this, pacer, session, session.transport, session.app, session.ca, session.dates, session.mmi
    {
      State(session.Now(), session.events, slots, delivered + events, pacer.releases, pacer.gate, pacer.clock,
            lastTick, linkSuspended, recoveryAt, deferredLinkFailure, resets)
    }

    ghost predicate Core()
      reads this, pacer, session, session.transport, session.transport.link`writes, session.app, session.ca,
        session.dates, session.mmi
    {
      session.Valid() && pacer.Valid() && CoreOk(Now())
    }

    ghost predicate Valid()
      reads this, pacer, session, session.transport, session.transport.link`writes, session.app, session.ca,
        session.dates, session.mmi
    {
      session.Valid() && pacer.Valid() && StateOk(Now(), config.retryInterval)
    }

    /** What can be seen of the pacing between two calls. */
    ghost function Pace(): PaceView
      reads this`lastTick, pacer`gate, pacer`queue, pacer`releases, pacer`interval, session.ca`programs
    {
      PaceView(pacer.gate, pacer.queue, Changes(pacer.releases), session.ca.programs, pacer.interval, lastTick)
    }

    /** What a tick can touch. */
    ghost function View(): TickView
      reads this, pacer, session, session.transport, session.transport.link, session.app, session.ca, session.dates,
        session.mmi
    {
      TickView(slots, session.Now(), Pace(), Ledger(), pacer.releases, session.transport.link.readings,
               nextStatusCheck, session.transport.link.writes, delivered + events, linkSuspended)
    }

    /** What was relayed to the application. */
    ghost function Told(): seq<CaEvent>
      reads this`delivered, this`events
    {
      Passed(delivered + events)
    }

    /** What can be seen of the deadlines between two calls. */
    ghost function Seen(): Moment
      reads this, session.transport, session.transport.link`received
    {
      Moment(slots, session.transport.slots, session.transport.link.received, lastTick)
    }

    /** The automatic resets, the closings of the gate, and the resets of the device. */
    ghost function Ledger(): ResetBook
      reads this`resets, pacer`closings, session.transport.link`resets
    {
      ResetBook(resets, pacer.closings, session.transport.link.resets)
    }

    /** In the middle of a tick that uses the link. */
    ghost predicate Ticking(now: nat)
      reads this, pacer, session, session.transport, session.transport.link`writes, session.app, session.ca,
        session.dates, session.mmi
    {
      session.Valid() && pacer.Valid() && Running(Now(), config.retryInterval, now)
    }

    constructor (session: CiSession, config: Config, caPmtInterval: nat, caPmtSettle: nat)
      requires session.Valid() && session.events == session.delivered == [] && session.table == []
      requires session.ca.programs == map[]
      requires |session.transport.slots| > 0
      requires forall s | 0 <= s < |session.transport.slots| ::
                 session.transport.slots[s] == IDLE && session.transport.hist[s] == NOTHING
      ensures this.session == session && this.config == config && fresh(pacer)
      ensures Valid() && slots == NewSlots(|session.transport.slots|) && events == delivered == []
      ensures !linkSuspended && lastTick == None && pacer.history == []
    {
      hide AllSound, OnRecord, AI.RevisionsOk, WorldOk, Paced, QueueOk, SameLast, Changes, StateOk, Synchronized,
        NewSlots;
      this.session := session;
      this.config := config;
      pacer := new CaPmtPacer(caPmtInterval, caPmtSettle);
      slots := NewSlots(|session.transport.slots|);
      events, delivered, resets := [], [], [];
      nextStatusCheck, lastTick, linkSuspended, recoveryAt, deferredLinkFailure := None, None, false, None, false;
      new;
      NewState(Now(), config.retryInterval);
    }

    method SetSlotStatus(slotId: byte, status: SlotStatus)
      requires slotId < |slots| && Replays(delivered + events, slots)
      requires status == SlotStatus.Active ==> slots[slotId].status in {CreatingTc, SlotStatus.Active}
      modifies this`slots, this`events
      ensures Replays(delivered + events, slots)
      ensures slots == old(slots)[slotId := old(slots)[slotId].(status := status)]
      ensures events == old(events) + StatusEvents(slotId, old(slots)[slotId].status, status)
      ensures BlemishesBut(old(delivered + events), delivered + events,
                           if Connected(old(slots)[slotId].status) && !Connected(status) then slotId as int else -1)
      ensures Told() == old(Told())
    {
      hide Replays, Blemished, Warned, Relays, Passed;
      ghost var log := delivered + events;
      PassedConcat(log, [SlotStatusChanged(slotId, slots[slotId].status, status)]);
      PassedOne(SlotStatusChanged(slotId, slots[slotId].status, status));
      BlemishesRefl(log, -1);
      BlemishesRefl(log, slotId);
      BlemishesOne(log, SlotStatusChanged(slotId, slots[slotId].status, status));
      ReplayStatus(delivered + events, slots, slotId, status);
      var was := slots[slotId].status;
      slots := slots[slotId := slots[slotId].(status := status)];
      if was != status {
        events := events + [SlotStatusChanged(slotId, was, status)];
      }
      assert events == old(events) + StatusEvents(slotId, was, status);
      Assoc(delivered, old(events), StatusEvents(slotId, was, status));
    }

    method SetCamStatus(slotId: byte, status: CamStatus)
      requires slotId < |slots| && Replays(delivered + events, slots)
      modifies this`slots, this`events
      ensures Replays(delivered + events, slots)
      ensures slots == old(slots)[slotId := old(slots)[slotId].(cam := status)]
      ensures events == old(events) + CamEvents(slotId, old(slots)[slotId].cam, status)
      ensures BlemishesBut(old(delivered + events), delivered + events, -1)
      ensures Told() == old(Told())
    {
      hide Replays, Blemished, Warned, Relays, Passed;
      ghost var log := delivered + events;
      PassedConcat(log, [CamStatusChanged(slotId, slots[slotId].cam, status)]);
      PassedOne(CamStatusChanged(slotId, slots[slotId].cam, status));
      BlemishesRefl(log, -1);
      BlemishesOne(log, CamStatusChanged(slotId, slots[slotId].cam, status));
      ReplayCam(delivered + events, slots, slotId, status);
      var was := slots[slotId].cam;
      slots := slots[slotId := slots[slotId].(cam := status)];
      if was != status {
        events := events + [CamStatusChanged(slotId, was, status)];
      }
      assert events == old(events) + CamEvents(slotId, was, status);
      Assoc(delivered, old(events), CamEvents(slotId, was, status));
    }

    method RecomputeCamStatus(slotId: byte)
      requires slotId < |slots| && Replays(delivered + events, slots) && session.Valid()
      modifies this`slots, this`events
      ensures Replays(delivered + events, slots)
      ensures var c := old(slots)[slotId];
              var status := CamNow(c, session.Now(), slotId);
              && slots == old(slots)[slotId := c.(cam := status)]
              && events == old(events) + CamEvents(slotId, c.cam, status)
      ensures BlemishesBut(old(delivered + events), delivered + events, -1)
      ensures Told() == old(Told())
    {
      hide Replays, BlemishesBut, AllSound, OnRecord, AI.RevisionsOk, WorldOk, AI.HasInfo, HasCaInfo, Warned, Relays;
      var applicationInfo := session.AppInfo(slotId);
      var caInfo := session.HasCa(slotId);
      var status := CamOf(slots[slotId].status == SlotStatus.Active, applicationInfo.Some?, caInfo);
      SetCamStatus(slotId, status);
    }

    /** Puts an event in the queue behind a recomputed CAM status. */
    method RelayInformed(e: CaEvent)
      requires e.slotId < |slots| && About(e, e.slotId) && Replays(delivered + events, slots) && session.Valid()
      requires Telling(e) && (e.SessionClosed? || slots[e.slotId].status == SlotStatus.Active)
      modifies this`slots, this`events
      ensures Replays(delivered + events, slots)
      ensures slots == old(slots)[e.slotId := Heard(old(slots)[e.slotId], e, session.Now())]
      ensures events == old(events) + Relayed(old(slots)[e.slotId], e, session.Now())
      ensures BlemishesBut(old(delivered + events), delivered + events, -1)
      ensures Told() == old(Told()) + Passed([e])
    {
      hide Replays, AllSound, OnRecord, AI.RevisionsOk, WorldOk, AI.HasInfo, HasCaInfo, CamOf, BlemishesBut, Warned,
        Relays;
      var slotId := e.slotId;
      Assoc(events, CamEvents(slotId, slots[slotId].cam, CamNow(slots[slotId], session.Now(), slotId)), [e]);
      RecomputeCamStatus(slotId);
      ghost var log := delivered + events;
      Relay(e);
      BlemishesTrans(old(delivered + events), log, delivered + events, -1);
    }

    /** TT_CTC_REPLY makes a slot active that is creating its connection. */
    method RelayReady(e: CaEvent)
      requires e.TransportReady? && e.slotId < |slots| && Replays(delivered + events, slots)
      modifies this`slots, this`events
      ensures Replays(delivered + events, slots)
      ensures slots == old(slots)[e.slotId := Heard(old(slots)[e.slotId], e, session.Now())]
      ensures events == old(events) + Relayed(old(slots)[e.slotId], e, session.Now())
      ensures BlemishesBut(old(delivered + events), delivered + events, -1)
      ensures Told() == old(Told()) + Passed([e])
    {
      hide Replays, BlemishesBut, Warned, Relays, Passed;
      PassedOne(e);
      PassedOne(MalformedData(e.slotId));
      var slotId := e.slotId;
      assert slots[slotId := slots[slotId]] == slots;
      if slots[slotId].status == CreatingTc {
        Assoc(events, StatusEvents(slotId, CreatingTc, SlotStatus.Active), [e]);
        var slot := slots[slotId].(createSince := None, commandSince := None, nextPoll := None);
        ReplayFields(delivered + events, slots, slotId, slot);
        slots := slots[slotId := slot];
        SetSlotStatus(slotId, SlotStatus.Active);
        ghost var log := delivered + events;
        Relay(e);
        BlemishesTrans(old(delivered + events), log, delivered + events, -1);
      } else {
        Relay(MalformedData(slotId));
      }
    }

    /** Puts an event in the queue. */
    method Relay(e: CaEvent)
      requires !e.SlotStatusChanged? && !e.CamStatusChanged? && Replays(delivered + events, slots)
      modifies this`events
      ensures Replays(delivered + events, slots) && events == old(events) + [e]
      ensures delivered + events == old(delivered + events) + [e]
      ensures BlemishesBut(old(delivered + events), delivered + events, -1)
      ensures Told() == old(Told()) + Passed([e])
    {
      hide Replays, Blemished, Warned, Relays;
      BlemishesOne(delivered + events, e);
      PassedConcat(delivered + events, [e]);
      ReplayPlain(delivered + events, slots, e);
      Assoc(delivered, events, [e]);
      events := events + [e];
    }

    /** Relays one event of the session layer, with the status changes it leads to. */
    method RelayHeard(e: CaEvent)
      requires e.slotId < |slots| && About(e, e.slotId) && Replays(delivered + events, slots) && session.Valid()
      modifies this`slots, this`events
      ensures Replays(delivered + events, slots)
      ensures slots == old(slots)[e.slotId := Heard(old(slots)[e.slotId], e, session.Now())]
      ensures events == old(events) + Relayed(old(slots)[e.slotId], e, session.Now())
      ensures BlemishesBut(old(delivered + events), delivered + events, -1)
      ensures Told() == old(Told()) + Passed([e])
      ensures e.MalformedData? ==> delivered + events == old(delivered + events) + [e]
    {
      hide Replays, AllSound, OnRecord, AI.RevisionsOk, WorldOk, AI.HasInfo, HasCaInfo, CamOf, StatusEvents,
        CamEvents, BlemishesBut, Warned, Relays, Passed;
      PassedOne(e);
      PassedOne(MalformedData(e.slotId));
      var slotId := e.slotId;
      assert slots[slotId := slots[slotId]] == slots;
      if e.TransportReady? {
        RelayReady(e);
      } else if (e.AppInfoReceived? || e.CaInfoReceived?) && slots[slotId].status != SlotStatus.Active {
        Relay(MalformedData(slotId));
      } else if Telling(e) {
        RelayInformed(e);
      } else {
        Relay(e);
      }
    }

    /** A handshake on an active slot (re)arms the gate. */
    method Rearm(e: CaEvent)
      requires e.slotId < |slots| && pacer.Valid() && (lastTick.Some? ==> pacer.clock <= lastTick.value)
      modifies pacer`gate, pacer`clock, pacer`opening
      ensures pacer.Valid()
      ensures pacer.gate == Rearmed(old(pacer.gate), slots[e.slotId], e, lastTick, pacer.settle)
      ensures pacer.clock == old(pacer.clock) || lastTick == Some(pacer.clock)
    {
      hide Paced, Reopened, Changes, QueueOk, SameLast;
      if slots[e.slotId].status == SlotStatus.Active && lastTick.Some? {
        if e.AppInfoReceived? {
          pacer.ArmApplicationInfo(lastTick.value);
        } else if e.CaInfoReceived? && e.caids != [] {
          pacer.ArmCaInfo(lastTick.value);
        }
      }
    }

    /** Hears one event of the session layer and relays it. */
    method Hear(e: CaEvent)
      requires e.slotId < |slots| && About(e, e.slotId)
      requires session.Valid() && pacer.Valid() && CoreOk(Now().(pending := [e] + session.events))
      modifies this`slots, this`events, pacer`gate, pacer`clock, pacer`opening
      ensures Core()
      ensures slots == old(slots)[e.slotId := Heard(old(slots)[e.slotId], e, session.Now())]
      ensures events == old(events) + Relayed(old(slots)[e.slotId], e, session.Now())
      ensures pacer.gate == Rearmed(old(pacer.gate), old(slots)[e.slotId], e, lastTick, pacer.settle)
    {
      hide Replays, AllSound, OnRecord, AI.RevisionsOk, WorldOk, Paced, Changes, QueueOk, SameLast, ApplyAll, CoreOk,
        BlemishesBut, Heard, Relayed, Passed, CaPmtPacer.Valid, CiSession.Valid;
      ghost var st := Now().(pending := [e] + session.events);
      CoreForeign(st);
      ClockPast(st);
      Rearm(e);
      RelayHeard(e);
      HeardCore(st, Now(), e);
    }

    /** Hears everything the session layer has reported. */
    method CollectSessionEvents()
      requires Core()
      modifies this`slots, this`events, session`events, session`delivered, pacer`gate, pacer`clock, pacer`opening
      ensures Core() && session.events == [] && session.Now() == old(session.Now())
      ensures slots == HeardAll(old(slots), old(session.events), session.Now())
      ensures events == old(events) + RelayedAll(old(slots), old(session.events), session.Now())
      ensures pacer.gate == RearmedAll(old(pacer.gate), old(slots), old(session.events), session.Now(),
                                       lastTick, pacer.settle)
      ensures old(session.events) == [] ==> pacer.clock == old(pacer.clock)
    {
      hide AllSound, OnRecord, AI.RevisionsOk, WorldOk, Paced, Changes, QueueOk, SameLast, CoreOk, Heard, Relayed,
        Rearmed, HeardAll, RelayedAll, RearmedAll, HeardSoFar, Foreign;
      ghost var w, all, slots0, events0, gate0 := session.Now(), session.events, slots, events, pacer.gate;
      CoreForeign(Now());
      HeardStart(slots0, w, events0, gate0, all, lastTick, pacer.settle);
      ghost var i := 0;
      while session.events != []
        invariant Core() && session.Now() == w && i <= |all| && session.events == all[i..]
        invariant |slots| == |slots0| && Foreign(all, |slots|)
        invariant i == 0 ==> pacer.clock == old(pacer.clock)
        invariant HeardSoFar(slots0, slots, w, events0, events, gate0, pacer.gate, all, i, lastTick, pacer.settle)
        decreases |session.events|
      {
        HearNext(slots0, w, events0, gate0, all, i);
        i := i + 1;
      }
      HeardWhole(slots0, slots, w, events0, events, gate0, pacer.gate, all, lastTick, pacer.settle);
    }

    method HearNext(ghost slots0: seq<CSlot>, ghost w: World, ghost events0: seq<CaEvent>, ghost gate0: Gate,
                    ghost all: seq<CaEvent>, ghost i: nat)
      requires Core() && session.Now() == w && i < |all| && session.events == all[i..]
      requires |slots| == |slots0| && Foreign(all, |slots|)
      requires HeardSoFar(slots0, slots, w, events0, events, gate0, pacer.gate, all, i, lastTick, pacer.settle)
      modifies this`slots, this`events, session`events, session`delivered, pacer`gate, pacer`clock, pacer`opening
      ensures Core() && session.Now() == w && session.events == all[i + 1..] && |slots| == |slots0|
      ensures HeardSoFar(slots0, slots, w, events0, events, gate0, pacer.gate, all, i + 1, lastTick, pacer.settle)
    {
      hide AllSound, OnRecord, AI.RevisionsOk, WorldOk, Paced, Changes, QueueOk, SameLast, CoreOk, Heard, Relayed,
        Rearmed, HeardSoFar, Foreign;
      ghost var slots1, events1, gate1 := slots, events, pacer.gate;
      ForeignAt(all, |slots|, i);
      ghost var st := Now();
      var e := session.NextEvent();
      assert st.pending == [e.value] + session.events;
      assert Now().(pending := [e.value] + session.events) == st;
      Hear(e.value);
      HeardNext(slots0, slots1, slots, w, events0, events1, events, gate0, gate1, pacer.gate, all, i, lastTick,
                pacer.settle);
    }

    // -------------------------------------------------------------------- recovery

    /** Drops one slot and clears its timers. */
    method DropAndClear(slotId: byte)
      requires Core() && slotId < |slots|
      modifies this`slots, session`table, session`events, session.app`sessions, session.ca`sessions, session.dates,
        session.mmi, session.transport
      ensures Core() && SlotDropped(old(session.Now()), session.Now(), slotId)
      ensures slots == old(slots)[slotId := Cleared(old(slots)[slotId])]
      ensures session.events == old(session.events) + session.Now().log[|old(session.Now()).log|..]
      ensures old(Synchronized(session.Now())) ==> Synchronized(session.Now())
    {
      hide AllSound, OnRecord, AI.RevisionsOk, WorldOk, Paced, Changes, QueueOk, SameLast, ApplyAll, Replays, Foreign,
        Synchronized, Warned, Relays;
      ghost var a := session.Now();
      session.DropSlot(slotId);
      DroppedFacts(a, session.Now(), slotId);
      PendingGrows(session.delivered, old(session.events), session.events, slotId, |slots|);
      RelaysMore(delivered + events, old(session.events), a.log, session.Now().log[|a.log|..]);
      assert session.Now().log == a.log + session.Now().log[|a.log|..];
      DroppedSwallow(delivered + events, old(session.events), a, session.Now(), slotId);
      ReplayFields(delivered + events, slots, slotId, Cleared(slots[slotId]));
      slots := slots[slotId := Cleared(slots[slotId])];
    }

    /** Drops the next slot of all. */
    method DropNext(slotId: byte, ghost slots0: seq<CSlot>, ghost w0: World, ghost pending0: seq<CaEvent>)
      requires Core() && slotId < |slots|
      requires Dropping(slots0, w0, slots, session.Now(), session.events, slotId)
      requires pending0 == [] ==> AllClosings(session.events)
      modifies this`slots, session`table, session`events, session.app`sessions, session.ca`sessions, session.dates,
        session.mmi, session.transport
      ensures Core() && |slots| == |old(slots)|
      ensures Dropping(slots0, w0, slots, session.Now(), session.events, slotId + 1)
      ensures pending0 == [] ==> AllClosings(session.events)
    {
      hide AllSound, OnRecord, AI.RevisionsOk, WorldOk, Paced, Changes, QueueOk, SameLast, ApplyAll, Replays, Foreign,
        Synchronized, Dropping, SlotDropped, AllClosings, Cleared, CoreOk;
      ghost var a, pending := session.Now(), session.events;
      ghost var slots1 := slots;
      DropAndClear(slotId);
      DroppingStep(slots0, w0, slots1, a, session.Now(), pending, slotId);
      ClosingsGrow(a, session.Now(), slotId, pending);
    }

    method DropEach(ghost pending0: seq<CaEvent>)
      requires Core() && pending0 == session.events
      modifies this`slots, session`table, session`events, session.app`sessions, session.ca`sessions, session.dates,
        session.mmi, session.transport
      ensures Core() && |slots| == |old(slots)|
      ensures Dropping(old(slots), old(session.Now()), slots, session.Now(), session.events, |slots|)
      ensures pending0 == [] ==> AllClosings(session.events)
    {
      hide AllSound, OnRecord, AI.RevisionsOk, WorldOk, Paced, Changes, QueueOk, SameLast, ApplyAll, Replays, Foreign,
        Synchronized, Dropping, AllClosings, CoreOk;
      ghost var w0 := session.Now();
      CoreSizes(Now());
      DroppingStart(slots, w0, session.events);
      NoClosings();
      for slotId := 0 to |slots|
        invariant Core() && |slots| == |old(slots)|
        invariant Dropping(old(slots), w0, slots, session.Now(), session.events, slotId)
        invariant pending0 == [] ==> AllClosings(session.events)
      {
        DropNext(slotId, old(slots), w0, pending0);
      }
    }

    method DropAllSlots()
      requires Core()
      modifies this`slots, this`events, session`table, session`events, session`delivered, session.app`sessions,
        session.ca`sessions, session.dates, session.mmi, session.transport, pacer`gate, pacer`clock, pacer`opening
      ensures Core() && session.events == [] && Synchronized(session.Now())
      ensures DroppedAll(old(slots), old(session.Now()), old(session.events), slots, session.Now())
      ensures old(events) <= events && |slots| == |old(slots)|
    {
      hide AllSound, OnRecord, AI.RevisionsOk, WorldOk, Paced, Changes, QueueOk, SameLast, ApplyAll, Replays, Foreign,
        Synchronized, Dropping, DroppedAll, AllClosings, CoreOk, HeardAll, RelayedAll, RearmedAll;
      ghost var w0, pending0 := session.Now(), session.events;
      DropEach(pending0);
      ghost var slots2, pending2 := slots, session.events;
      CollectSessionEvents();
      DroppingEnd(old(slots), w0, pending0, slots2, session.Now(), pending2);
    }

    /** Reports why the link is given up: for one slot, or for every module. */
    method ReportFailures(failed: Option<byte>, reason: SlotFailure)
      requires |slots| < 0x100 && Replays(delivered + events, slots)
      modifies this`events
      ensures Replays(delivered + events, slots)
      ensures events == old(events) + FailureEvents(slots, failed, reason, |slots|)
      ensures BlemishesBut(old(delivered + events), delivered + events, -1)
      ensures Told() == old(Told())
    {
      hide Replays, BlemishesBut, Warned, Relays, Passed;
      if failed.Some? {
        PassedOne(SlotFailed(failed.value, reason));
        Relay(SlotFailed(failed.value, reason));
        return;
      }
      assert events == old(events) + [];
      BlemishesRefl(delivered + events, -1);
      for slotId := 0 to |slots|
        invariant Replays(delivered + events, slots)
        invariant events == old(events) + FailureEvents(slots, failed, reason, slotId)
        invariant BlemishesBut(old(delivered + events), delivered + events, -1)
        invariant Told() == old(Told())
      {
        if slots[slotId].status != SlotStatus.Absent {
          Assoc(old(events), FailureEvents(slots, failed, reason, slotId), [SlotFailed(slotId, reason)]);
          ghost var log := delivered + events;
          PassedOne(SlotFailed(slotId, reason));
          Relay(SlotFailed(slotId, reason));
          BlemishesTrans(old(delivered + events), log, delivered + events, -1);
        }
      }
    }

    method ReportAll(failed: Option<byte>, reason: SlotFailure)
      requires Core()
      modifies this`events
      ensures Core() && |slots| < 0x100
      ensures events == old(events) + FailureEvents(slots, failed, reason, |slots|)
    {
      hide AllSound, OnRecord, AI.RevisionsOk, WorldOk, Paced, Changes, QueueOk, SameLast, ApplyAll, Replays, Foreign,
        Synchronized, CoreOk, BlemishesBut, Passed, FailureEvents;
      ghost var st := Now();
      CoreForeign(st);
      ReportFailures(failed, reason);
      CoreStatus(st, Now(), -1);
    }

    /** Takes a dropped slot out of the link. */
    method Unseat(slotId: byte, retryAt: Option<nat>, status: SlotStatus)
      requires slotId < |slots| && Replays(delivered + events, slots) && status != SlotStatus.Active
      modifies this`slots, this`events
      ensures Replays(delivered + events, slots)
      ensures slots == old(slots)[slotId := old(slots)[slotId].(ready := false, retryAt := retryAt,
                                                               cam := CamStatus.NoInfo, status := status)]
      ensures old(events) <= events && Told() == old(Told())
    {
      hide Replays, Warned, Relays;
      ReplayFields(delivered + events, slots, slotId, slots[slotId].(ready := false, retryAt := retryAt));
      slots := slots[slotId := slots[slotId].(ready := false, retryAt := retryAt)];
      SetCamStatus(slotId, CamStatus.NoInfo);
      SetSlotStatus(slotId, status);
    }

    /** After a failed CA_RESET: present modules are lost until the application resets. */
    method MarkResetFailed()
      requires |slots| < 0x100 && Replays(delivered + events, slots)
      modifies this`slots, this`events
      ensures Replays(delivered + events, slots) && old(events) <= events && |slots| == |old(slots)|
      ensures Told() == old(Told())
      ensures forall s | 0 <= s < |slots| :: slots[s] == ResetLost(old(slots)[s])
      ensures AllBlamed(slots, old(events), events, ResetFailed)
    {
      hide Replays, Warned, Relays, Passed, Blamed;
      for slotId := 0 to |slots|
        invariant |slots| == |old(slots)| && Replays(delivered + events, slots) && old(events) <= events
        invariant Told() == old(Told())
        invariant forall s: byte | s < slotId && slots[s].present :: Blamed(old(events), events, s, ResetFailed)
        invariant forall s | 0 <= s < slotId :: slots[s] == ResetLost(old(slots)[s])
        invariant forall s | slotId <= s < |slots| :: slots[s] == old(slots)[s]
      {
        if slots[slotId].present {
          ghost var slots1, events1 := slots, events;
          ReplayFields(delivered + events, slots, slotId, slots[slotId].(retryAt := None));
          slots := slots[slotId := slots[slotId].(retryAt := None)];
          PassedOne(SlotFailed(slotId, ResetFailed));
          Relay(SlotFailed(slotId, ResetFailed));
          SetSlotStatus(slotId, SlotStatus.Failed);
          BlamedAt(old(events), events, |events1|, slotId, ResetFailed);
          forall s: byte | s < slotId && slots1[s].present ensures Blamed(old(events), events, s, ResetFailed) {
            BlamedStill(old(events), events1, events, s, ResetFailed);
          }
        }
      }
    }

    /** Gives up every connection: drops all slots, closes the gate, resets the
        whole interface and, if that worked, schedules a retry. */
    method RecoverAll(failed: Option<byte>, reason: SlotFailure, now: nat) returns (r: Result<()>)
      requires Core() && lastTick == Some(now) && MayReset(resets, config.retryInterval, now)
      requires failed.Some? ==> failed.value < |slots|
      modifies this`slots, this`events, this`linkSuspended, this`recoveryAt, this`deferredLinkFailure,
        this`nextStatusCheck, this`resets, session`table, session`events, session`delivered, session.app`sessions,
        session.ca`sessions, session.dates, session.mmi, session.transport, session.transport.link`resets, pacer`gate,
        pacer`clock, pacer`opening, pacer`closings
      ensures Valid() && linkSuspended && |slots| == |old(slots)|
      ensures r.Err? ==> r.error == Io
      ensures resets == old(resets) + [ResetRecord(now, r.Ok?)] && OneReset(old(Ledger()), Ledger())
      ensures session.transport.link.resets == old(session.transport.link.resets) + [r.Ok?]
      ensures recoveryAt == nextStatusCheck == if r.Ok? then Some(now + config.retryInterval) else None
      ensures pacer.closings == old(pacer.closings) + [GateClosing(now, |pacer.releases|)]
      ensures forall s | 0 <= s < |slots| :: slots[s].present == old(slots)[s].present
      ensures old(|slots|) < 0x100
              && old(events) + FailureEvents(old(slots), failed, reason, |old(slots)|) <= events
      ensures pacer.gate == NotReady
      ensures Quits(old(View()), View())
      ensures failed.Some? ==> Blamed(old(events), events, failed.value, reason)
      ensures failed == None ==> AllBlamed(old(slots), old(events), events, reason)
      ensures r.Err? ==> AllBlamed(slots, old(events), events, ResetFailed)
    {
      hide AllSound, OnRecord, AI.RevisionsOk, WorldOk, Paced, Changes, QueueOk, SameLast, ApplyAll, Replays, Foreign,
        Synchronized, DroppedAll, FailureEvents, MayReset, CoreOk, StateOk, Quits, Blamed, OneReset, Goes,
        CaPmtPacer.Valid, CiSession.Valid, CiController.Core, CiController.Valid, AllBlamed;
      Sizes();
      ReportAll(failed, reason);
      Sizes();
      GoesOn();
      ghost var b := View();
      if failed.Some? {
        BlameOne(old(events), events, old(slots), failed.value, reason);
      } else {
        BlameEach(old(events), events, old(slots), reason, |old(slots)|);
        assert old(slots)[..|old(slots)|] == old(slots);
      }
      ghost var events1 := events;
      r := GiveUp(now);
      if failed.Some? {
        BlamedStill(old(events), events1, events, failed.value, reason);
      } else {
        AllBlamedIn(old(slots), old(events), old(events), events1, events, reason);
      }
      if r.Err? {
        AllBlamedIn(slots, old(events), events1, events, events, ResetFailed);
      }
      QuitsLater(old(View()), b, View());
    }

    lemma CoreWorld()
      requires Core()
      ensures WorldOk(session.Now())
    {
    }

    lemma Parts()
      ensures Valid() <==> session.Valid() && pacer.Valid() && StateOk(Now(), config.retryInterval)
    {
      hide CaPmtPacer.Valid, CiSession.Valid, StateOk;
    }

    /** The gate is closed while the link is suspended. */
    lemma Shut()
      requires Valid()
      ensures linkSuspended ==> pacer.gate == NotReady
    {
      hide CaPmtPacer.Valid, CiSession.Valid;
    }

    lemma Rested()
      requires Valid()
      ensures Core() && session.events == [] && AllOk(slots, session.Now()) && Synchronized(session.Now())
      ensures |slots| == |session.transport.slots| && (lastTick == None ==> AllAbsent(slots))
    {
      hide AllSound, OnRecord, AI.RevisionsOk, WorldOk, Synchronized, AllOk, Replays, Foreign, ApplyAll, ResetsOk;
    }

    lemma TickingCore(now: nat)
      requires Ticking(now)
      ensures Core() && lastTick == Some(now) && MayReset(resets, config.retryInterval, now)
    {
      hide AllSound, OnRecord, AI.RevisionsOk, WorldOk, CoreOk, MayReset, Synchronized;
    }

    lemma Sizes()
      requires Core()
      ensures 0 < |slots| == |session.transport.slots| == |session.transport.hist| < 0x100
    {
      CoreSizes(Now());
    }

    /** Only the link was used since. */
    twostate lemma GoesOn()
      requires |old(slots)| == |slots| == |session.transport.slots| == |session.transport.hist| < 0x100
      requires Ledger() == old(Ledger()) && Pace() == old(Pace()) && pacer.releases == old(pacer.releases)
      requires linkSuspended == old(linkSuspended) && delivered == old(delivered) && old(events) <= events
      ensures Goes(old(View()), View())
    {
      LogGrows(delivered, old(events), events);
      hide Changes;
    }

    /** What it is to have given the link up. */
    lemma QuitNow(a: TickView, events0: seq<CaEvent>)
      requires Valid() && linkSuspended && |slots| == |a.slots| && pacer.releases == a.releases
      requires OneReset(a.ledger, Ledger()) && Pace() == a.pace.(gate := pacer.gate)
      requires a.log == delivered + events0 && events0 <= events
      ensures Quits(a, View())
    {
      hide AllSound, OnRecord, AI.RevisionsOk, WorldOk, Paced, QueueOk, SameLast, StateOk, OneReset;
      CoreBounds(Now(), config.retryInterval);
      ClosedGate(Now(), config.retryInterval);
      GivenUp(Now(), config.retryInterval);
      LogGrows(delivered, events0, events);
    }

    /** Drops all slots, closes the gate and resets the interface. */
    method GiveUp(now: nat) returns (r: Result<()>)
      requires Core() && lastTick == Some(now) && MayReset(resets, config.retryInterval, now)
      modifies this`slots, this`events, this`linkSuspended, this`recoveryAt, this`deferredLinkFailure,
        this`nextStatusCheck, this`resets, session`table, session`events, session`delivered, session.app`sessions,
        session.ca`sessions, session.dates, session.mmi, session.transport, session.transport.link`resets, pacer`gate,
        pacer`clock, pacer`opening, pacer`closings
      ensures Valid() && linkSuspended && |slots| == |old(slots)| && old(events) <= events
      ensures r.Err? ==> r.error == Io
      ensures resets == old(resets) + [ResetRecord(now, r.Ok?)] && OneReset(old(Ledger()), Ledger())
      ensures session.transport.link.resets == old(session.transport.link.resets) + [r.Ok?]
      ensures recoveryAt == nextStatusCheck == if r.Ok? then Some(now + config.retryInterval) else None
      ensures pacer.closings == old(pacer.closings) + [GateClosing(now, |pacer.releases|)]
      ensures forall s | 0 <= s < |slots| :: slots[s].present == old(slots)[s].present
      ensures pacer.gate == NotReady
      ensures Quits(old(View()), View())
      ensures r.Err? ==> AllBlamed(slots, old(events), events, ResetFailed)
    {
      hide AllSound, OnRecord, AI.RevisionsOk, WorldOk, Paced, Changes, QueueOk, SameLast, ApplyAll, Replays, Foreign,
        Synchronized, DroppedAll, FailureEvents, MayReset, CoreOk, StateOk, Quits, CaPmtPacer.Valid, CiSession.Valid,
        CiController.Core, CiController.Valid, AllBlamed;
      Sizes();
      ghost var w0, pending0 := session.Now(), session.events;
      DropAllSlots();
      CloseGate(now);
      ghost var events1 := events;
      r := ResetLink(now, old(slots), w0, pending0);
      if r.Err? {
        AllBlamedIn(slots, old(events), events1, events, events, ResetFailed);
      }
      QuitNow(old(View()), old(events));
    }

    /** No program change is let out until the next handshake. */
    method CloseGate(ghost now: nat)
      requires Core() && now == ClockOf(lastTick)
      modifies pacer`gate, pacer`clock, pacer`closings
      ensures Core() && pacer.gate == NotReady
      ensures pacer.closings == old(pacer.closings) + [GateClosing(now, |pacer.releases|)]
    {
      hide AllSound, OnRecord, AI.RevisionsOk, WorldOk, Paced, Changes, QueueOk, SameLast, ApplyAll, Replays, Foreign,
        TimersPast, Warned, Relays;
      pacer.ResetGate(now);
    }

    /** Resets the interface once every slot is dropped. */
    method ResetLink(now: nat, ghost slots0: seq<CSlot>, ghost w0: World, ghost pending0: seq<CaEvent>)
      returns (r: Result<()>)
      requires Core() && lastTick == Some(now) && MayReset(resets, config.retryInterval, now)
      requires session.events == [] && Synchronized(session.Now()) && pacer.gate == NotReady
      requires DroppedAll(slots0, w0, pending0, slots, session.Now())
      modifies this`slots, this`events, this`linkSuspended, this`recoveryAt, this`deferredLinkFailure,
        this`nextStatusCheck, this`resets, session.transport.link`resets
      ensures Valid() && linkSuspended && |slots| == |old(slots)|
      ensures r.Err? ==> r.error == Io
      ensures resets == old(resets) + [ResetRecord(now, r.Ok?)]
      ensures session.transport.link.resets == old(session.transport.link.resets) + [r.Ok?]
      ensures recoveryAt == nextStatusCheck == if r.Ok? then Some(now + config.retryInterval) else None
      ensures |slots0| == |slots| && forall s | 0 <= s < |slots| :: slots[s].present == slots0[s].present
      ensures old(events) <= events
      ensures r.Err? ==> AllBlamed(slots, old(events), events, ResetFailed)
    {
      hide AllSound, OnRecord, AI.RevisionsOk, WorldOk, Paced, Changes, QueueOk, SameLast, ApplyAll, Replays, Foreign,
        Synchronized, DroppedAll, StateOk, Calm, MayReset, Warned, Relays, Passed, AllBlamed;
      CoreSizes(Now());
      DroppedSizes(slots0, w0, pending0, slots, session.Now());
      ghost var dropped := slots;
      r := session.transport.link.Reset();
      var retryAt := if r.Ok? then Some(now + config.retryInterval) else None;
      Suspend(retryAt, now, r.Ok?);
      FallBack(retryAt, r.Ok?);
      RelaysLog(old(delivered + events), delivered + events, session.events, session.Now().log);
      DroppedWarned(slots0, w0, pending0, dropped, session.Now(), delivered + events, session.events);
      RecoveredOk(slots0, w0, pending0, dropped, Now(), retryAt, old(resets), config.retryInterval, now);
    }

    /** Every module is out of the link, for good if the reset failed. */
    method FallBack(retryAt: Option<nat>, ok: bool)
      requires |slots| < 0x100 && Replays(delivered + events, slots)
      modifies this`slots, this`events
      ensures Replays(delivered + events, slots) && old(events) <= events && |slots| == |old(slots)|
      ensures Told() == old(Told())
      ensures ok ==> forall s | 0 <= s < |slots| :: slots[s] == Unseated(old(slots)[s], retryAt, SlotStatus.Failed)
      ensures !ok ==> forall s | 0 <= s < |slots| ::
                slots[s] == ResetLost(Unseated(old(slots)[s], retryAt, SlotStatus.Failed))
      ensures !ok ==> AllBlamed(slots, old(events), events, ResetFailed)
    {
      hide Replays, Unseated, ResetLost, Warned, Relays, Passed, AllBlamed;
      UnseatAll(retryAt, SlotStatus.Failed);
      if !ok {
        ghost var events1 := events;
        MarkResetFailed();
        AllBlamedIn(slots, old(events), events1, events, events, ResetFailed);
      }
    }

    /** Nothing is read or written until the recovery deadline, if there is one. */
    method Suspend(retryAt: Option<nat>, ghost now: nat, ghost ok: bool)
      modifies this`linkSuspended, this`recoveryAt, this`deferredLinkFailure, this`nextStatusCheck, this`resets
      ensures linkSuspended && recoveryAt == nextStatusCheck == retryAt && !deferredLinkFailure
      ensures resets == old(resets) + [ResetRecord(now, ok)]
    {
      linkSuspended, recoveryAt, deferredLinkFailure, nextStatusCheck := true, retryAt, false, retryAt;
      resets := resets + [ResetRecord(now, ok)];
    }

    /** Takes every dropped slot out of the link. */
    method UnseatAll(retryAt: Option<nat>, status: SlotStatus)
      requires |slots| < 0x100 && Replays(delivered + events, slots) && status in {Present, SlotStatus.Failed}
      modifies this`slots, this`events
      ensures Replays(delivered + events, slots) && old(events) <= events && |slots| == |old(slots)|
      ensures Told() == old(Told())
      ensures forall s | 0 <= s < |slots| :: slots[s] == Unseated(old(slots)[s], retryAt, status)
    {
      hide Replays, Warned, Relays, Passed;
      for slotId := 0 to |slots|
        invariant |slots| == |old(slots)| && Replays(delivered + events, slots) && old(events) <= events
        invariant Told() == old(Told())
        invariant forall s | 0 <= s < slotId :: slots[s] == Unseated(old(slots)[s], retryAt, status)
        invariant forall s | slotId <= s < |slots| :: slots[s] == old(slots)[s]
      {
        Unseat(slotId, retryAt, if slots[slotId].present then status else SlotStatus.Absent);
      }
    }

    /** Resets the complete interface at the application's request: modules start
        again from their physical state, or are lost if the reset fails. */
    method Reset() returns (r: Result<()>)
      requires Valid()
      modifies this`slots, this`events, this`linkSuspended, this`recoveryAt, this`deferredLinkFailure,
        this`nextStatusCheck, this`resets, session`table, session`events, session`delivered, session.app`sessions,
        session.ca`sessions, session.dates, session.mmi, session.transport, session.transport.link`resets, pacer`gate,
        pacer`clock, pacer`opening, pacer`closings
      ensures Valid() && |slots| == |old(slots)| && pacer.gate == NotReady
      ensures pacer.closings == old(pacer.closings) + [GateClosing(ClockOf(lastTick), |pacer.releases|)]
      ensures session.transport.link.resets == old(session.transport.link.resets) + [r.Ok?]
      ensures r.Ok? ==> !linkSuspended && nextStatusCheck == None
      ensures r.Err? ==> linkSuspended && recoveryAt == None
      ensures Restarted(old(slots), slots, if r.Ok? then Present else SlotStatus.Failed)
      ensures Passes(old(Seen()), ResetCall, Seen(), config)
      ensures resets == [] && old(events) <= events
      ensures Proceeds(old(Pace()), OtherCall, Pace())
      ensures r.Err? ==> AllBlamed(slots, old(events), events, ResetFailed)
    {
      hide AllSound, OnRecord, AI.RevisionsOk, WorldOk, Paced, Changes, QueueOk, SameLast, ApplyAll, Replays, Foreign,
        Synchronized, StateOk, CoreOk, AllBut, AllFine, AllAbsent, Passes, Restarted, CaPmtPacer.Valid, CiSession.Valid,
        CiController.Core, CiController.Valid, AllBlamed, CiController.Pace, Proceeds, OnlyGate;
      ghost var slots0, w0 := slots, session.Now();
      Rested();
      HearNothing();
      Rested();
      r := Restart(slots0, w0);
      Rested();
      GateOnly();
      ResetPasses(old(Seen()), Seen(), if r.Ok? then Present else SlotStatus.Failed, config);
    }

    /** Drops every slot and resets the interface. */
    method Restart(ghost slots0: seq<CSlot>, ghost w0: World) returns (r: Result<()>)
      requires Core() && session.events == [] && AllOk(slots, session.Now())
      requires slots0 == slots && w0 == session.Now() && (lastTick == None ==> AllAbsent(slots))
      modifies this`slots, this`events, this`linkSuspended, this`recoveryAt, this`deferredLinkFailure,
        this`nextStatusCheck, this`resets, session`table, session`events, session`delivered, session.app`sessions,
        session.ca`sessions, session.dates, session.mmi, session.transport, session.transport.link`resets, pacer`gate,
        pacer`clock, pacer`opening, pacer`closings
      ensures Valid() && |slots| == |slots0| && pacer.gate == NotReady
      ensures pacer.closings == old(pacer.closings) + [GateClosing(ClockOf(lastTick), |pacer.releases|)]
      ensures session.transport.link.resets == old(session.transport.link.resets) + [r.Ok?]
      ensures r.Ok? ==> !linkSuspended && nextStatusCheck == None
      ensures r.Err? ==> linkSuspended && recoveryAt == None
      ensures Restarted(slots0, slots, if r.Ok? then Present else SlotStatus.Failed)
      ensures |session.transport.slots| == |slots| && resets == [] && old(events) <= events
      ensures r.Err? ==> AllBlamed(slots, old(events), events, ResetFailed)
    {
      hide AllSound, OnRecord, AI.RevisionsOk, WorldOk, Paced, Changes, QueueOk, SameLast, ApplyAll, Replays, Foreign,
        Synchronized, DroppedAll, StateOk, CoreOk, AllBut, AllFine, AllAbsent, Restarted, AllBlamed;
      DropAllSlots();
      CloseGate(ClockOf(lastTick));
      ghost var events1 := events;
      r := RestartLink(slots0, w0);
      if r.Err? {
        AllBlamedIn(slots, old(events), events1, events, events, ResetFailed);
      }
    }

    /** The reset itself, once every slot is dropped. */
    method RestartLink(ghost slots0: seq<CSlot>, ghost w0: World) returns (r: Result<()>)
      requires Core() && session.events == [] && Synchronized(session.Now()) && pacer.gate == NotReady
      requires DroppedAll(slots0, w0, [], slots, session.Now()) && AllOk(slots0, w0)
      requires lastTick == None ==> AllAbsent(slots0)
      modifies this`slots, this`events, this`linkSuspended, this`recoveryAt, this`deferredLinkFailure,
        this`nextStatusCheck, this`resets, session.transport.link`resets
      ensures Valid() && |slots| == |slots0| && pacer.gate == NotReady
      ensures r.Ok? ==> !linkSuspended && nextStatusCheck == None
      ensures r.Err? ==> linkSuspended && recoveryAt == None
      ensures Restarted(slots0, slots, if r.Ok? then Present else SlotStatus.Failed)
      ensures |session.transport.slots| == |slots| && lastTick == old(lastTick) && resets == []
      ensures session.transport.link.resets == old(session.transport.link.resets) + [r.Ok?]
      ensures old(events) <= events
      ensures r.Err? ==> AllBlamed(slots, old(events), events, ResetFailed)
    {
      hide AllSound, OnRecord, AI.RevisionsOk, WorldOk, Paced, Changes, QueueOk, SameLast, ApplyAll, Replays, Foreign,
        Synchronized, DroppedAll, StateOk, AllBut, AllOk, AllAbsent, Warned, Relays, Passed, AllBlamed;
      CoreSizes(Now());
      ghost var dropped := slots;
      DroppedSizes(slots0, w0, [], slots, session.Now());
      r := session.transport.link.Reset();
      ClearRecovery(r.Ok?);
      if r.Ok? {
        UnseatAll(None, Present);
        RelaysLog(old(delivered + events), delivered + events, session.events, session.Now().log);
        DroppedWarned(slots0, w0, [], dropped, session.Now(), delivered + events, session.events);
        RestartedOk(slots0, w0, dropped, Now(), config.retryInterval);
      } else {
        MarkResetFailed();
        RelaysLog(old(delivered + events), delivered + events, session.events, session.Now().log);
        DroppedWarned(slots0, w0, [], dropped, session.Now(), delivered + events, session.events);
        LostOk(slots0, w0, dropped, Now(), config.retryInterval);
      }
    }

    /** A reset that was asked for starts a new count of automatic ones. */
    method ClearRecovery(ok: bool)
      modifies this`linkSuspended, this`recoveryAt, this`deferredLinkFailure, this`nextStatusCheck, this`resets
      ensures linkSuspended == !ok && recoveryAt == None && !deferredLinkFailure && resets == []
      ensures nextStatusCheck == if ok then None else old(nextStatusCheck)
    {
      linkSuspended, recoveryAt, deferredLinkFailure, resets := !ok, None, false, [];
      if ok {
        nextStatusCheck := None;
      }
    }

    // ------------------------------------------------------------------- receiving

    method MarkOutstanding(slotId: byte, now: nat)
      requires Core() && slotId < |slots| && lastTick == Some(now)
      modifies this`slots
      ensures Core()
      ensures slots == old(slots)[slotId := Marked(old(slots)[slotId], session.transport.slots[slotId], now)]
    {
      hide AllSound, OnRecord, AI.RevisionsOk, WorldOk, Paced, Changes, QueueOk, SameLast, ApplyAll, Replays, Foreign,
        Synchronized, CoreOk;
      ghost var st := Now();
      CoreSizes(st);
      slots := slots[slotId := Marked(slots[slotId], session.transport.slots[slotId], now)];
      CoreSlot(st, Now(), slotId);
    }

    /** Answers DATA_INDICATOR: once the slot is completely idle, exactly one TT_RCV. */
    method FlushReceivePending(slotId: byte, now: nat) returns (r: Result<()>)
      requires Core() && slotId < |slots| && lastTick == Some(now)
      requires Settled(slots[slotId], session.Now(), slotId) && CamSound(slots[slotId], session.Now(), slotId)
      modifies this`slots, session.transport, session.transport.link`writes
      ensures Core() && Controlled(old(session.Now()), session.Now(), slotId) && |slots| == |old(slots)|
      ensures StepFine(old(session.Now()), session.Now(), slotId, r)
      ensures old(Synchronized(session.Now())) ==> Synchronized(session.Now())
      ensures r.Err? ==> IsLinkError(r.error)
      ensures r.Ok? ==>
                Settled(slots[slotId], session.Now(), slotId) && CamSound(slots[slotId], session.Now(), slotId)
      ensures slots == old(slots)
              || (old(slots)[slotId].status == SlotStatus.Active == slots[slotId].status
                  && slots == old(slots)[slotId := slots[slotId]])
      ensures var c := old(slots)[slotId];
              var t := old(session.transport.slots)[slotId];
              var due := c.status == SlotStatus.Active && c.receivePending && Idle(t);
              && (!due ==> r.Ok? && slots == old(slots) && session.Now() == old(session.Now()))
              && (due && r.Ok? ==>
                    && slotId < |session.transport.hist| == |session.transport.slots|
                    && Tried(session.transport.slots[slotId], old(session.transport.link.writes),
                             session.transport.link.writes)
                    && slots[slotId] == Marked(c.(receivePending := false), session.transport.slots[slotId], now)
                    && session.transport.hist[slotId].sent
                       == old(session.transport.hist)[slotId].sent + [Single(RCV, [])])
      ensures old(session.transport.link.writes) <= session.transport.link.writes
    {
      hide AllSound, OnRecord, AI.RevisionsOk, WorldOk, Paced, Changes, QueueOk, SameLast, ApplyAll, Replays, Foreign,
        Synchronized, CoreOk, Settled, CamSound, Controlled, Marked, Tried;
      CoreSizes(Now());
      r := Ok(());
      if slots[slotId].status != SlotStatus.Active || !slots[slotId].receivePending
         || session.transport.IsBusy(slotId) || session.transport.QueueLen(slotId) != 0 {
        ControlledRefl(session.Now(), slotId);
        return;
      }
      r := IssueReceive(slotId);
      if r.Ok? {
        CoreSizes(Now());
        MarkedOk(slots[slotId], session.Now(), slotId, now);
        MarkOutstanding(slotId, now);
        OkParts(slots[slotId], session.Now(), slotId);
      }
    }

    method IssueReceive(slotId: byte) returns (r: Result<()>)
      requires Core() && slotId < |slots|
      requires Settled(slots[slotId], session.Now(), slotId) && CamSound(slots[slotId], session.Now(), slotId)
      requires slots[slotId].status == SlotStatus.Active && Idle(session.transport.slots[slotId])
      modifies this`slots, session.transport, session.transport.link`writes
      ensures Core() && Controlled(old(session.Now()), session.Now(), slotId) && |slots| == |old(slots)|
      ensures StepFine(old(session.Now()), session.Now(), slotId, r)
      ensures old(Synchronized(session.Now())) ==> Synchronized(session.Now())
      ensures r.Err? ==> IsLinkError(r.error) && slots == old(slots)
      ensures r.Ok? ==>
                && Settled(slots[slotId], session.Now(), slotId) && CamSound(slots[slotId], session.Now(), slotId)
                && slots == old(slots)[slotId := old(slots)[slotId].(receivePending := false)]
                && slotId < |session.transport.hist|
                && session.transport.hist[slotId].sent
                   == old(session.transport.hist)[slotId].sent + [Single(RCV, [])]
      ensures old(session.transport.link.writes) <= session.transport.link.writes
      ensures r.Ok? ==> slotId < |session.transport.slots|
                        && Tried(session.transport.slots[slotId], old(session.transport.link.writes),
                                 session.transport.link.writes)
    {
      hide AllSound, OnRecord, AI.RevisionsOk, WorldOk, Paced, Changes, QueueOk, SameLast, ApplyAll, Replays, Foreign,
        Synchronized, CoreOk, Settled, CamSound, Controlled, Tried;
      ghost var a, st := session.Now(), Now();
      CoreSizes(st);
      r := session.SendControl(slotId, RCV);
      ControlledStep(st, Now(), slotId);
      if r.Err? {
        return;
      }
      ControlledActive(slots[slotId], a, session.Now(), slotId);
      ghost var st2 := Now();
      slots := slots[slotId := slots[slotId].(receivePending := false)];
      CoreSlot(st2, Now(), slotId);
      PendingOff(old(slots)[slotId], session.Now(), slotId);
    }

    /** Starts the timer of a slot that is otherwise in order. */
    method MarkActive(slotId: byte, now: nat)
      requires Core() && slotId < |slots| && lastTick == Some(now) && AllBut(slots, session.Now(), slotId)
      requires Settled(slots[slotId], session.Now(), slotId) && CamSound(slots[slotId], session.Now(), slotId)
      requires AllFine(session.Now())
      modifies this`slots
      ensures Core() && AllOk(slots, session.Now())
      ensures slots == old(slots)[slotId := Marked(old(slots)[slotId], session.transport.slots[slotId], now)]
    {
      hide AllSound, OnRecord, AI.RevisionsOk, WorldOk, Paced, Changes, QueueOk, SameLast, ApplyAll, Replays, Foreign,
        Synchronized, CoreOk, AllBut, Settled, CamSound, Marked, SlotOk;
      CoreSizes(Now());
      MarkOutstanding(slotId, now);
      ButOnly(old(slots), slots, session.Now(), slotId);
      MarkedOk(old(slots)[slotId], session.Now(), slotId, now);
      ButThis(slots, session.Now(), slotId);
    }

    /** Hears what a frame of the slot led to. */
    method HearReports(slotId: byte)
      requires Core() && slotId < |slots| && AllBut(slots, session.Now(), slotId)
      requires Settled(slots[slotId], session.Now(), slotId)
      requires CamDue(slots[slotId], session.Now(), slotId, session.events) && AllAbout(session.events, slotId)
      modifies this`slots, this`events, session`events, session`delivered, pacer`gate, pacer`clock, pacer`opening
      ensures Core() && session.events == [] && session.Now() == old(session.Now()) && |slots| == |old(slots)|
      ensures slots == HeardAll(old(slots), old(session.events), session.Now())
      ensures AllBut(slots, session.Now(), slotId)
      ensures Settled(slots[slotId], session.Now(), slotId) && CamSound(slots[slotId], session.Now(), slotId)
      ensures AllCreateKept(old(slots), slots) && AllStatusHeard(old(slots), slots)
      ensures OthersSame(old(slots), slots, slotId) && old(events) <= events
      ensures pacer.gate == GateAfter(old(pacer.gate), Since(old(events), events), lastTick, pacer.settle)
    {
      hide AllSound, OnRecord, AI.RevisionsOk, WorldOk, Paced, Changes, QueueOk, SameLast, ApplyAll, Replays, Foreign,
        Synchronized, CoreOk, AllBut, Settled, CamSound, CamDue, AllAbout, HeardAll, RelayedAll, RearmedAll,
        AllCreateKept, AllStatusHeard, OthersSame, GateAfter;
      CoreSizes(Now());
      CoreWorld();
      ghost var reports, w := session.events, session.Now();
      CollectSessionEvents();
      HeardFrame(old(slots), slots, w, slotId, reports);
      AllRelayedGate(old(pacer.gate), old(slots), reports, w, lastTick, pacer.settle);
      assert Since(old(events), events) == RelayedAll(old(slots), reports, w);
    }

    /** A frame arrived on the slot: its timer stops, its reports are heard, and the
        DATA_INDICATOR counts if the slot is active after that. */
    method HearFrame(slotId: byte)
      requires Core() && slotId < |slots| && AllBut(slots, session.Now(), slotId)
      requires Settled(slots[slotId], session.Now(), slotId)
      requires CamDue(slots[slotId], session.Now(), slotId, session.events) && AllAbout(session.events, slotId)
      modifies this`slots, this`events, session`events, session`delivered, session.transport,
        pacer`gate, pacer`clock, pacer`opening
      ensures Core() && session.events == [] && |slots| == |old(slots)|
      ensures old(Synchronized(session.Now())) ==> Synchronized(session.Now())
      ensures AllBut(slots, session.Now(), slotId)
      ensures Settled(slots[slotId], session.Now(), slotId) && CamSound(slots[slotId], session.Now(), slotId)
      ensures AllCreateKept(old(slots), slots) && AllStatusHeard(old(slots), slots)
      ensures old(events) <= events && session.transport.hist == old(session.transport.hist)
      ensures OthersSame(old(slots), slots, slotId)
      ensures TrafficSame(old(session.transport.slots), session.transport.slots, slotId)
      ensures slotId < |session.transport.slots|
              && Noted(old(slots)[slotId], old(session.transport.slots)[slotId], slots[slotId],
                       session.transport.slots[slotId], Readied(old(session.events), slotId))
      ensures pacer.gate == GateAfter(old(pacer.gate), Since(old(events), events), lastTick, pacer.settle)
    {
      hide AllSound, OnRecord, AI.RevisionsOk, WorldOk, Paced, Changes, QueueOk, SameLast, ApplyAll, Replays, Foreign,
        Synchronized, CoreOk, AllBut, Settled, CamSound, CamDue, AllAbout, Controlled, HeardAll, RelayedAll, RearmedAll,
        AllCreateKept, AllStatusHeard, OthersSame, TrafficSame, Noted, Readied, GateAfter, Since, CaPmtPacer.Valid,
        CiSession.Valid;
      CoreWorld();
      CoreSizes(Now());
      if slots[slotId].status == SlotStatus.Active {
        StopTimer(slotId);
      }
      ghost var slots1, a, st := slots, session.Now(), Now();
      var pending := session.TakeDataPending(slotId);
      ControlledStep(st, Now(), slotId);
      ControlledTraffic(a, session.Now(), slotId);
      CoreWorld();
      ControlledOthers(slots, a, session.Now(), slotId);
      TakenSettled(slots[slotId], a, session.Now(), slotId, session.events);
      ghost var reports := session.events;
      HearReports(slotId);
      StoppedKept(old(slots), slots1, slots, slotId);
      ghost var slots2 := slots;
      if pending && slots[slotId].status == SlotStatus.Active {
        NotePending(slotId);
      }
      PendingKept(old(slots), slots2, slots, slotId);
      HeardNoted(old(slots)[slotId], a.slots[slotId], slots1, slots2, slots, session.Now(), slotId, reports);
    }

    method StopTimer(slotId: byte)
      requires Core() && slotId < |slots| && AllBut(slots, session.Now(), slotId)
      requires slots[slotId].status == SlotStatus.Active && Settled(slots[slotId], session.Now(), slotId)
      requires CamDue(slots[slotId], session.Now(), slotId, session.events)
      modifies this`slots
      ensures Core() && AllBut(slots, session.Now(), slotId)
      ensures slots == old(slots)[slotId := old(slots)[slotId].(commandSince := None)]
      ensures Settled(slots[slotId], session.Now(), slotId)
      ensures CamDue(slots[slotId], session.Now(), slotId, session.events)
    {
      hide AllSound, OnRecord, AI.RevisionsOk, WorldOk, Paced, Changes, QueueOk, SameLast, ApplyAll, Replays, Foreign,
        Synchronized, CoreOk, AllBut;
      ghost var st := Now();
      slots := slots[slotId := slots[slotId].(commandSince := None)];
      CoreSlot(st, Now(), slotId);
      ButOnly(old(slots), slots, session.Now(), slotId);
    }

    method NotePending(slotId: byte)
      requires Core() && slotId < |slots| && AllBut(slots, session.Now(), slotId)
      requires slots[slotId].status == SlotStatus.Active
      requires Settled(slots[slotId], session.Now(), slotId) && CamSound(slots[slotId], session.Now(), slotId)
      modifies this`slots
      ensures Core() && AllBut(slots, session.Now(), slotId)
      ensures slots == old(slots)[slotId := old(slots)[slotId].(receivePending := true)]
      ensures Settled(slots[slotId], session.Now(), slotId) && CamSound(slots[slotId], session.Now(), slotId)
    {
      hide AllSound, OnRecord, AI.RevisionsOk, WorldOk, Paced, Changes, QueueOk, SameLast, ApplyAll, Replays, Foreign,
        Synchronized, CoreOk, AllBut;
      ghost var st := Now();
      slots := slots[slotId := slots[slotId].(receivePending := true)];
      CoreSlot(st, Now(), slotId);
      ButOnly(old(slots), slots, session.Now(), slotId);
    }

    /** After the reports are heard: ask for more data if there is any, and time
        whatever is outstanding. */
    method Acknowledge(slotId: byte, now: nat) returns (r: Result<()>)
      requires Core() && slotId < |slots| && AllBut(slots, session.Now(), slotId)
      requires Settled(slots[slotId], session.Now(), slotId) && CamSound(slots[slotId], session.Now(), slotId)
      requires session.events == [] && Synchronized(session.Now()) && AllFine(session.Now())
      requires lastTick == Some(now) && !linkSuspended && !deferredLinkFailure && recoveryAt == None
      requires MayReset(resets, config.retryInterval, now)
      modifies this`slots, this`events, this`linkSuspended, this`recoveryAt, this`deferredLinkFailure,
        this`nextStatusCheck, this`resets, session`table, session`events, session`delivered, session.app,
        session.ca`sessions, session.dates, session.mmi, session.transport, session.transport.link`writes,
        session.transport.link`resets, pacer`gate, pacer`clock, pacer`opening, pacer`closings
      ensures Valid() && |slots| == |old(slots)|
      ensures r.Ok? ==> !linkSuspended
      ensures r.Ok? ==>
                Answered(old(slots), old(session.transport.slots), old(session.transport.hist), slots,
                         session.transport.slots, session.transport.hist, slotId, now)
      ensures r.Err? ==> linkSuspended
      ensures AtMostOneReset(old(Ledger()), Ledger())
      ensures r.Ok? ==> Ledger() == old(Ledger())
      ensures old(events) <= events && lastTick == old(lastTick)
      ensures r.Err? ==> Blamed(old(events), events, slotId, LinkFailed)
      ensures if r.Ok? then pacer.gate == old(pacer.gate) && events == old(events) else pacer.gate == NotReady
    {
      hide AllSound, OnRecord, AI.RevisionsOk, WorldOk, Paced, Changes, QueueOk, SameLast, ApplyAll, Replays, Foreign,
        Synchronized, CoreOk, AllBut, Settled, CamSound, SlotOk, FailureEvents, StateOk, MayReset, Marked, LinkOk,
        Controlled, AllCreateKept, AllStatusHeard, OthersSame, TrafficSame, CaPmtPacer.Valid, CiSession.Valid,
        CiController.Core, CiController.Valid, OneReset, Quits, Answered, Blamed, AllBlamed;
      ghost var slots0, w := slots, session.Now();
      CoreWorld();
      Sizes();
      r := FlushReceivePending(slotId, now);
      if r.Err? {
        var reset := RecoverAll(Some(slotId), LinkFailed, now);
        return;
      }
      ghost var slots1 := slots;
      CoreWorld();
      ControlledOthers(slots0, w, session.Now(), slotId);
      FineControlled(w, session.Now(), slotId, r);
      ButOnly(slots0, slots, session.Now(), slotId);
      Sizes();
      Conclude(slotId, now);
      AnsweredSo(slots0, slots1, slots, slotId, w, session.Now(), now);
    }

    /** Times what is outstanding; with that the slot is back in order. */
    method Conclude(slotId: byte, now: nat)
      requires Core() && slotId < |slots| && AllBut(slots, session.Now(), slotId)
      requires Settled(slots[slotId], session.Now(), slotId) && CamSound(slots[slotId], session.Now(), slotId)
      requires session.events == [] && Synchronized(session.Now()) && AllFine(session.Now())
      requires lastTick == Some(now) && !linkSuspended && !deferredLinkFailure && recoveryAt == None
      requires MayReset(resets, config.retryInterval, now)
      modifies this`slots
      ensures Valid() && |slots| == |old(slots)| == |session.transport.slots|
      ensures slots == old(slots)[slotId := Marked(old(slots)[slotId], session.transport.slots[slotId], now)]
    {
      hide AllSound, OnRecord, AI.RevisionsOk, WorldOk, Paced, Changes, QueueOk, SameLast, Synchronized, CoreOk,
        AllBut, AllFine, Settled, CamSound, StateOk, MayReset, Marked;
      CoreSizes(Now());
      MarkActive(slotId, now);
      RunningOk(Now(), config.retryInterval, now);
      CoreSizes(Now());
    }

    /** Handles one frame of the link. Without any, nothing happens. */
    method PollFrame() returns (r: Result<bool>)
      requires Valid() && !linkSuspended
      modifies this`slots, this`events, this`linkSuspended, this`recoveryAt, this`deferredLinkFailure,
        this`nextStatusCheck, this`resets, session`table, session`events, session`delivered, session.app,
        session.ca`sessions, session.dates, session.mmi, session.transport, session.transport.link`writes,
        session.transport.link`received, session.transport.link`dries, session.transport.link`resets, pacer`gate,
        pacer`clock, pacer`opening, pacer`closings
      ensures Valid() && |slots| == |old(slots)|
      ensures r.Ok? && !r.value ==>
                slots == old(slots) && session.transport.link.received == old(session.transport.link.received)
      ensures r.Ok? ==> !linkSuspended
      ensures r.Ok? && !r.value ==> session.transport.link.dries == old(session.transport.link.dries) + 1
      ensures r.Ok? && !r.value ==> session.transport.hist == old(session.transport.hist)
      ensures r.Ok? && r.value ==>
                && |session.transport.link.received| == |old(session.transport.link.received)| + 1
                && session.transport.link.dries == old(session.transport.link.dries)
                && (lastTick.Some? ==>
                      Heeded(old(slots), old(session.transport.slots), old(session.transport.hist), slots,
                             session.transport.slots, session.transport.hist,
                             session.transport.link.received[|old(session.transport.link.received)|], lastTick.value))
      ensures old(session.transport.link.received) <= session.transport.link.received
      ensures |session.transport.link.received| <= |old(session.transport.link.received)| + 1
      ensures !linkSuspended ==>
                PollKept(old(slots), old(session.transport.slots), slots, session.transport.slots,
                         Since(old(session.transport.link.received), session.transport.link.received))
      ensures r.Err? ==> linkSuspended || deferredLinkFailure
      ensures AtMostOneReset(old(Ledger()), Ledger())
      ensures r.Ok? ==> Ledger() == old(Ledger())
      ensures old(events) <= events
      ensures !linkSuspended ==>
                pacer.gate == GateAfter(old(pacer.gate), Since(old(events), events), lastTick, pacer.settle)
    {
      hide AllSound, OnRecord, AI.RevisionsOk, WorldOk, Paced, Changes, QueueOk, SameLast, ApplyAll, Replays, Foreign,
        Synchronized, CoreOk, AllOk, AllBut, SlotOk, FailureEvents, StateOk, MayReset, LinkOk, FrameHandled, SlotStep,
        PollKept, TrafficSame, Settled, CamSound, CamDue, Tried, StepBlameless, OneReset, Told, Heeded,
        CaPmtPacer.Valid, CiSession.Valid, CiController.Core, GateAfter, CiController.Valid;
      ghost var st, received0 := Now(), session.transport.link.received;
      Rested();
      CoreWorld();
      Parts();
      Unsuspended(st, config.retryInterval);
      var accept := ActiveSlots(slots);
      var received;
      ghost var frame, at;
      received, frame, at := session.RecvFiltered(accept);
      SinceMore(received0, if frame == [] then [] else [frame]);
      PollKeptRefl(st.slots, st.w.slots, Since(received0, session.transport.link.received));
      GateStays(pacer.gate, events, lastTick, pacer.settle);
      hide Since;
      if received == Ok(None) {
        assert Now() == st;
        Parts();
        return Ok(false);
      }
      if received.Err? {
        r := FailReceive(received.error, st, accept, frame, at);
        return;
      }
      BlamelessOk(st.w, session.Now(), at, received);
      var handled := HearReceived(received.value.value, st, accept, frame);
      if handled.Err? {
        return Err(handled.error);
      }
      return Ok(true);
    }

    /** A frame was received for the slot: hear what came of it. */
    method HearReceived(slotId: byte, ghost st: State, ghost accept: seq<bool>, ghost frame: seq<byte>)
      returns (r: Result<()>)
      requires session.Valid() && pacer.Valid() && StateOk(st, config.retryInterval) && !st.suspended
      requires Now() == st.(w := session.Now(), pending := session.events)
      requires st.w.log == session.delivered + st.pending
      requires WorldOk(st.w) && Synchronized(session.Now())
      requires SlotStep(st.w, session.Now(), slotId) && StepBlameless(st.w, session.Now(), slotId, Ok(()))
      requires FrameHandled(st.w, session.Now(), slotId, frame, Accepts(accept, slotId), true)
      requires |accept| == |slots| && forall s | 0 <= s < |slots| :: accept[s] <==> slots[s].status == SlotStatus.Active
      modifies this`slots, this`events, this`linkSuspended, this`recoveryAt, this`deferredLinkFailure,
        this`nextStatusCheck, this`resets, session`table, session`events, session`delivered, session.app,
        session.ca`sessions, session.dates, session.mmi, session.transport, session.transport.link`writes,
        session.transport.link`resets, pacer`gate, pacer`clock, pacer`opening, pacer`closings
      ensures Valid() && |slots| == |old(slots)|
      ensures r.Ok? ==>
                && !linkSuspended
                && PollKept(st.slots, st.w.slots, slots, session.transport.slots, [frame])
      ensures r.Err? ==> linkSuspended
      ensures AtMostOneReset(old(Ledger()), Ledger())
      ensures r.Ok? ==> Ledger() == old(Ledger())
      ensures old(events) <= events
      ensures r.Ok? && lastTick.Some? ==>
                Heeded(st.slots, st.w.slots, st.w.hist, slots, session.transport.slots, session.transport.hist, frame,
                       lastTick.value)
      ensures r.Err? ==> Blamed(old(events), events, slotId, LinkFailed)
      ensures if r.Ok? then pacer.gate == GateAfter(old(pacer.gate), Since(old(events), events), lastTick, pacer.settle)
              else pacer.gate == NotReady
    {
      hide AllSound, OnRecord, AI.RevisionsOk, WorldOk, Paced, Changes, QueueOk, SameLast, ApplyAll, Replays, Foreign,
        Synchronized, CoreOk, AllOk, AllBut, SlotOk, StateOk, MayReset, LinkOk, FrameHandled, SlotStep, PollKept,
        TrafficSame, Settled, CamSound, CamDue, AllAbout, HeardOn, AllAbsent, Heeded, Handled, Blamed, GateAfter,
        Readied, Since;
      AtRest(st, config.retryInterval);
      Unsuspended(st, config.retryInterval);
      FrameSlot(st.w, session.Now(), slotId, frame, Accepts(accept, slotId), true);
      ReceivedState(st, Now(), session.delivered, accept, slotId, frame);
      FineReceived(st.w, session.Now(), slotId, Ok(()));
      ghost var w, reports := session.Now(), session.events;
      r := HandleFrame(slotId);
      if r.Ok? {
        HeededReceived(st.slots, st.w, w, slots, session.transport.slots, session.transport.hist, frame, slotId,
                       Accepts(accept, slotId), reports, lastTick);
      }
    }

    /** The link failed while receiving: recover, or wait for the first tick to do it. */
    method FailReceive(error: Error, ghost st: State, ghost accept: seq<bool>, ghost frame: seq<byte>, ghost at: byte)
      returns (r: Result<bool>)
      requires session.Valid() && pacer.Valid() && StateOk(st, config.retryInterval) && !st.suspended
      requires Now() == st.(w := session.Now(), pending := session.events)
      requires st.w.log == session.delivered + st.pending
      requires Synchronized(session.Now())
      requires session.Now() != st.w ==>
                 && SlotStep(st.w, session.Now(), at)
                 && FrameHandled(st.w, session.Now(), at, frame, Accepts(accept, at), false)
      requires |accept| == |slots| && forall s | 0 <= s < |slots| :: accept[s] <==> slots[s].status == SlotStatus.Active
      modifies this`slots, this`events, this`linkSuspended, this`recoveryAt, this`deferredLinkFailure,
        this`nextStatusCheck, this`resets, session`table, session`events, session`delivered, session.app,
        session.ca`sessions, session.dates, session.mmi, session.transport, session.transport.link`resets, pacer`gate,
        pacer`clock, pacer`opening, pacer`closings
      ensures Valid() && |slots| == |old(slots)|
      ensures r.Err? && (linkSuspended || deferredLinkFailure)
      ensures !linkSuspended ==>
                && slots == st.slots && session.transport.slots == st.w.slots
                && events == old(events) && pacer.gate == old(pacer.gate)
      ensures AtMostOneReset(old(Ledger()), Ledger())
      ensures old(events) <= events
      ensures linkSuspended ==> AllBlamed(old(slots), old(events), events, LinkFailed)
    {
      hide AllSound, OnRecord, AI.RevisionsOk, WorldOk, Paced, Changes, QueueOk, SameLast, ApplyAll, Replays, Foreign,
        Synchronized, CoreOk, AllOk, AllBut, SlotOk, FailureEvents, StateOk, MayReset, LinkOk, FrameHandled, SlotStep,
        AllBlamed;
      AtRest(st, config.retryInterval);
      Unsuspended(st, config.retryInterval);
      ReceiveCore(st, Now(), session.delivered, at);
      if lastTick.Some? {
        var reset := RecoverAll(None, LinkFailed, lastTick.value);
      } else {
        // no slot has a connection before the first tick, so nothing was touched
        NothingTouched(st, Now(), session.delivered, accept, frame, at);
        deferredLinkFailure := true;
        DeferredOk(st, Now(), config.retryInterval);
      }
      return Err(error);
    }

    /** Hears a received frame out and acknowledges it. */
    method HandleFrame(slotId: byte) returns (r: Result<()>)
      requires Core() && slotId < |slots| && AllBut(slots, session.Now(), slotId)
      requires Settled(slots[slotId], session.Now(), slotId)
      requires CamDue(slots[slotId], session.Now(), slotId, session.events) && AllAbout(session.events, slotId)
      requires Synchronized(session.Now()) && !linkSuspended && recoveryAt == None && AllFine(session.Now())
      requires lastTick.Some? ==> !deferredLinkFailure && MayReset(resets, config.retryInterval, lastTick.value)
      requires lastTick == None ==> AllAbsent(slots) && resets == []
      modifies this`slots, this`events, this`linkSuspended, this`recoveryAt, this`deferredLinkFailure,
        this`nextStatusCheck, this`resets, session`table, session`events, session`delivered, session.app,
        session.ca`sessions, session.dates, session.mmi, session.transport, session.transport.link`writes,
        session.transport.link`resets, pacer`gate, pacer`clock, pacer`opening, pacer`closings
      ensures Valid() && |slots| == |old(slots)|
      ensures r.Ok? ==>
                && !linkSuspended
                && Handled(old(slots), old(session.transport.slots), old(session.transport.hist), slots,
                           session.transport.slots, session.transport.hist, slotId,
                           Readied(old(session.events), slotId), lastTick)
      ensures r.Err? ==> linkSuspended
      ensures AtMostOneReset(old(Ledger()), Ledger())
      ensures r.Ok? ==> Ledger() == old(Ledger())
      ensures old(events) <= events
      ensures r.Err? ==> Blamed(old(events), events, slotId, LinkFailed)
      ensures if r.Ok? then pacer.gate == GateAfter(old(pacer.gate), Since(old(events), events), lastTick, pacer.settle)
              else pacer.gate == NotReady
    {
      hide AllSound, OnRecord, AI.RevisionsOk, WorldOk, Paced, Changes, QueueOk, SameLast, ApplyAll, Replays, Foreign,
        Synchronized, CoreOk, AllBut, Settled, CamSound, CamDue, AllAbout, SlotOk, StateOk, MayReset, AllCreateKept,
        AllStatusHeard, AllAbsent, OthersSame, TrafficSame, HeardOn, Noted, Answered, Handled, Blamed, Readied,
        GateAfter;
      ghost var slots0, traffic0 := slots, session.transport.slots;
      CoreSizes(Now());
      HearFrame(slotId);
      ghost var slots1, traffic1, hist := slots, session.transport.slots, session.transport.hist;
      r := Ok(());
      if lastTick.Some? {
        ghost var events1 := events;
        r := Acknowledge(slotId, lastTick.value);
        if r.Err? {
          BlamedSince(old(events), events1, events, slotId, LinkFailed);
        }
        if r.Ok? {
          HandledWhole(slots0, traffic0, slots1, traffic1, hist, slots, session.transport.slots,
                       session.transport.hist, slotId, Readied(old(session.events), slotId), lastTick.value);
        }
      } else {
        StillAbsent(slots0, slots, session.Now(), slotId);
        BeforeFirstTick(Now(), config.retryInterval);
        HandledEarly(slots0, traffic0, slots, session.transport.slots, session.transport.hist, slotId,
                     Readied(old(session.events), slotId));
      }
    }

    /** Of the pacing, only the gate was touched, and that was not opened. */
    twostate lemma GateOnly()
      requires pacer.gate.Ready? ==> pacer.gate == old(pacer.gate)
      requires lastTick == old(lastTick) && unchanged(pacer`queue, pacer`releases, pacer`interval)
      requires session.ca.programs == old(session.ca.programs)
      ensures OnlyGate(old(Pace()), Pace()) && Proceeds(old(Pace()), OtherCall, Pace())
    {
      hide Changes;
      OtherProceeds(old(Pace()), Pace());
    }

    lemma PollSeen(m: Moment, readable: nat)
      requires Valid() && lastTick == m.clock && |m.slots| == |m.traffic| == |slots|
      requires m.received <= session.transport.link.received
      requires |session.transport.link.received| <= |m.received| + readable
      requires linkSuspended || PollKept(m.slots, m.traffic, slots, session.transport.slots,
                                         Since(m.received, session.transport.link.received))
      ensures Passes(m, PollCall(readable), Seen(), config)
    {
      hide AllSound, OnRecord, AI.RevisionsOk, WorldOk, Paced, Changes, QueueOk, SameLast, StateOk, PollKept, Passes;
      Polled(m, Now(), config.retryInterval, readable, session.transport.link.received, config);
    }

    /** Returns one queued event, reading link frames as needed until an event shows
        up or the link, which holds `readable` frames, runs dry. */
    method PollEvent(readable: nat) returns (r: Result<Option<CaEvent>>)
      requires Valid()
      modifies this`slots, this`events, this`delivered, this`linkSuspended, this`recoveryAt, this`deferredLinkFailure,
        this`nextStatusCheck, this`resets, session`table, session`events, session`delivered, session.app,
        session.ca`sessions, session.dates, session.mmi, session.transport, session.transport.link`writes,
        session.transport.link`received, session.transport.link`dries, session.transport.link`resets, pacer`gate,
        pacer`clock, pacer`opening, pacer`closings
      ensures Valid() && |slots| == |old(slots)|
      ensures old(delivered + events) <= delivered + events
      ensures r.Ok? && r.value.Some? ==> delivered == old(delivered) + [r.value.value]
      ensures r == Ok(None) ==> delivered == old(delivered) && events == []
      ensures r.Err? ==> delivered == old(delivered) && (linkSuspended || deferredLinkFailure)
      ensures old(events) != [] ==>
                && r == Ok(Some(old(events)[0])) && slots == old(slots)
                && session.transport.link.received == old(session.transport.link.received)
      ensures Passes(old(Seen()), PollCall(readable), Seen(), config)
      ensures AtMostOneReset(old(Ledger()), Ledger())
      ensures Proceeds(old(Pace()), OtherCall, Pace())
      ensures r.Ok? && lastTick.Some? ==>
                AllAsked(old(slots), old(session.transport.hist), slots, session.transport.hist,
                         Since(old(session.transport.link.received), session.transport.link.received))
      ensures r == Ok(None) && !old(linkSuspended) ==>
                session.transport.link.dries == old(session.transport.link.dries) + 1
                || |session.transport.link.received| == |old(session.transport.link.received)| + readable
      ensures !linkSuspended ==>
                pacer.gate == GateAfter(old(pacer.gate), Since(old(delivered + events), delivered + events), lastTick,
                                        pacer.settle)
    {
      hide AllSound, OnRecord, AI.RevisionsOk, WorldOk, Paced, Changes, QueueOk, SameLast, ApplyAll, Replays, Foreign,
        Synchronized, CoreOk, AllBut, AllOk, SlotOk, StateOk, MayReset, PollKept, Resting, LinkOk, HeardAll, RelayedAll,
        RearmedAll, Passes, Proceeds, OneReset, CaPmtPacer.Valid, CiSession.Valid, CiController.Core,
        CiController.Valid, Since, AllAsked, CiController.Pace, GateAfter;
      HearNothing();
      Rested();
      Sizes();
      ghost var received0 := session.transport.link.received;
      PollKeptRefl(slots, session.transport.slots, Since(received0, received0));
      AllAskedRefl(slots, session.transport.hist);
      GateStays(pacer.gate, delivered + events, lastTick, pacer.settle);
      assert Since(received0, received0) == [];
      hide Since;
      if events != [] || linkSuspended {
        r := Pop();
      } else {
        r := PollLink(readable);
      }
      Shut();
      GateUnopened(old(pacer.gate), Since(old(delivered + events), delivered + events), lastTick, pacer.settle);
      GateOnly();
      PollSeen(old(Seen()), readable);
    }

    /** Between the calls the session layer has nothing left to report. */
    method HearNothing()
      requires Valid()
      modifies this`slots, this`events, session`events, session`delivered, pacer`gate, pacer`clock, pacer`opening
      ensures Valid() && Now() == old(Now()) && events == old(events)
    {
      hide AllSound, OnRecord, AI.RevisionsOk, WorldOk, Paced, Changes, QueueOk, SameLast, ApplyAll, Replays, Foreign,
        Synchronized, CoreOk, AllBut, AllOk, StateOk, LinkOk, HeardAll, RelayedAll, RearmedAll;
      AtRest(Now(), config.retryInterval);
      HeardNothing(slots, session.Now(), pacer.gate, lastTick, pacer.settle);
      ghost var st := Now();
      CollectSessionEvents();
      assert events == old(events) + [] == old(events);
      assert Now() == st;
    }

    /** Takes the oldest queued event. */
    method Pop() returns (r: Result<Option<CaEvent>>)
      requires Valid()
      modifies this`events, this`delivered
      ensures Valid() && delivered + events == old(delivered + events)
      ensures old(events) == [] ==> r == Ok(None) && delivered == old(delivered) && events == []
      ensures old(events) != [] ==> r == Ok(Some(old(events)[0])) && delivered == old(delivered) + [old(events)[0]]
    {
      hide AllSound, OnRecord, AI.RevisionsOk, WorldOk, Paced, Changes, QueueOk, SameLast, ApplyAll, Replays, Foreign,
        Synchronized, StateOk, Warned, Relays;
      if events == [] {
        return Ok(None);
      }
      r := Ok(Some(events[0]));
      assert delivered + events == (delivered + [events[0]]) + events[1..];
      delivered, events := delivered + [events[0]], events[1..];
    }

    /** Reads frames until an event shows up or the link runs dry. */
    method PollFrames(readable: nat) returns (r: Result<()>)
      requires Valid() && !linkSuspended && events == []
      modifies this`slots, this`events, this`linkSuspended, this`recoveryAt, this`deferredLinkFailure,
        this`nextStatusCheck, this`resets, session`table, session`events, session`delivered, session.app,
        session.ca`sessions, session.dates, session.mmi, session.transport, session.transport.link`writes,
        session.transport.link`received, session.transport.link`dries, session.transport.link`resets, pacer`gate,
        pacer`clock, pacer`opening, pacer`closings
      ensures Valid() && |slots| == |old(slots)| && old(events) <= events
      ensures r.Err? ==> linkSuspended || deferredLinkFailure
      ensures old(session.transport.link.received) <= session.transport.link.received
      ensures |session.transport.link.received| <= |old(session.transport.link.received)| + readable
      ensures !linkSuspended ==>
                PollKept(old(slots), old(session.transport.slots), slots, session.transport.slots,
                         Since(old(session.transport.link.received), session.transport.link.received))
      ensures AtMostOneReset(old(Ledger()), Ledger())
      ensures r.Ok? && lastTick.Some? ==>
                AllAsked(old(slots), old(session.transport.hist), slots, session.transport.hist,
                         Since(old(session.transport.link.received), session.transport.link.received))
      ensures r.Ok? && events == [] ==>
                session.transport.link.dries == old(session.transport.link.dries) + 1
                || |session.transport.link.received| == |old(session.transport.link.received)| + readable
      ensures !linkSuspended ==>
                pacer.gate == GateAfter(old(pacer.gate), Since(old(events), events), lastTick, pacer.settle)
    {
      hide AllSound, OnRecord, AI.RevisionsOk, WorldOk, Paced, Changes, QueueOk, SameLast, ApplyAll, Replays, Foreign,
        Synchronized, StateOk, PollKept, OneReset, Warned, Relays, AllAsked, Heeded, CaPmtPacer.Valid, CiSession.Valid,
        CiController.Core, CiController.Valid, GateAfter;
      Rested();
      Sizes();
      ghost var received0 := session.transport.link.received;
      PollKeptRefl(slots, session.transport.slots, Since(received0, received0));
      AllAskedRefl(slots, session.transport.hist);
      GateStays(pacer.gate, events, lastTick, pacer.settle);
      hide Since;
      var left := readable;
      var more := Ok(true);
      while left > 0 && more.Ok? && more.value && events == []
        invariant Valid() && |slots| == |old(slots)| && old(events) <= events
        invariant more.Ok? ==> !linkSuspended
        invariant more.Err? ==> linkSuspended || deferredLinkFailure
        invariant AtMostOneReset(old(Ledger()), Ledger())
        invariant more.Ok? ==> Ledger() == old(Ledger())
        invariant received0 <= session.transport.link.received
        invariant |session.transport.link.received| <= |received0| + readable - left
        invariant !linkSuspended ==>
                    PollKept(old(slots), old(session.transport.slots), slots, session.transport.slots,
                             Since(received0, session.transport.link.received))
        invariant more.Ok? && lastTick.Some? ==>
                    AllAsked(old(slots), old(session.transport.hist), slots, session.transport.hist,
                             Since(received0, session.transport.link.received))
        invariant more.Ok? && more.value ==>
                    && session.transport.link.dries == old(session.transport.link.dries)
                    && |session.transport.link.received| == |received0| + readable - left
        invariant more.Ok? && !more.value ==> session.transport.link.dries == old(session.transport.link.dries) + 1
        invariant !linkSuspended ==>
                    pacer.gate == GateAfter(old(pacer.gate), Since(old(events), events), lastTick, pacer.settle)
        decreases left
      {
        ghost var slots1, traffic1, received1 := slots, session.transport.slots, session.transport.link.received;
        ghost var hist1, events1 := session.transport.hist, events;
        more := PollFrame();
        left := left - 1;
        GateOn(old(pacer.gate), old(events), events1, events, lastTick, pacer.settle);
        if !linkSuspended {
          PolledOn(old(slots), old(session.transport.slots), slots1, traffic1, slots, session.transport.slots,
                   received0, received1, session.transport.link.received);
        }
        if more.Ok? && more.value && lastTick.Some? {
          AskedOnce(old(slots), old(session.transport.slots), old(session.transport.hist), slots1, traffic1, hist1,
                    slots, session.transport.slots, session.transport.hist, received0, received1,
                    session.transport.link.received, lastTick.value);
        }
      }
      r := if more.Err? then Err(more.error) else Ok(());
    }

    method PollLink(readable: nat) returns (r: Result<Option<CaEvent>>)
      requires Valid() && !linkSuspended && events == []
      modifies this`slots, this`events, this`delivered, this`linkSuspended, this`recoveryAt, this`deferredLinkFailure,
        this`nextStatusCheck, this`resets, session`table, session`events, session`delivered, session.app,
        session.ca`sessions, session.dates, session.mmi, session.transport, session.transport.link`writes,
        session.transport.link`received, session.transport.link`dries, session.transport.link`resets, pacer`gate,
        pacer`clock, pacer`opening, pacer`closings
      ensures Valid() && |slots| == |old(slots)|
      ensures old(delivered + events) <= delivered + events
      ensures r.Ok? && r.value.Some? ==> delivered == old(delivered) + [r.value.value]
      ensures r == Ok(None) ==> delivered == old(delivered) && events == []
      ensures r.Err? ==> delivered == old(delivered) && (linkSuspended || deferredLinkFailure)
      ensures old(session.transport.link.received) <= session.transport.link.received
      ensures |session.transport.link.received| <= |old(session.transport.link.received)| + readable
      ensures !linkSuspended ==>
                PollKept(old(slots), old(session.transport.slots), slots, session.transport.slots,
                         Since(old(session.transport.link.received), session.transport.link.received))
      ensures |session.transport.slots| == |slots|
      ensures AtMostOneReset(old(Ledger()), Ledger())
      ensures r.Ok? && lastTick.Some? ==>
                AllAsked(old(slots), old(session.transport.hist), slots, session.transport.hist,
                         Since(old(session.transport.link.received), session.transport.link.received))
      ensures r == Ok(None) ==>
                session.transport.link.dries == old(session.transport.link.dries) + 1
                || |session.transport.link.received| == |old(session.transport.link.received)| + readable
      ensures !linkSuspended ==>
                pacer.gate == GateAfter(old(pacer.gate), Since(old(delivered + events), delivered + events), lastTick,
                                        pacer.settle)
    {
      hide AllSound, OnRecord, AI.RevisionsOk, WorldOk, Paced, Changes, QueueOk, SameLast, ApplyAll, Replays, Foreign,
        Synchronized, StateOk, PollKept, Since, OneReset, Warned, Relays, AllAsked, GateAfter;
      var more := PollFrames(readable);
      CoreBounds(Now(), config.retryInterval);
      SinceBehind(delivered, old(events), events);
      if more.Err? {
        return Err(more.error);
      }
      r := Pop();
    }

    // ---------------------------------------------------------------------- ticking

    /** The connection of a slot is gone: drop it, hear the closings, report the
        failure if it is one, and ground the slot. */
    method Ground(slotId: byte, failure: Option<SlotFailure>, status: SlotStatus)
      requires Core() && slotId < |slots| && session.events == [] && AllBut(slots, session.Now(), slotId)
      requires status in {SlotStatus.Absent, Present, SlotStatus.Failed} && AllFine(session.Now())
      requires status == SlotStatus.Absent <==> !slots[slotId].present
      modifies this`slots, this`events, session`table, session`events, session`delivered, session.app`sessions,
        session.ca`sessions, session.dates, session.mmi, session.transport, pacer`gate, pacer`clock, pacer`opening
      ensures Core() && session.events == [] && AllOk(slots, session.Now()) && |slots| == |old(slots)|
      ensures old(Synchronized(session.Now())) ==> Synchronized(session.Now())
      ensures slots[slotId] == Cleared(old(slots)[slotId]).(cam := CamStatus.NoInfo, status := status)
      ensures OthersSame(old(slots), slots, slotId)
      ensures TrafficSame(old(session.transport.slots), session.transport.slots, slotId)
      ensures old(events) <= events
      ensures pacer.gate == old(pacer.gate)
      ensures DatesKept(old(session.dates.sessions), session.dates.sessions)
      ensures failure.Some? ==> Blamed(old(events), events, slotId, failure.value)
    {
      hide AllSound, OnRecord, AI.RevisionsOk, WorldOk, Paced, Changes, QueueOk, SameLast, ApplyAll, Replays, Foreign,
        Synchronized, CoreOk, AllBut, Cleared, OthersSame, TrafficSame, Emptied, DatesKept, Blamed;
      ghost var slots1 := slots[slotId := Cleared(slots[slotId])];
      DropAndHear(slotId);
      ghost var events1 := events;
      if failure.Some? {
        ReportFailure(slotId, failure.value);
      }
      ghost var slots2 := slots;
      EmptiedClean(session.Now(), slotId);
      Lower(slotId, status);
      if failure.Some? {
        BlamedFirst(events1, events, slotId, failure.value);
        BlamedSince(old(events), events1, events, slotId, failure.value);
      }
      GroundedOk(old(slots), slots1, slots2, slots, session.Now(), slotId, status);
    }

    method ReportFailure(slotId: byte, reason: SlotFailure)
      requires Core()
      modifies this`events
      ensures Core() && events == old(events) + [SlotFailed(slotId, reason)]
    {
      hide AllSound, OnRecord, AI.RevisionsOk, WorldOk, Paced, Changes, QueueOk, SameLast, ApplyAll, Replays, Foreign,
        Synchronized, CoreOk, Passed, BlemishesBut, Warned, Relays;
      CoreSizes(Now());
      CoreForeign(Now());
      ghost var st := Now();
      PassedOne(SlotFailed(slotId, reason));
      Relay(SlotFailed(slotId, reason));
      CoreStatus(st, Now(), -1);
    }

    /** Drops a slot and hears its closings. */
    method DropAndHear(slotId: byte)
      requires Core() && slotId < |slots| && session.events == [] && AllBut(slots, session.Now(), slotId)
      modifies this`slots, this`events, session`table, session`events, session`delivered, session.app`sessions,
        session.ca`sessions, session.dates, session.mmi, session.transport, pacer`gate, pacer`clock, pacer`opening
      ensures Core() && session.events == [] && AllBut(slots, session.Now(), slotId) && |slots| == |old(slots)|
      ensures old(Synchronized(session.Now())) ==> Synchronized(session.Now())
      ensures Emptied(session.Now(), slotId)
      ensures AllFine(old(session.Now())) ==> AllFine(session.Now())
      ensures var slots1 := old(slots)[slotId := Cleared(old(slots)[slotId])];
              OthersSame(slots1, slots, slotId) && slots[slotId] == slots1[slotId].(cam := slots[slotId].cam)
      ensures TrafficSame(old(session.transport.slots), session.transport.slots, slotId)
      ensures old(events) <= events
      ensures pacer.gate == old(pacer.gate)
      ensures DatesKept(old(session.dates.sessions), session.dates.sessions)
    {
      hide AllSound, OnRecord, AI.RevisionsOk, WorldOk, Paced, Changes, QueueOk, SameLast, ApplyAll, Replays, Foreign,
        Synchronized, CoreOk, AllBut, SlotDropped, Cleared, HeardAll, RelayedAll, RearmedAll, OthersSame, Emptied,
        TrafficSame, AllClosings, DatesKept;
      CoreSizes(Now());
      ghost var a := session.Now();
      DropAndClear(slotId);
      ghost var slots1, closings := slots, session.events;
      DropOthers(old(slots), slots1, a, session.Now(), slotId, Cleared(old(slots)[slotId]));
      DropTraffic(a, session.Now(), slotId);
      DropFine(a, session.Now(), slotId);
      DropDates(a, session.Now(), slotId);
      CollectSessionEvents();
      CoreSizes(Now());
      ClosingsHeard(slots1, slots, a, session.Now(), slotId, closings);
      RearmedClosings(old(pacer.gate), slots1, closings, session.Now(), lastTick, pacer.settle);
    }

    /** Clears the CAM status and sets the slot status of a dropped slot. */
    method Lower(slotId: byte, status: SlotStatus)
      requires Core() && slotId < |slots| && status != SlotStatus.Active
      requires slotId < |session.transport.hist| && !session.transport.hist[slotId].swallowed
      modifies this`slots, this`events
      ensures Core() && old(events) <= events
      ensures slots == old(slots)[slotId := old(slots)[slotId].(cam := CamStatus.NoInfo, status := status)]
    {
      hide AllSound, OnRecord, AI.RevisionsOk, WorldOk, Paced, Changes, QueueOk, SameLast, ApplyAll, Replays, Foreign,
        Synchronized, CoreOk, BlemishesBut, Passed;
      ghost var st := Now();
      CoreForeign(st);
      SetCamStatus(slotId, CamStatus.NoInfo);
      ghost var log := delivered + events;
      SetSlotStatus(slotId, status);
      BlemishesTrans(old(delivered + events), log, delivered + events, slotId);
      CoreStatus(st, Now(), slotId);
    }

    /** What the physical flags of a slot lead to. */
    method ApplySlotInfo(slotId: byte, info: SlotInfo)
      requires Core() && slotId < |slots| && session.events == [] && AllOk(slots, session.Now())
      modifies this`slots, this`events, session`table, session`events, session`delivered, session.app`sessions,
        session.ca`sessions, session.dates, session.mmi, session.transport, pacer`gate, pacer`clock, pacer`opening
      ensures Core() && session.events == [] && AllOk(slots, session.Now()) && |slots| == |old(slots)|
      ensures old(Synchronized(session.Now())) ==> Synchronized(session.Now())
      ensures OthersSame(old(slots), slots, slotId) && slots[slotId] == Rechecked(old(slots)[slotId], info)
      ensures Stays(old(slots)[slotId], info) ==> session.Now() == old(session.Now())
      ensures TrafficSame(old(session.transport.slots), session.transport.slots, slotId)
      ensures old(events) <= events
      ensures pacer.gate == old(pacer.gate)
      ensures DatesKept(old(session.dates.sessions), session.dates.sessions)
      ensures Unusable(old(slots)[slotId], info) ==> Blamed(old(events), events, slotId, UnsupportedInterface)
    {
      hide AllSound, OnRecord, AI.RevisionsOk, WorldOk, Paced, Changes, QueueOk, SameLast, ApplyAll, Replays, Foreign,
        Synchronized, CoreOk, AllBut, AllFine, Cleared, OthersSame, TrafficSame, SlotOk, Blamed;
      CoreSizes(Now());
      TrafficRefl(session.transport.slots, slotId);
      NoteFlags(slotId, info);
      ghost var slots1 := slots;
      var present := slots[slotId].present;
      var status := slots[slotId].status;
      if !present && status != SlotStatus.Absent {
        Ground(slotId, None, SlotStatus.Absent);
      } else if present && !info.linkInterface && (status != SlotStatus.Failed || slots[slotId].retryAt.Some?) {
        Ground(slotId, Some(UnsupportedInterface), SlotStatus.Failed);
      } else if present && info.linkInterface && !info.moduleReady
                && (status == CreatingTc || status == SlotStatus.Active) {
        Ground(slotId, None, Present);
      } else {
        if present && info.linkInterface && status == SlotStatus.Absent {
          Appear(slotId);
        }
        FlagsSettled(old(slots), slots, session.Now(), slotId);
      }
      OthersSameTrans(old(slots), slots1, slots, slotId);
    }

    /** Takes over the physical flags of a slot. */
    method NoteFlags(slotId: byte, info: SlotInfo)
      requires Core() && slotId < |slots| && AllOk(slots, session.Now())
      modifies this`slots
      ensures Core() && AllBut(slots, session.Now(), slotId) && AllFine(session.Now())
      ensures slots == old(slots)[slotId := old(slots)[slotId].(present := info.modulePresent || info.moduleReady,
                                                               ready := info.moduleReady)]
      ensures OthersSame(old(slots), slots, slotId)
    {
      hide AllSound, OnRecord, AI.RevisionsOk, WorldOk, Paced, Changes, QueueOk, SameLast, ApplyAll, Replays, Foreign,
        Synchronized, CoreOk, AllBut, AllFine, OthersSame, SlotOk;
      ghost var st := Now();
      CoreSizes(st);
      slots := slots[slotId := slots[slotId].(present := info.modulePresent || info.moduleReady,
                                              ready := info.moduleReady)];
      CoreSlot(st, Now(), slotId);
      OthersToo(old(slots), session.Now(), slotId);
      ButOnly(old(slots), slots, session.Now(), slotId);
      OthersSameOne(old(slots), slots, slotId);
    }

    /** A module was put in. */
    method Appear(slotId: byte)
      requires Core() && slotId < |slots| && slots[slotId].status == SlotStatus.Absent
      modifies this`slots, this`events
      ensures Core() && old(events) <= events
      ensures slots == old(slots)[slotId := old(slots)[slotId].(status := Present)]
    {
      hide AllSound, OnRecord, AI.RevisionsOk, WorldOk, Paced, Changes, QueueOk, SameLast, ApplyAll, Replays, Foreign,
        Synchronized, CoreOk, BlemishesBut, Passed;
      ghost var st := Now();
      CoreForeign(st);
      SetSlotStatus(slotId, Present);
      CoreStatus(st, Now(), -1);
    }

    /** Re-reads the physical flags of every slot. */
    method RefreshSlotInfo(now: nat) returns (r: Result<()>)
      requires Ticking(now) && AllOk(slots, session.Now())
      modifies this`slots, this`events, this`linkSuspended, this`recoveryAt, this`deferredLinkFailure,
        this`nextStatusCheck, this`resets, session`table, session`events, session`delivered, session.app`sessions,
        session.ca`sessions, session.dates, session.mmi, session.transport, session.transport.link`readings,
        session.transport.link`resets, pacer`gate, pacer`clock, pacer`opening, pacer`closings
      ensures |slots| == |old(slots)| && old(events) <= events
      ensures r.Ok? ==> Ticking(now) && AllOk(slots, session.Now())
      ensures r.Ok? ==>
                && Goes(old(View()), View())
                && AllGoing(old(slots), old(session.transport.slots), slots, session.transport.slots)
                && AllRechecked(old(slots), slots, old(session.transport.link.readings),
                                session.transport.link.readings)
                && DatesKept(old(session.dates.sessions), session.dates.sessions)
      ensures r.Err? ==> Valid() && Quits(old(View()), View())
      ensures r.Err? ==>
                exists s: byte :: s < |slots| && Blamed(old(events), events, s, SlotInfoFailed)
                  && FailedAt(old(session.transport.link.readings), session.transport.link.readings, s)
    {
      hide AllSound, OnRecord, AI.RevisionsOk, WorldOk, Paced, Changes, QueueOk, SameLast, ApplyAll, Replays, Foreign,
        Synchronized, CoreOk, AllBut, AllGoing, MayReset, StateOk, FailureEvents, Quits, DatesKept, Rechecked, OneReset,
        CaPmtPacer.Valid, CiSession.Valid, CiController.Core, CiController.Valid, CiController.Ticking, Goes, InfosOf,
        Follow, AllRechecked, CiController.View, FailedAt, Blamed, AllBlamed;
      TickingCore(now);
      Sizes();
      var infos, failed := ReadSlotInfos();
      GoesOn();
      ghost var b := View();
      if failed.Some? {
        var reset := RecoverAll(failed, SlotInfoFailed, now);
        QuitsLater(old(View()), b, View());
        return Err(Io);
      }
      ApplySlotInfos(infos, now);
      AllFollow(old(slots), slots, infos, old(session.transport.link.readings), session.transport.link.readings);
      TickingCore(now);
      Sizes();
      GoesOn();
      r := Ok(());
    }

    /** The flags of all slots, or the first slot whose flags cannot be read. */
    method ReadSlotInfos() returns (infos: seq<SlotInfo>, failed: Option<byte>)
      requires |slots| < 0x100
      modifies session.transport.link`readings
      ensures failed == None ==>
                && |infos| == |slots|
                && InfosOf(infos, old(session.transport.link.readings), session.transport.link.readings)
      ensures failed.Some? ==>
                && failed.value < |slots|
                && FailedAt(old(session.transport.link.readings), session.transport.link.readings, failed.value)
    {
      infos := [];
      ghost var readings0 := session.transport.link.readings;
      for slotId := 0 to |slots|
        invariant |infos| == slotId && readings0 <= session.transport.link.readings
        invariant |session.transport.link.readings| == |readings0| + slotId
        invariant forall s | 0 <= s < slotId ::
                    ReadSince(readings0, session.transport.link.readings)[s] == Reading(s, Ok(infos[s]))
      {
        ghost var read := ReadSince(readings0, session.transport.link.readings);
        var info := session.transport.link.ReadSlotInfo(slotId);
        assert ReadSince(readings0, session.transport.link.readings) == read + [Reading(slotId, info)];
        if info.Err? {
          assert forall k | 0 <= k < slotId as int ::
              IsReading(ReadSince(readings0, session.transport.link.readings)[k], k) by {
            assert forall k | 0 <= k < slotId as int :: read[k] == Reading(k, Ok(infos[k]));
          }
          return infos, Some(slotId);
        }
        infos := infos + [info.value];
      }
      failed := None;
      assert forall s | 0 <= s < |slots| ::
          IsReading(ReadSince(readings0, session.transport.link.readings)[s], s);
    }

    method ApplyNext(slotId: byte, infos: seq<SlotInfo>, now: nat, ghost slots0: seq<CSlot>,
                     ghost traffic0: seq<TransportSlot>)
      requires Ticking(now) && AllOk(slots, session.Now()) && slotId < |slots|
      requires |slots0| == |slots| == |infos|
      requires GoingBelow(slots0, traffic0, slots, session.transport.slots, infos, slotId)
      modifies this`slots, this`events, session`table, session`events, session`delivered, session.app`sessions,
        session.ca`sessions, session.dates, session.mmi, session.transport, pacer`gate, pacer`clock, pacer`opening
      ensures |slots| == |old(slots)| && old(events) <= events
      ensures Ticking(now) && AllOk(slots, session.Now())
      ensures GoingBelow(slots0, traffic0, slots, session.transport.slots, infos, slotId + 1)
      ensures pacer.gate == old(pacer.gate)
      ensures DatesKept(old(session.dates.sessions), session.dates.sessions)
    {
      hide AllSound, OnRecord, AI.RevisionsOk, WorldOk, Paced, Changes, QueueOk, SameLast, ApplyAll, Replays, Foreign,
        Synchronized, CoreOk, AllBut, AllFine, AllGoing, MayReset, GoingBelow, Rechecked, Stays, OthersSame,
        TrafficSame, DatesKept;
      ghost var slots1, traffic1 := slots, session.transport.slots;
      ApplySlotInfo(slotId, infos[slotId]);
      GoingStep(slots0, traffic0, slots1, traffic1, slots, session.transport.slots, infos, slotId);
    }

    method ApplySlotInfos(infos: seq<SlotInfo>, now: nat)
      requires Ticking(now) && AllOk(slots, session.Now()) && |infos| == |slots|
      modifies this`slots, this`events, session`table, session`events, session`delivered, session.app`sessions,
        session.ca`sessions, session.dates, session.mmi, session.transport, pacer`gate, pacer`clock, pacer`opening
      ensures |slots| == |old(slots)| && old(events) <= events
      ensures Ticking(now) && AllOk(slots, session.Now())
      ensures AllGoing(old(slots), old(session.transport.slots), slots, session.transport.slots)
      ensures Follow(old(slots), slots, infos)
      ensures pacer.gate == old(pacer.gate)
      ensures DatesKept(old(session.dates.sessions), session.dates.sessions)
    {
      hide AllSound, OnRecord, AI.RevisionsOk, WorldOk, Paced, Changes, QueueOk, SameLast, AllBut, AllFine, AllGoing,
        GoingBelow, Running, DatesKept, Rechecked;
      RunningSizes(Now(), config.retryInterval, now);
      ghost var traffic0 := session.transport.slots;
      GoingStart(slots, traffic0, infos);
      ghost var dates0 := session.dates.sessions;
      NoDatesDropped(dates0);
      for slotId := 0 to |infos|
        invariant |slots| == |old(slots)| == |infos| < 0x100 && old(events) <= events
        invariant Ticking(now) && AllOk(slots, session.Now())
        invariant pacer.gate == old(pacer.gate)
        invariant GoingBelow(old(slots), traffic0, slots, session.transport.slots, infos, slotId)
        invariant DatesKept(dates0, session.dates.sessions)
      {
        ghost var dates := session.dates.sessions;
        ApplyNext(slotId, infos, now, old(slots), traffic0);
        DatesKeptTrans(dates0, dates, session.dates.sessions);
      }
      GoingEnd(old(slots), traffic0, slots, session.transport.slots, infos);
    }

    /** Runs the resource timers; afterwards every slot can be driven. */
    method TickResources(now: nat) returns (r: Result<()>)
      requires Ticking(now) && AllOk(slots, session.Now())
      modifies this`slots, this`events, this`linkSuspended, this`recoveryAt, this`deferredLinkFailure,
        this`nextStatusCheck, this`resets, session`table, session`events, session`delivered, session.app`sessions,
        session.ca`sessions, session.dates, session.mmi, session.transport, session.transport.link`writes,
        session.transport.link`resets, pacer`gate, pacer`clock, pacer`opening, pacer`closings
      ensures |slots| == |old(slots)| && old(events) <= events
      ensures r.Ok? ==> Ticking(now) && Driven(slots, session.Now(), 0, now, config)
      ensures r.Ok? ==> Answers(old(View()), View(), now)
      ensures r.Err? ==> Valid() && Quits(old(View()), View())
      ensures r.Err? ==> AllBlamed(old(slots), old(events), events, LinkFailed)
    {
      hide AllSound, OnRecord, AI.RevisionsOk, WorldOk, Paced, Changes, QueueOk, SameLast, ApplyAll, Replays, Foreign,
        Synchronized, CoreOk, AllBut, MayReset, StateOk, FailureEvents, Ticked, DT.StillPending, Driven, Quits,
        DT.Ticked, Goes, AllBlamed;
      CoreSizes(Now());
      ghost var a, st := session.Now(), Now();
      ghost var answers;
      r, answers := session.TickAt(now);
      TickedCore(st, Now());
      TickedDates(a, session.Now());
      CoreSizes(Now());
      GoesOn();
      ghost var b := View();
      if r.Err? {
        var reset := RecoverAll(None, LinkFailed, now);
        QuitsLater(old(View()), b, View());
        return;
      }
      TickedDriven(slots, a, session.Now(), now, config);
    }

    /** The retry interval after a recovery is over. */
    method Retry(slotId: byte)
      requires Core() && slotId < |slots| && slots[slotId].status == SlotStatus.Failed
      modifies this`slots, this`events
      ensures Core() && old(events) <= events
      ensures slots == old(slots)[slotId := old(slots)[slotId].(retryAt := None, status := Present)]
    {
      hide AllSound, OnRecord, AI.RevisionsOk, WorldOk, Paced, Changes, QueueOk, SameLast, ApplyAll, Replays, Foreign,
        Synchronized, CoreOk, BlemishesBut, Passed;
      ghost var st := Now();
      CoreForeign(st);
      ReplayFields(delivered + events, slots, slotId, slots[slotId].(retryAt := None));
      slots := slots[slotId := slots[slotId].(retryAt := None)];
      SetSlotStatus(slotId, Present);
      CoreStatus(st, Now(), -1);
    }

    /** Issues TT_CREATE_TC for a ready module. */
    method Connect(slotId: byte, now: nat) returns (r: Result<Option<SlotFailure>>)
      requires Ticking(now) && slotId < |slots| && slots[slotId].status == Present && slots[slotId].ready
      requires SlotOk(slots[slotId], session.Now(), slotId)
      modifies this`slots, this`events, session.transport, session.transport.link`writes
      ensures Ticking(now) && |slots| == |old(slots)| && old(events) <= events
      ensures r.Ok? ==>
                && r.value == None
                && SlotDriven(old(slots), old(session.Now()), slots, session.Now(), slotId, now, config)
                && slots[slotId].status == CreatingTc
                && slotId < |session.transport.hist|
                && session.transport.hist[slotId].sent == old(session.transport.hist)[slotId].sent + CREATION
      ensures old(session.transport.link.writes) <= session.transport.link.writes
      ensures r.Ok? ==> slotId < |session.transport.slots|
                        && Tried(session.transport.slots[slotId], old(session.transport.link.writes),
                                 session.transport.link.writes)
    {
      hide AllSound, OnRecord, AI.RevisionsOk, WorldOk, Paced, Changes, QueueOk, SameLast, ApplyAll, Replays, Foreign,
        Synchronized, CoreOk, MayReset, Controlled, Settled, CamSound, SlotOk, Marked, Fresh, Tried;
      ghost var a, st := session.Now(), Now();
      CoreSizes(st);
      SettledIdle(slots[slotId], a, slotId);
      var sent := session.SendControl(slotId, CREATE_TC);
      ControlledStep(st, Now(), slotId);
      if sent.Err? {
        return Err(sent.error);
      }
      EnterCreating(slotId, now);
      ConnectOk(old(slots)[slotId], a, session.Now(), slotId, now, config);
      r := Ok(None);
    }

    /** The slot creates its connection; what was handed to the link is timed. */
    method EnterCreating(slotId: byte, now: nat)
      requires Core() && slotId < |slots| && slots[slotId].status == Present && lastTick == Some(now)
      modifies this`slots, this`events
      ensures Core() && old(events) <= events
      ensures slots == old(slots)[slotId := Marked(old(slots)[slotId].(receivePending := false, status := CreatingTc),
                                                   session.transport.slots[slotId], now)]
    {
      hide AllSound, OnRecord, AI.RevisionsOk, WorldOk, Paced, Changes, QueueOk, SameLast, ApplyAll, Replays, Foreign,
        Synchronized, CoreOk, BlemishesBut, Passed, Marked;
      ghost var st := Now();
      CoreForeign(st);
      ReplayFields(delivered + events, slots, slotId, slots[slotId].(receivePending := false));
      slots := slots[slotId := slots[slotId].(receivePending := false)];
      SetSlotStatus(slotId, CreatingTc);
      CoreStatus(st, Now(), -1);
      MarkOutstanding(slotId, now);
    }

    /** Waits for TT_CTC_REPLY, or still for TT_CREATE_TC to get out. */
    method DriveCreating(slotId: byte, now: nat) returns (r: Result<Option<SlotFailure>>)
      requires Ticking(now) && slotId < |slots| && slots[slotId].status == CreatingTc
      requires SlotOk(slots[slotId], session.Now(), slotId)
      modifies this`slots, this`events, session.transport, session.transport.link`writes
      ensures Ticking(now) && |slots| == |old(slots)| && events == old(events)
      ensures r == Ok(None) ==>
                SlotDriven(old(slots), old(session.Now()), slots, session.Now(), slotId, now, config)
      ensures slotId < |session.transport.hist| && slotId < |session.transport.slots|
      ensures r.Ok? ==> r.value == Outlived(slots[slotId], session.transport.slots[slotId], now, config)
      ensures r.Ok? ==> session.transport.hist[slotId].sent == old(session.transport.hist)[slotId].sent
      ensures old(session.transport.link.writes) <= session.transport.link.writes
      ensures r.Ok? ==> slotId < |session.transport.slots|
                        && Tried(session.transport.slots[slotId], old(session.transport.link.writes),
                                 session.transport.link.writes)
    {
      hide AllSound, OnRecord, AI.RevisionsOk, WorldOk, Paced, Changes, QueueOk, SameLast, ApplyAll, Replays, Foreign,
        Synchronized, CoreOk, MayReset, Controlled, Settled, CamSound, SlotOk, Marked, Flushed, NotPutOff, Tried;
      ghost var a, st := session.Now(), Now();
      CoreSizes(st);
      var flushed := session.FlushLink(slotId);
      ControlledStep(st, Now(), slotId);
      if flushed.Err? {
        return Err(flushed.error);
      }
      MarkOutstanding(slotId, now);
      CreatingOk(old(slots)[slotId], a, session.Now(), slotId, now);
      var slot := slots[slotId];
      if slot.createSince == None && slot.commandSince.Some?
         && Age(now, slot.commandSince.value) >= config.responseTimeout {
        return Ok(Some(WriteTimeout));
      }
      if slot.createSince.Some? && Age(now, slot.createSince.value) >= config.createTcTimeout {
        return Ok(Some(CreateTcTimeout));
      }
      CreatingTimed(slot, session.Now(), slotId);
      r := Ok(None);
    }

    /** Writes, waits, asks for data or polls. */
    method DriveActive(slotId: byte, now: nat) returns (r: Result<Option<SlotFailure>>)
      requires Ticking(now) && slotId < |slots| && slots[slotId].status == SlotStatus.Active
      requires Drivable(slots[slotId], session.Now(), slotId)
      modifies this`slots, this`events, session.transport, session.transport.link`writes
      ensures Ticking(now) && |slots| == |old(slots)| && events == old(events)
      ensures r == Ok(None) ==>
                SlotDriven(old(slots), old(session.Now()), slots, session.Now(), slotId, now, config)
      ensures slotId < |session.transport.hist| && slotId < |session.transport.slots|
      ensures r.Ok? && r.value.Some? ==>
                r.value == Outlived(slots[slotId], session.transport.slots[slotId], now, config)
      ensures r.Ok? ==>
                session.transport.hist[slotId].sent
                == old(session.transport.hist)[slotId].sent
                   + Issues(old(slots)[slotId], old(session.transport.slots)[slotId], now)
      ensures old(session.transport.link.writes) <= session.transport.link.writes
      ensures r.Ok? ==> slotId < |session.transport.slots|
                        && Tried(session.transport.slots[slotId], old(session.transport.link.writes),
                                 session.transport.link.writes)
    {
      hide AllSound, OnRecord, AI.RevisionsOk, WorldOk, Paced, Changes, QueueOk, SameLast, ApplyAll, Replays, Foreign,
        Synchronized, CoreOk, MayReset, Controlled, Settled, CamSound, SlotOk, Marked, Flushed, Fresh, NotPutOff, Tried;
      ghost var a, st := session.Now(), Now();
      CoreSizes(st);
      var flushed := session.FlushLink(slotId);
      ControlledStep(st, Now(), slotId);
      if flushed.Err? {
        return Err(flushed.error);
      }
      ghost var writes := session.transport.link.writes;
      ControlledActive(slots[slotId], a, session.Now(), slotId);
      IdleBefore(a.slots[slotId], session.transport.slots[slotId]);
      if !Idle(session.transport.slots[slotId]) {
        r := AwaitCommand(slotId, now, a);
      } else {
        r := DriveIdle(slotId, now, a);
        if r.Ok? {
          TriedLonger(session.transport.slots[slotId], old(session.transport.link.writes), writes,
                      session.transport.link.writes);
        }
      }
    }

    /** Something is outstanding: keep its timer, or start one. */
    method AwaitCommand(slotId: byte, now: nat, ghost a: World) returns (r: Result<Option<SlotFailure>>)
      requires Ticking(now) && slotId < |slots| && slots[slotId].status == SlotStatus.Active
      requires Settled(slots[slotId], session.Now(), slotId) && CamSound(slots[slotId], session.Now(), slotId)
      requires Controlled(a, session.Now(), slotId) && slotId < |a.slots|
      requires StepFine(a, session.Now(), slotId, Ok(()))
      requires !Idle(session.transport.slots[slotId]) && !Idle(a.slots[slotId])
      modifies this`slots
      ensures Ticking(now) && |slots| == |old(slots)|
      ensures r == Ok(None) ==> SlotDriven(old(slots), a, slots, session.Now(), slotId, now, config)
      ensures r.Ok? && slotId < |session.transport.slots|
      ensures r.value.Some? ==> r.value == Outlived(slots[slotId], session.transport.slots[slotId], now, config)
    {
      hide AllSound, OnRecord, AI.RevisionsOk, WorldOk, Paced, Changes, QueueOk, SameLast, ApplyAll, Replays, Foreign,
        Synchronized, CoreOk, MayReset, Controlled, Settled, CamSound;
      ghost var st := Now();
      CoreSizes(st);
      var since := if slots[slotId].commandSince.Some? then slots[slotId].commandSince.value else now;
      slots := slots[slotId := slots[slotId].(commandSince := Some(since))];
      CoreSlot(st, Now(), slotId);
      TimerOk(old(slots)[slotId], slots[slotId], session.Now(), slotId);
      if Age(now, since) >= config.responseTimeout {
        return Ok(Some(if session.transport.IsBusy(slotId) then SlotFailure.ResponseTimeout else WriteTimeout));
      }
      r := Ok(None);
    }

    /** Nothing is outstanding: ask for announced data, or poll when it is time. */
    method DriveIdle(slotId: byte, now: nat, ghost a: World) returns (r: Result<Option<SlotFailure>>)
      requires Ticking(now) && slotId < |slots| && slots[slotId].status == SlotStatus.Active
      requires Settled(slots[slotId], session.Now(), slotId) && CamSound(slots[slotId], session.Now(), slotId)
      requires Controlled(a, session.Now(), slotId) && slotId < |a.slots| && Idle(a.slots[slotId])
      requires StepFine(a, session.Now(), slotId, Ok(()))
      requires Idle(session.transport.slots[slotId])
      modifies this`slots, this`events, session.transport, session.transport.link`writes
      ensures Ticking(now) && |slots| == |old(slots)| && events == old(events)
      ensures r.Ok? ==> r.value == None && SlotDriven(old(slots), a, slots, session.Now(), slotId, now, config)
      ensures slotId < |session.transport.hist| && slotId < |session.transport.slots|
      ensures r.Ok? ==>
                session.transport.hist[slotId].sent
                == old(session.transport.hist)[slotId].sent
                   + Issues(old(slots)[slotId], old(session.transport.slots)[slotId], now)
      ensures old(session.transport.link.writes) <= session.transport.link.writes
      ensures r.Ok? ==> slotId < |session.transport.slots|
                        && Tried(session.transport.slots[slotId], old(session.transport.link.writes),
                                 session.transport.link.writes)
    {
      hide AllSound, OnRecord, AI.RevisionsOk, WorldOk, Paced, Changes, QueueOk, SameLast, ApplyAll, Replays, Foreign,
        Synchronized, CoreOk, MayReset, Controlled, Settled, CamSound, Marked, Tried;
      ghost var slots0 := slots;
      ClearCommand(slotId, now);
      var issued: Result<()>;
      if slots[slotId].receivePending {
        issued := AskForData(slotId, now, slots0, a);
      } else {
        issued := PollWhenDue(slotId, now, slots0, a);
      }
      r := if issued.Err? then Err(issued.error) else Ok(None);
    }

    /** Asks for announced data. */
    method AskForData(slotId: byte, now: nat, ghost slots0: seq<CSlot>, ghost a: World) returns (r: Result<()>)
      requires Ticking(now) && slotId < |slots| == |slots0|
      requires slots0[slotId].status == SlotStatus.Active && slots0[slotId].receivePending
      requires slots == slots0[slotId := slots0[slotId].(commandSince := None)]
      requires Settled(slots[slotId], session.Now(), slotId) && CamSound(slots[slotId], session.Now(), slotId)
      requires Controlled(a, session.Now(), slotId) && slotId < |a.slots| && Idle(a.slots[slotId])
      requires StepFine(a, session.Now(), slotId, Ok(()))
      requires Idle(session.transport.slots[slotId])
      modifies this`slots, session.transport, session.transport.link`writes
      ensures Ticking(now) && |slots| == |slots0|
      ensures r.Ok? ==> SlotDriven(slots0, a, slots, session.Now(), slotId, now, config)
      ensures slotId < |session.transport.hist| && slotId < |session.transport.slots|
      ensures r.Ok? ==>
                session.transport.hist[slotId].sent
                == old(session.transport.hist)[slotId].sent
                   + Issues(slots0[slotId], old(session.transport.slots)[slotId], now)
      ensures old(session.transport.link.writes) <= session.transport.link.writes
      ensures r.Ok? ==> slotId < |session.transport.slots|
                        && Tried(session.transport.slots[slotId], old(session.transport.link.writes),
                                 session.transport.link.writes)
    {
      hide AllSound, OnRecord, AI.RevisionsOk, WorldOk, Paced, Changes, QueueOk, SameLast, ApplyAll, Replays, Foreign,
        Synchronized, CoreOk, MayReset, Controlled, Settled, CamSound, Marked, Tried;
      ghost var b := session.Now();
      CoreSizes(Now());
      r := FlushReceivePending(slotId, now);
      ControlledTrans(a, b, session.Now(), slotId);
      CoreSizes(Now());
      if r.Ok? {
        MarkedFresh(slots0[slotId].(commandSince := None, receivePending := false), session.Now(), slotId, now, config);
      }
    }

    /** Polls the module when it is time. */
    method PollWhenDue(slotId: byte, now: nat, ghost slots0: seq<CSlot>, ghost a: World) returns (r: Result<()>)
      requires Ticking(now) && slotId < |slots| == |slots0|
      requires slots0[slotId].status == SlotStatus.Active && !slots0[slotId].receivePending
      requires slots == slots0[slotId := slots0[slotId].(commandSince := None)]
      requires Settled(slots[slotId], session.Now(), slotId) && CamSound(slots[slotId], session.Now(), slotId)
      requires Controlled(a, session.Now(), slotId) && slotId < |a.slots| && Idle(a.slots[slotId])
      requires StepFine(a, session.Now(), slotId, Ok(()))
      requires Idle(session.transport.slots[slotId])
      modifies this`slots, session.transport, session.transport.link`writes
      ensures Ticking(now) && |slots| == |slots0|
      ensures r.Ok? ==> SlotDriven(slots0, a, slots, session.Now(), slotId, now, config)
      ensures slotId < |session.transport.hist| && slotId < |session.transport.slots|
      ensures r.Ok? ==>
                session.transport.hist[slotId].sent
                == old(session.transport.hist)[slotId].sent
                   + Issues(slots0[slotId], old(session.transport.slots)[slotId], now)
      ensures old(session.transport.link.writes) <= session.transport.link.writes
      ensures r.Ok? ==> slotId < |session.transport.slots|
                        && Tried(session.transport.slots[slotId], old(session.transport.link.writes),
                                 session.transport.link.writes)
    {
      hide AllSound, OnRecord, AI.RevisionsOk, WorldOk, Paced, Changes, QueueOk, SameLast, ApplyAll, Replays, Foreign,
        Synchronized, CoreOk, MayReset, Controlled, Settled, CamSound, Marked, CaPmtPacer.Valid, CiSession.Valid;
      ghost var b := session.Now();
      CoreSizes(Now());
      r := Ok(());
      if slots[slotId].nextPoll == None || now >= slots[slotId].nextPoll.value {
        r := PollModule(slotId, now);
        ControlledTrans(a, b, session.Now(), slotId);
        CoreSizes(Now());
      }
    }

    /** Nothing is outstanding, so nothing is timed. */
    method ClearCommand(slotId: byte, now: nat)
      requires Ticking(now) && slotId < |slots| && slots[slotId].status == SlotStatus.Active
      requires Settled(slots[slotId], session.Now(), slotId) && CamSound(slots[slotId], session.Now(), slotId)
      modifies this`slots
      ensures Ticking(now) && slots == old(slots)[slotId := old(slots)[slotId].(commandSince := None)]
      ensures Settled(slots[slotId], session.Now(), slotId) && CamSound(slots[slotId], session.Now(), slotId)
    {
      hide AllSound, OnRecord, AI.RevisionsOk, WorldOk, Paced, Changes, QueueOk, SameLast, ApplyAll, Replays, Foreign,
        Synchronized, CoreOk, MayReset, Settled, CamSound;
      ghost var st := Now();
      CoreSizes(st);
      slots := slots[slotId := slots[slotId].(commandSince := None)];
      CoreSlot(st, Now(), slotId);
      TimerOk(old(slots)[slotId], slots[slotId], session.Now(), slotId);
    }

    /** The empty TT_DATA_LAST poll. */
    method PollModule(slotId: byte, now: nat) returns (r: Result<()>)
      requires Ticking(now) && slotId < |slots| && slots[slotId].status == SlotStatus.Active
      requires Settled(slots[slotId], session.Now(), slotId) && CamSound(slots[slotId], session.Now(), slotId)
      requires Idle(session.transport.slots[slotId])
      modifies this`slots, session.transport, session.transport.link`writes
      ensures Ticking(now) && |slots| == |old(slots)| && Controlled(old(session.Now()), session.Now(), slotId)
      ensures StepFine(old(session.Now()), session.Now(), slotId, r)
      ensures r.Ok? ==>
                && slots == old(slots)[slotId := old(slots)[slotId].(commandSince := Some(now),
                                         nextPoll := Some(now + config.transportPollInterval))]
                && Settled(slots[slotId], session.Now(), slotId) && CamSound(slots[slotId], session.Now(), slotId)
                && slotId < |session.transport.hist|
                && session.transport.hist[slotId].sent
                   == old(session.transport.hist)[slotId].sent + [Single(DATA_LAST, [])]
      ensures old(session.transport.link.writes) <= session.transport.link.writes
      ensures r.Ok? ==> slotId < |session.transport.slots|
                        && Tried(session.transport.slots[slotId], old(session.transport.link.writes),
                                 session.transport.link.writes)
    {
      hide AllSound, OnRecord, AI.RevisionsOk, WorldOk, Paced, Changes, QueueOk, SameLast, ApplyAll, Replays, Foreign,
        Synchronized, CoreOk, MayReset, Controlled, Settled, CamSound, Tried;
      ghost var a, st := session.Now(), Now();
      CoreSizes(st);
      r := session.SendControl(slotId, DATA_LAST);
      ControlledStep(st, Now(), slotId);
      if r.Err? {
        return;
      }
      ControlledActive(slots[slotId], a, session.Now(), slotId);
      ghost var st2 := Now();
      slots := slots[slotId := slots[slotId].(commandSince := Some(now),
                                              nextPoll := Some(now + config.transportPollInterval))];
      CoreSlot(st2, Now(), slotId);
      TimerOk(old(slots)[slotId], slots[slotId], session.Now(), slotId);
    }

    /** Advances one slot; names the failure if it has outlived a deadline. */
    method DriveSlot(slotId: byte, now: nat) returns (r: Result<Option<SlotFailure>>)
      requires Ticking(now) && slotId < |slots| && Drivable(slots[slotId], session.Now(), slotId)
      modifies this`slots, this`events, session.transport, session.transport.link`writes
      ensures Ticking(now) && |slots| == |old(slots)| && old(events) <= events
      ensures r == Ok(None) ==>
                SlotDriven(old(slots), old(session.Now()), slots, session.Now(), slotId, now, config)
      ensures slotId < |session.transport.hist| && slotId < |session.transport.slots|
      ensures r.Ok? && r.value.Some? ==>
                r.value == Outlived(slots[slotId], session.transport.slots[slotId], now, config)
      ensures r.Ok? ==>
                session.transport.hist[slotId].sent
                == old(session.transport.hist)[slotId].sent
                   + Issues(old(slots)[slotId], old(session.transport.slots)[slotId], now)
      ensures old(session.transport.link.writes) <= session.transport.link.writes
      ensures r.Ok? ==> slotId < |session.transport.slots|
                        && Tried(session.transport.slots[slotId], old(session.transport.link.writes),
                                 session.transport.link.writes)
    {
      hide AllSound, OnRecord, AI.RevisionsOk, WorldOk, Paced, Changes, QueueOk, SameLast, ApplyAll, Replays, Foreign,
        Synchronized, CoreOk, MayReset, Controlled, Settled, CamSound, SlotOk, Outlived, Tried;
      CoreSizes(Now());
      r := Ok(None);
      if slots[slotId].status == SlotStatus.Active {
        r := DriveActive(slotId, now);
      } else {
        DrivableOk(slots[slotId], session.Now(), slotId);
        if slots[slotId].status == CreatingTc {
          r := DriveCreating(slotId, now);
        } else {
          r := DriveResting(slotId, now);
        }
      }
    }

    /** A slot without a connection: retried when its time has come, connected when ready. */
    method DriveResting(slotId: byte, now: nat) returns (r: Result<Option<SlotFailure>>)
      requires Ticking(now) && slotId < |slots|
      requires slots[slotId].status in {SlotStatus.Absent, Present, SlotStatus.Failed}
      requires SlotOk(slots[slotId], session.Now(), slotId)
      modifies this`slots, this`events, session.transport, session.transport.link`writes
      ensures Ticking(now) && |slots| == |old(slots)| && old(events) <= events
      ensures r == Ok(None) ==>
                SlotDriven(old(slots), old(session.Now()), slots, session.Now(), slotId, now, config)
      ensures r.Ok? ==> r.value == None
      ensures slotId < |session.transport.hist| && slotId < |session.transport.slots|
      ensures r.Ok? ==>
                session.transport.hist[slotId].sent
                == old(session.transport.hist)[slotId].sent
                   + Issues(old(slots)[slotId], old(session.transport.slots)[slotId], now)
      ensures old(session.transport.link.writes) <= session.transport.link.writes
      ensures r.Ok? ==> slotId < |session.transport.slots|
                        && Tried(session.transport.slots[slotId], old(session.transport.link.writes),
                                 session.transport.link.writes)
    {
      hide AllSound, OnRecord, AI.RevisionsOk, WorldOk, Paced, Changes, QueueOk, SameLast, ApplyAll, Replays, Foreign,
        Synchronized, CoreOk, MayReset, Controlled, Settled, CamSound, SlotOk, CaPmtPacer.Valid, CiSession.Valid;
      ghost var a := session.Now();
      CoreSizes(Now());
      ControlledRefl(a, slotId);
      SettledIdle(slots[slotId], a, slotId);
      r := Ok(None);
      if slots[slotId].status == SlotStatus.Failed {
        if slots[slotId].retryAt == None || now < slots[slotId].retryAt.value {
          RestingDriven(slots, slots, a, slotId, now, config);
          return;
        }
        Retry(slotId);
        RetriedOk(old(slots)[slotId], a, slotId);
      }
      ghost var slots1 := slots;
      if slots[slotId].status == Present && slots[slotId].ready {
        r := Connect(slotId, now);
        CoreSizes(Now());
        if r.Ok? {
          ConnectedDriven(old(slots), slots1, a, slots, session.Now(), slotId, now, config);
        }
      } else {
        RestingDriven(old(slots), slots, a, slotId, now, config);
      }
    }

    /** Advances every slot; the first that fails takes the whole link down. `true`
        if none did. */
    method DriveSlots(now: nat) returns (r: Result<bool>)
      requires Ticking(now) && Driven(slots, session.Now(), 0, now, config)
      modifies this`slots, this`events, this`linkSuspended, this`recoveryAt, this`deferredLinkFailure,
        this`nextStatusCheck, this`resets, session`table, session`events, session`delivered, session.app`sessions,
        session.ca`sessions, session.dates, session.mmi, session.transport, session.transport.link`writes,
        session.transport.link`resets, pacer`gate, pacer`clock, pacer`opening, pacer`closings
      ensures |slots| == |old(slots)| && old(events) <= events
      ensures r == Ok(true) ==>
                && Ticking(now) && Driven(slots, session.Now(), |slots|, now, config)
                && Drives(old(View()), View(), now, config)
      ensures r != Ok(true) ==> Valid() && Quits(old(View()), View())
      ensures r == Ok(false) ==>
                exists s: byte, reason :: Blamed(old(events), events, s, reason)
                                          && reason in {CreateTcTimeout, SlotFailure.ResponseTimeout, WriteTimeout}
      ensures r.Err? ==> exists s: byte, reason :: Blamed(old(events), events, s, reason)
    {
      hide AllSound, OnRecord, AI.RevisionsOk, WorldOk, Paced, Changes, QueueOk, SameLast, ApplyAll, Replays, Foreign,
        Synchronized, CoreOk, MayReset, Driven, AllDriven, StateOk, FailureEvents, Quits, Blamed, OneReset, AllFresh,
        CaPmtPacer.Valid, CiSession.Valid, CiController.Core, CiController.Valid, CiController.Ticking, Goes;
      TickingCore(now);
      Sizes();
      var failure, slotId := DriveEach(now);
      TickingCore(now);
      Sizes();
      GoesOn();
      ghost var b, events1 := View(), events;
      if failure == Ok(None) {
        DrivenOk(slots, session.Now(), now, config);
        return Ok(true);
      }
      if failure.Ok? {
        var reset := RecoverAll(Some(slotId), failure.value.value, now);
        BlamedSince(old(events), events1, events, slotId, failure.value.value);
        QuitsLater(old(View()), b, View());
        return if reset.Err? then Err(reset.error) else Ok(false);
      }
      var reset := RecoverAll(Some(slotId), LinkFailed, now);
      BlamedSince(old(events), events1, events, slotId, LinkFailed);
      QuitsLater(old(View()), b, View());
      return Err(failure.error);
    }

    /** Drives the slots in order until one fails; then `slotId` is that slot. */
    method DriveEach(now: nat) returns (r: Result<Option<SlotFailure>>, slotId: byte)
      requires Ticking(now) && Driven(slots, session.Now(), 0, now, config)
      modifies this`slots, this`events, session.transport, session.transport.link`writes
      ensures Ticking(now) && |slots| == |old(slots)| && old(events) <= events && slotId < |slots|
      ensures r == Ok(None) ==>
                && Driven(slots, session.Now(), |slots|, now, config)
                && AllDriven(old(slots), old(session.Now()), slots, session.Now(), old(session.transport.link.writes),
                             session.transport.link.writes, now, config)
      ensures r.Ok? && r.value.Some? ==> r.value.value in {CreateTcTimeout, SlotFailure.ResponseTimeout, WriteTimeout}
    {
      hide AllSound, OnRecord, AI.RevisionsOk, WorldOk, Paced, Changes, QueueOk, SameLast, ApplyAll, Replays, Foreign,
        Synchronized, CoreOk, MayReset, Driven, AllDriven, DrivenSoFar, SlotDriven, TrafficSame, Tried, Issues;
      CoreSizes(Now());
      ghost var w0, writes0 := session.Now(), session.transport.link.writes;
      DrivenNone(slots, w0, writes0, now, config);
      r, slotId := Ok(None), 0;
      var next := 0;
      while next < |slots| && r == Ok(None)
        invariant next <= |slots| == |old(slots)| < 0x100 && slotId < |slots| && old(events) <= events
        invariant Ticking(now)
        invariant r == Ok(None) ==> Driven(slots, session.Now(), next, now, config)
        invariant r == Ok(None) ==>
                    DrivenSoFar(old(slots), w0, slots, session.Now(), writes0, session.transport.link.writes, next, now,
                                config)
        invariant r.Ok? && r.value.Some? ==>
                    r.value.value in {CreateTcTimeout, SlotFailure.ResponseTimeout, WriteTimeout}
        decreases |slots| - next
      {
        ghost var slots1, a, writes := slots, session.Now(), session.transport.link.writes;
        slotId := next;
        DrivenAt(slots, a, next, now, config);
        r := DriveSlot(slotId, now);
        if r == Ok(None) {
          DrivenStep(slots1, a, slots, session.Now(), slotId, now, config);
          CoreSizes(Now());
          DrivenMore(old(slots), w0, slots1, a, slots, session.Now(), writes0, writes, session.transport.link.writes,
                     slotId, now, config);
        }
        next := next + 1;
      }
      if r == Ok(None) {
        DrivenWhole(old(slots), w0, slots, session.Now(), writes0, session.transport.link.writes, now, config);
      }
    }

    /** Lets at most one queued program change through the gate and applies it. */
    method DispatchCaPmt(now: nat) returns (r: Result<()>)
      requires Valid() && lastTick == Some(now) && AllFresh(slots, session.transport.slots, now, config)
      modifies this`slots, this`events, this`linkSuspended, this`recoveryAt, this`deferredLinkFailure,
        this`nextStatusCheck, this`resets, session`table, session`events, session`delivered, session.app`sessions,
        session.ca, session.dates, session.mmi, session.transport, session.transport.link`writes,
        session.transport.link`resets, pacer`gate, pacer`clock, pacer`opening, pacer`closings, pacer`queue,
        pacer`releases
      ensures Valid() && Paces(old(View()), View(), now)
      ensures AllFresh(slots, session.transport.slots, now, config)
      ensures r.Err? ==> linkSuspended
    {
      hide AllSound, OnRecord, AI.RevisionsOk, WorldOk, Paced, Changes, QueueOk, SameLast, ApplyAll, Replays, Foreign,
        Synchronized, StateOk, AllFresh, AllTimersKept, Warned, Relays, Paces, Applies;
      ghost var st, a0 := Now(), View();
      CoreBounds(st, config.retryInterval);
      if linkSuspended {
        ClosedGate(st, config.retryInterval);
      }
      AtRest(st, config.retryInterval);
      ClockAt(st, now);
      var change := pacer.Poll(now);
      if change == None {
        PolledOk(st, Now(), config.retryInterval, now);
        NothingPaced(a0, View(), now);
        return Ok(());
      }
      OpenGate(st, config.retryInterval);
      ghost var a := View();
      r := ApplyChange(change.value, now, st);
      AppliesPaced(a0, a, View(), now, change.value);
    }

    /** Hands one released change to the registry. */
    method ApplyChange(change: Change, now: nat, ghost st: State) returns (r: Result<()>)
      requires session.Valid() && pacer.Valid() && StateOk(st, config.retryInterval) && !st.suspended
      requires st.lastTick == Some(now) && AllFresh(slots, session.transport.slots, now, config)
      requires Now() == st.(releases := pacer.releases, gate := pacer.gate, clock := now)
      requires Changes(pacer.releases) == Changes(st.releases) + [change]
      modifies this`slots, this`events, this`linkSuspended, this`recoveryAt, this`deferredLinkFailure,
        this`nextStatusCheck, this`resets, session`table, session`events, session`delivered, session.app`sessions,
        session.ca, session.dates, session.mmi, session.transport, session.transport.link`writes,
        session.transport.link`resets, pacer`gate, pacer`clock, pacer`opening, pacer`closings
      ensures Valid() && Applies(old(View()), View())
      ensures AllFresh(slots, session.transport.slots, now, config)
      ensures session.ca.programs == Apply(old(session.ca.programs), change)
      ensures r.Err? ==> linkSuspended
      ensures r.Err? ==> AllBlamed(old(slots), old(events), events, LinkFailed)
    {
      hide AllSound, OnRecord, AI.RevisionsOk, WorldOk, Paced, Changes, QueueOk, SameLast, ApplyAll, Replays, Foreign,
        Synchronized, StateOk, CoreOk, AllFresh, AllTimersKept, AllBut, MayReset, ProgramsChanged, TouchedFrom,
        FailureEvents, OnlyTimed, OneReset, Quits, AllBlamed;
      AtRest(st, config.retryInterval);
      Unsuspended(st, config.retryInterval);
      CoreBounds(st, config.retryInterval);
      ghost var a := session.Now();
      var applied := CallRegistry(change);
      ChangeCore(st, Now(), change, applied, now);
      if applied.Err? {
        ghost var b := View();
        var reset := RecoverAll(None, LinkFailed, now);
        RestingFresh(Now(), config.retryInterval, now, config, old(slots));
        QuitApplies(old(View()), b, View());
        return Err(applied.error);
      }
      ProgramsTouched(slots, a, session.Now(), applied.value, now, config);
      MarkTouched(applied.value, now);
      RunningOk(Now(), config.retryInterval, now);
      CoreBounds(Now(), config.retryInterval);
      r := Ok(());
    }

    method CallRegistry(change: Change) returns (r: Result<seq<u16>>)
      requires session.Valid() && Synchronized(session.Now())
      modifies session.ca, session.transport, session.transport.link`writes
      ensures session.Valid() && ProgramsChanged(old(session.Now()), session.Now(), r)
      ensures session.ca.programs == Apply(old(session.ca.programs), change)
      ensures r.Ok? ==> Synchronized(session.Now())
    {
      hide AllSound, OnRecord, AI.RevisionsOk, WorldOk, Synchronized, ProgramsChanged;
      match change {
        case Set(p) => r := session.SetProgram(p);
        case Remove(n) => r := session.RemoveProgram(n);
      }
    }

    /** Times what a change handed to the link, slot by slot. */
    method MarkTouched(touched: seq<u16>, now: nat)
      requires Core() && lastTick == Some(now) && TouchedFrom(slots, session.Now(), touched, 0, now, config)
      modifies this`slots
      ensures Core() && |slots| == |old(slots)|
      ensures AllOk(slots, session.Now()) && AllFresh(slots, session.transport.slots, now, config)
      ensures AllTimersKept(old(slots), slots) && OnlyTimed(old(slots), slots)
    {
      hide AllSound, OnRecord, AI.RevisionsOk, WorldOk, Paced, Changes, QueueOk, SameLast, ApplyAll, Replays, Foreign,
        Synchronized, CoreOk, AllFresh, AllTimersKept, AllBut, TouchedFrom, Marked, OnlyTimed;
      TimersRefl(slots);
      OnlyTimedRefl(slots);
      var i := 0;
      while i < |touched|
        invariant 0 <= i <= |touched| && |slots| == |old(slots)|
        invariant Core() && TouchedFrom(slots, session.Now(), touched, i, now, config)
        invariant AllTimersKept(old(slots), slots) && OnlyTimed(old(slots), slots)
      {
        TouchedAt(slots, session.Now(), touched, i, now, config);
        CoreSizes(Now());
        ghost var slots1 := slots;
        MarkOutstanding(touched[i], now);
        TouchedNext(slots1, slots, session.Now(), touched, i, now, config);
        MarkedTimers(old(slots), slots1, slots, touched[i], session.transport.slots[touched[i]], now);
        i := i + 1;
      }
      TouchedAll(slots, session.Now(), touched, now, config);
    }

    /** The part of a tick that uses the link. */
    method TickLink(now: nat) returns (r: Result<()>)
      requires Ticking(now) && AllOk(slots, session.Now())
      modifies this`slots, this`events, this`linkSuspended, this`recoveryAt, this`deferredLinkFailure,
        this`nextStatusCheck, this`resets, session`table, session`events, session`delivered, session.app`sessions,
        session.ca, session.dates, session.mmi, session.transport, session.transport.link`writes,
        session.transport.link`readings, session.transport.link`resets, pacer`gate, pacer`clock, pacer`opening,
        pacer`closings, pacer`queue, pacer`releases
      ensures Valid() && Ticks(old(View()), View(), now, config)
      ensures r.Err? ==> linkSuspended
    {
      hide AllSound, OnRecord, AI.RevisionsOk, WorldOk, Paced, Changes, QueueOk, SameLast, ApplyAll, Replays, Foreign,
        Synchronized, CoreOk, AllBut, MayReset, StateOk, Driven, AllFresh, Checks, Answers, Drives, Paces, Quits, Ticks,
        CaPmtPacer.Valid, CiSession.Valid, CiController.Valid, CiController.Ticking;
      TickTime(now);
      ghost var a := View();
      r := CheckStatus(now);
      if r.Err? {
        QuitTicks(a, View(), now, config);
        return;
      }
      r := TickSlots(now, a);
    }

    /** Once the link is given up, no deadline is left. */
    lemma Quiet(now: nat)
      requires Valid() && linkSuspended
      ensures AllFresh(slots, session.transport.slots, now, config)
    {
      hide AllSound, OnRecord, AI.RevisionsOk, WorldOk, Paced, Changes, QueueOk, SameLast, StateOk, AllFresh;
      RestingFresh(Now(), config.retryInterval, now, config, []);
    }

    /** A tick that finds the link given up leaves it so. */
    lemma Rests(now: nat, pace0: PaceView)
      requires Valid() && linkSuspended && Pace() == pace0.(clock := Some(now))
      ensures AllFresh(slots, session.transport.slots, now, config)
      ensures AllNotPutOff(slots, session.transport.slots, slots)
      ensures Dispatches(pace0, now, Pace(), true)
    {
      hide AllSound, OnRecord, AI.RevisionsOk, WorldOk, Paced, Changes, QueueOk, SameLast, StateOk, AllFresh,
        AllNotPutOff, Dispatches;
      Quiet(now);
      Rested();
      ClosedGate(Now(), config.retryInterval);
      RestingNotPutOff(Now(), config.retryInterval, slots, session.transport.slots);
      DispatchesNothing(pace0, now, Pace());
    }

    lemma TickTime(now: nat)
      requires Ticking(now)
      ensures lastTick == Some(now) && !linkSuspended && Sized(View())
    {
      hide AllSound, OnRecord, AI.RevisionsOk, WorldOk, Paced, Changes, QueueOk, SameLast, MayReset, Synchronized;
      CoreSizes(Now());
      hide CoreOk;
    }

    /** Once every slot is driven, everything is in order and in time. */
    lemma AllDone(now: nat)
      requires Ticking(now) && Driven(slots, session.Now(), |slots|, now, config)
      ensures Valid() && AllFresh(slots, session.transport.slots, now, config)
    {
      hide AllSound, OnRecord, AI.RevisionsOk, WorldOk, Paced, Changes, QueueOk, SameLast, StateOk, AllFresh, CoreOk,
        MayReset, Synchronized, Driven;
      DrivenOk(slots, session.Now(), now, config);
      RunningOk(Now(), config.retryInterval, now);
    }

    /** Resource timers, then every slot, then the paced changes. */
    method TickSlots(now: nat, ghost a: TickView) returns (r: Result<()>)
      requires Ticking(now) && AllOk(slots, session.Now()) && Sized(a)
      requires Checks(a, View(), now, config) && a.pace.clock == Some(now) && !a.suspended
      modifies this`slots, this`events, this`linkSuspended, this`recoveryAt, this`deferredLinkFailure,
        this`nextStatusCheck, this`resets, session`table, session`events, session`delivered, session.app`sessions,
        session.ca, session.dates, session.mmi, session.transport, session.transport.link`writes,
        session.transport.link`resets, pacer`gate, pacer`clock, pacer`opening, pacer`closings, pacer`queue,
        pacer`releases
      ensures Valid() && Ticks(a, View(), now, config)
      ensures r.Err? ==> linkSuspended
    {
      hide AllSound, OnRecord, AI.RevisionsOk, WorldOk, Paced, Changes, QueueOk, SameLast, ApplyAll, Replays, Foreign,
        Synchronized, CoreOk, AllBut, MayReset, StateOk, Driven, AllFresh, Checks, Answers, Drives, Paces, Quits, Ticks,
        CaPmtPacer.Valid, CiSession.Valid, CiController.Valid, CiController.Ticking;
      ghost var b := View();
      r := TickResources(now);
      if r.Err? {
        CheckedQuits(a, b, View(), now, config);
        return;
      }
      r := DriveAndDispatch(now, a, b);
    }

    /** The physical flags, when it is time for them. */
    method CheckStatus(now: nat) returns (r: Result<()>)
      requires Ticking(now) && AllOk(slots, session.Now())
      modifies this`slots, this`events, this`linkSuspended, this`recoveryAt, this`deferredLinkFailure,
        this`nextStatusCheck, this`resets, session`table, session`events, session`delivered, session.app`sessions,
        session.ca`sessions, session.dates, session.mmi, session.transport, session.transport.link`readings,
        session.transport.link`resets, pacer`gate, pacer`clock, pacer`opening, pacer`closings
      ensures |slots| == |old(slots)| && old(events) <= events
      ensures r.Ok? ==> Ticking(now) && AllOk(slots, session.Now())
      ensures r.Ok? ==> Checks(old(View()), View(), now, config)
      ensures r.Err? ==> Valid() && Quits(old(View()), View())
    {
      hide AllSound, OnRecord, AI.RevisionsOk, WorldOk, Paced, Changes, QueueOk, SameLast, ApplyAll, Replays, Foreign,
        Synchronized, CoreOk, AllBut, MayReset, StateOk, AllGoing, Quits, DatesKept, AllRechecked;
      CoreSizes(Now());
      NoDatesDropped(session.dates.sessions);
      GoesRefl(View());
      GoingRefl(slots, session.transport.slots);
      r := Ok(());
      if nextStatusCheck == None || now >= nextStatusCheck.value {
        r := RefreshSlotInfo(now);
        if r.Ok? {
          nextStatusCheck := Some(now + config.slotStatusInterval);
        }
      }
    }

    method DriveAndDispatch(now: nat, ghost a: TickView, ghost b: TickView) returns (r: Result<()>)
      requires Ticking(now) && Driven(slots, session.Now(), 0, now, config) && Sized(a)
      requires Checks(a, b, now, config) && Answers(b, View(), now) && a.pace.clock == Some(now) && !a.suspended
      modifies this`slots, this`events, this`linkSuspended, this`recoveryAt, this`deferredLinkFailure,
        this`nextStatusCheck, this`resets, session`table, session`events, session`delivered, session.app`sessions,
        session.ca, session.dates, session.mmi, session.transport, session.transport.link`writes,
        session.transport.link`resets, pacer`gate, pacer`clock, pacer`opening, pacer`closings, pacer`queue,
        pacer`releases
      ensures Valid() && Ticks(a, View(), now, config)
      ensures r.Err? ==> linkSuspended
    {
      hide AllSound, OnRecord, AI.RevisionsOk, WorldOk, Paced, Changes, QueueOk, SameLast, ApplyAll, Replays, Foreign,
        Synchronized, CoreOk, AllBut, MayReset, StateOk, Driven, AllFresh, Checks, Answers, Drives, Paces, Quits, Ticks,
        CaPmtPacer.Valid, CiSession.Valid, CiController.Valid, CiController.Ticking;
      TickTime(now);
      ghost var c := View();
      var driven := DriveSlots(now);
      ghost var d := View();
      if driven == Ok(true) {
        AllDone(now);
      } else {
        AnsweredQuits(a, b, c, d, now, config);
        if driven.Err? {
          QuitTicks(a, d, now, config);
          return Err(driven.error);
        }
        Quiet(now);
      }
      r := Dispatch(now);
      if driven == Ok(true) {
        TickWhole(a, b, c, d, View(), now, config);
      } else {
        QuitsStays(a, d, View(), now);
        QuitTicks(a, View(), now, config);
      }
    }

    /** Hears what is left to hear, which is nothing, and paces the queued changes. */
    method Dispatch(now: nat) returns (r: Result<()>)
      requires Valid() && lastTick == Some(now) && AllFresh(slots, session.transport.slots, now, config)
      modifies this`slots, this`events, this`linkSuspended, this`recoveryAt, this`deferredLinkFailure,
        this`nextStatusCheck, this`resets, session`table, session`events, session`delivered, session.app`sessions,
        session.ca, session.dates, session.mmi, session.transport, session.transport.link`writes,
        session.transport.link`resets, pacer`gate, pacer`clock, pacer`opening, pacer`closings, pacer`queue,
        pacer`releases
      ensures Valid() && Paces(old(View()), View(), now)
      ensures AllFresh(slots, session.transport.slots, now, config)
      ensures r.Err? ==> linkSuspended
    {
      hide AllSound, OnRecord, AI.RevisionsOk, WorldOk, Paced, Changes, QueueOk, SameLast, ApplyAll, Replays, Foreign,
        Synchronized, StateOk, CoreOk, AllFresh, AllTimersKept, HeardAll, RelayedAll, RearmedAll, Dispatches, OneReset,
        Paces;
      HearNothing();
      r := DispatchCaPmt(now);
    }

    /** Advances physical checks, transport polling, timeouts and paced changes.
        Time never runs backwards. */
    method Tick(now: nat) returns (r: Result<()>)
      requires Valid() && (lastTick.Some? ==> lastTick.value <= now)
      modifies this`slots, this`lastTick, this`events, this`linkSuspended, this`recoveryAt, this`deferredLinkFailure,
        this`nextStatusCheck, this`resets, session`table, session`events, session`delivered, session.app`sessions,
        session.ca, session.dates, session.mmi, session.transport, session.transport.link`writes,
        session.transport.link`readings, session.transport.link`resets, pacer`gate, pacer`clock, pacer`opening,
        pacer`closings, pacer`queue, pacer`releases
      ensures Valid() && lastTick == Some(now) && |slots| == |old(slots)| && old(events) <= events
      ensures AllFresh(slots, session.transport.slots, now, config)
      ensures AllNotPutOff(old(slots), old(session.transport.slots), slots)
      ensures AtMostOneReset(old(Ledger()), Ledger())
      ensures AtMostOneRelease(old(pacer.releases), pacer.releases)
      ensures Passes(old(Seen()), TickCall(now), Seen(), config)
      ensures if old(deferredLinkFailure) then linkSuspended && OneReset(old(Ledger()), Ledger())
              else if old(linkSuspended) && (old(recoveryAt) == None || now < old(recoveryAt).value) then
                && r.Ok? && slots == old(slots) && events == old(events) && linkSuspended
                && Ledger() == old(Ledger())
              else Ticks(old(View()).(suspended := false), View(), now, config)
      ensures r.Err? ==> linkSuspended
      ensures Proceeds(old(Pace()), TickTurn(now, linkSuspended), Pace())
    {
      hide AllSound, OnRecord, AI.RevisionsOk, WorldOk, Paced, Changes, QueueOk, SameLast, ApplyAll, Replays, Foreign,
        Synchronized, StateOk, CoreOk, AllFresh, AllNotPutOff, AllBut, MayReset, Passes, OneReset, AllOk, Dispatches,
        Proceeds, Ticks, Quits, Running, CaPmtPacer.Valid, CiSession.Valid, CiController.Core, CiController.Valid,
        CiController.View, CiController.Ledger, CiController.Pace, CiController.Seen;
      Rested();
      BeginTick(now);
      if !deferredLinkFailure && linkSuspended && (recoveryAt == None || now < recoveryAt.value) {
        r := Ok(());
        Rests(now, old(Pace()));
      } else {
        r := UseLink(now);
        Used(now);
      }
      TickSeen(now);
    }

    /** What is seen of the deadlines and of the pacing after a tick. */
    twostate lemma TickSeen(now: nat)
      requires lastTick == Some(now) && session.transport.link.received == old(session.transport.link.received)
      requires AllNotPutOff(old(slots), old(session.transport.slots), slots)
      requires AllFresh(slots, session.transport.slots, now, config)
      requires Dispatches(old(Pace()), now, Pace(), linkSuspended)
      ensures Passes(old(Seen()), TickCall(now), Seen(), config)
      ensures Proceeds(old(Pace()), TickTurn(now, linkSuspended), Pace())
    {
      hide AllNotPutOff, AllFresh, Dispatches, Passes;
      TickPasses(old(Seen()), Seen(), now, config);
      TickProceeds(old(Pace()), now, Pace(), linkSuspended);
    }

    /** The link is used, unless a link failure is to be made up for. */
    method UseLink(now: nat) returns (r: Result<()>)
      requires Core() && lastTick == Some(now) && Sized(View()) && AllOk(slots, session.Now())
      requires session.Valid() && pacer.Valid()
      requires if deferredLinkFailure then MayReset(resets, config.retryInterval, now) && !linkSuspended
               else Running(Now().(suspended := false, recoveryAt := None), config.retryInterval, now)
      modifies this`slots, this`events, this`linkSuspended, this`recoveryAt, this`deferredLinkFailure,
        this`nextStatusCheck, this`resets, session`table, session`events, session`delivered, session.app`sessions,
        session.ca, session.dates, session.mmi, session.transport, session.transport.link`writes,
        session.transport.link`readings, session.transport.link`resets, pacer`gate, pacer`clock, pacer`opening,
        pacer`closings, pacer`queue, pacer`releases
      ensures Valid() && Ticks(old(View()).(suspended := false), View(), now, config)
      ensures r.Err? ==> linkSuspended
      ensures old(deferredLinkFailure) ==> linkSuspended
    {
      hide AllSound, OnRecord, AI.RevisionsOk, WorldOk, Paced, Changes, QueueOk, SameLast, ApplyAll, Replays, Foreign,
        Synchronized, StateOk, CoreOk, AllBut, MayReset, AllOk, Ticks, Quits, Running, CaPmtPacer.Valid,
        CiSession.Valid, CiController.Core, CiController.Valid;
      ghost var b := View().(suspended := false);
      if deferredLinkFailure {
        r := RecoverDeferred(now);
        QuitTicks(b, View(), now, config);
      } else {
        r := ResumeLink(now);
      }
    }

    /** What a tick that uses the link amounts to. */
    twostate lemma Used(now: nat)
      requires Ticks(old(View()).(pace := old(Pace()).(clock := Some(now)), suspended := false), View(), now, config)
      requires delivered == old(delivered)
      ensures Ticks(old(View()).(suspended := false), View(), now, config)
      ensures |slots| == |old(slots)| && old(events) <= events
      ensures AllFresh(slots, session.transport.slots, now, config)
      ensures AllNotPutOff(old(slots), old(session.transport.slots), slots)
      ensures AtMostOneReset(old(Ledger()), Ledger()) && AtMostOneRelease(old(pacer.releases), pacer.releases)
      ensures Dispatches(old(Pace()), now, Pace(), linkSuspended)
      ensures linkSuspended ==> OneReset(old(Ledger()), Ledger())
    {
      hide Ticks, AllFresh, AllNotPutOff, OneReset, Dispatches, Changes;
      ghost var a := old(View()).(suspended := false);
      TicksMean(a, a.(pace := a.pace.(clock := Some(now))), View(), now, config);
      GrownBehind(delivered, old(events), events);
    }

    /** Only the clock has moved on since. */
    twostate lemma OnlyClock(now: nat)
      requires Core() && Now() == old(Now()).(lastTick := Some(now))
      requires nextStatusCheck == old(nextStatusCheck) && unchanged(session.transport.link)
      requires unchanged(session.ca, session.transport)
      requires Pace() == old(Pace()).(clock := Some(now)) && Ledger() == old(Ledger())
      ensures View() == old(View()).(pace := old(Pace()).(clock := Some(now)))
      ensures Sized(View()) && View().log == delivered + events && View().suspended == linkSuspended
      ensures old(View()).slots == old(slots) && old(View()).log == old(delivered + events)
      ensures old(View()).pace == old(Pace()) && old(View()).ledger == old(Ledger())
      ensures old(View()).releases == old(pacer.releases) && old(View()).w.slots == old(session.transport.slots)
    {
      hide Changes, CoreOk;
      Sizes();
    }

    /** The clock moves on; nothing is left to be heard. */
    method BeginTick(now: nat)
      requires Valid() && (lastTick.Some? ==> lastTick.value <= now)
      modifies this`lastTick, this`slots, this`events, session`events, session`delivered,
        pacer`gate, pacer`clock, pacer`opening
      ensures Core() && session.events == [] && Synchronized(session.Now()) && AllOk(slots, session.Now())
      ensures Now() == old(Now()).(lastTick := Some(now)) && events == old(events) && slots == old(slots)
      ensures View() == old(View()).(pace := old(Pace()).(clock := Some(now))) && Sized(View())
      ensures Pace() == old(Pace()).(clock := Some(now)) && Ledger() == old(Ledger())
      ensures session.Valid() && pacer.Valid()
      ensures if deferredLinkFailure then MayReset(resets, config.retryInterval, now) && !linkSuspended
              else if linkSuspended && (recoveryAt == None || now < recoveryAt.value) then Valid()
              else Running(Now().(suspended := false, recoveryAt := None), config.retryInterval, now)
    {
      hide AllSound, OnRecord, AI.RevisionsOk, WorldOk, Paced, Changes, QueueOk, SameLast, ApplyAll, Replays, Foreign,
        Synchronized, StateOk, CoreOk, AllBut, MayReset, HeardAll, RelayedAll, RearmedAll, Running,
        CiController.View, CaPmtPacer.Valid, CiSession.Valid;
      ghost var st := Now();
      AtRest(st, config.retryInterval);
      lastTick := Some(now);
      ghost var st' := Now();
      TickStart(st, st', config.retryInterval, now);
      HeardNothing(slots, session.Now(), pacer.gate, lastTick, pacer.settle);
      CollectSessionEvents();
      assert events == old(events) + [] == old(events);
      assert Now() == st';
      OnlyClock(now);
    }

    /** A link failure from before the first tick is made up for. */
    method RecoverDeferred(now: nat) returns (r: Result<()>)
      requires Core() && lastTick == Some(now) && MayReset(resets, config.retryInterval, now)
      modifies this`slots, this`events, this`linkSuspended, this`recoveryAt, this`deferredLinkFailure,
        this`nextStatusCheck, this`resets, session`table, session`events, session`delivered, session.app`sessions,
        session.ca`sessions, session.dates, session.mmi, session.transport, session.transport.link`resets, pacer`gate,
        pacer`clock, pacer`opening, pacer`closings
      ensures Valid() && Quits(old(View()), View())
      ensures AllBlamed(old(slots), old(events), events, LinkFailed)
    {
      hide AllSound, OnRecord, AI.RevisionsOk, WorldOk, Paced, Changes, QueueOk, SameLast, ApplyAll, Replays, Foreign,
        Synchronized, StateOk, MayReset, FailureEvents, Warned, Relays, Quits, AllBlamed;
      hide CoreOk;
      CoreUndeferred(Now());
      deferredLinkFailure := false;
      r := RecoverAll(None, LinkFailed, now);
    }

    /** The link is in use, or is again. */
    method ResumeLink(now: nat) returns (r: Result<()>)
      requires session.Valid() && pacer.Valid() && AllOk(slots, session.Now())
      requires Running(Now().(suspended := false, recoveryAt := None), config.retryInterval, now)
      modifies this`slots, this`events, this`linkSuspended, this`recoveryAt, this`deferredLinkFailure,
        this`nextStatusCheck, this`resets, session`table, session`events, session`delivered, session.app`sessions,
        session.ca, session.dates, session.mmi, session.transport, session.transport.link`writes,
        session.transport.link`readings, session.transport.link`resets, pacer`gate, pacer`clock, pacer`opening,
        pacer`closings, pacer`queue, pacer`releases
      ensures Valid() && Ticks(old(View()).(suspended := false), View(), now, config)
      ensures r.Err? ==> linkSuspended
    {
      hide AllSound, OnRecord, AI.RevisionsOk, WorldOk, Paced, Changes, QueueOk, SameLast, ApplyAll, Replays, Foreign,
        Synchronized, StateOk, CoreOk, MayReset, Running, Ticks;
      linkSuspended, recoveryAt := false, None;
      r := TickLink(now);
    }

    // --------------------------------------------------------------------- commands

    /** Queues a program select; it is applied from a tick. */
    method SetProgram(program: Program) returns (number: u16)
      requires Valid()
      modifies pacer`queue, pacer`history
      ensures Seen() == old(Seen())
      ensures Valid() && number == program.number
      ensures pacer.history == old(pacer.history) + [Set(program)]
      ensures Proceeds(old(Pace()), Push(Set(program)), Pace())
    {
      hide AllSound, OnRecord, AI.RevisionsOk, WorldOk, Paced, Changes, QueueOk, SameLast, ApplyAll, Replays, Foreign,
        Synchronized, StateOk, Warned, Relays;
      pacer.PushSet(program);
      number := program.number;
    }

    /** Queues a program remove. */
    method RemoveProgram(n: u16) returns (r: Result<()>)
      requires Valid()
      modifies pacer`queue, pacer`history
      ensures Seen() == old(Seen())
      ensures Valid()
      ensures n == 0 ==> r == Err(InvalidProperty) && pacer.history == old(pacer.history)
      ensures n != 0 ==> r == Ok(()) && pacer.history == old(pacer.history) + [Remove(n)]
      ensures if n == 0 then Pace() == old(Pace()) else Proceeds(old(Pace()), Push(Remove(n)), Pace())
    {
      hide AllSound, OnRecord, AI.RevisionsOk, WorldOk, Paced, Changes, QueueOk, SameLast, ApplyAll, Replays, Foreign,
        Synchronized, StateOk, Warned, Relays;
      if n == 0 {
        return Err(InvalidProperty);
      }
      pacer.PushRemove(n);
      r := Ok(());
    }

    /** Effective from the next tick. */
    method SetCaPmtInterval(interval: nat)
      requires Valid()
      modifies pacer`interval
      ensures Seen() == old(Seen())
      ensures Valid() && pacer.interval == interval
      ensures Proceeds(old(Pace()), NewInterval(interval), Pace())
    {
      hide AllSound, OnRecord, AI.RevisionsOk, WorldOk, Paced, Changes, QueueOk, SameLast, ApplyAll, Replays, Foreign,
        Synchronized, StateOk, Warned, Relays;
      pacer.SetInterval(interval);
    }

    /** Times a command that was handed over, or recovers if the link failed. */
    method FinishSlotCommand(slotId: byte, result: Result<()>, ghost st: State, ghost m: Moment)
      returns (r: Result<()>)
      requires session.Valid() && pacer.Valid() && StateOk(st, config.retryInterval) && WorldOk(st.w)
      requires Now() == st.(w := session.Now()) && IsSlotActive(slots, slotId)
      requires Commanded(st.w, session.Now(), slotId, result) && Synchronized(session.Now())
      requires m == Moment(slots, st.w.slots, session.transport.link.received, lastTick)
      modifies this`slots, this`events, this`linkSuspended, this`recoveryAt, this`deferredLinkFailure,
        this`nextStatusCheck, this`resets, session`table, session`events, session`delivered, session.app`sessions,
        session.ca`sessions, session.dates, session.mmi, session.transport, session.transport.link`resets, pacer`gate,
        pacer`clock, pacer`opening, pacer`closings
      ensures Valid() && r == result && |slots| == |old(slots)| && old(events) <= events
      ensures Passes(m, CommandCall, Seen(), config)
      ensures AtMostOneReset(old(Ledger()), Ledger())
      ensures result == Err(InvalidProperty) ==> Now() == st
      ensures result.Ok? ==> session.Now() == old(session.Now())
      ensures result.Err? && result.error != InvalidProperty ==>
                IsLinkError(result.error) && linkSuspended && Blamed(old(events), events, slotId, LinkFailed)
      ensures OnlyGate(old(Pace()), Pace())
      ensures pacer.gate == if r.Err? && r.error != InvalidProperty then NotReady else old(pacer.gate)
    {
      hide AllSound, OnRecord, AI.RevisionsOk, WorldOk, Paced, Changes, QueueOk, SameLast, ApplyAll, Replays, Foreign,
        Synchronized, StateOk, CoreOk, AllBut, MayReset, FailureEvents, Commanded, Resting, AllHeld, Passes, OneReset,
        CaPmtPacer.Valid, CiSession.Valid, Blamed, CiController.Pace, OnlyGate, Proceeds;
      AtRest(st, config.retryInterval);
      ActiveRunning(st, config.retryInterval, slotId);
      CommandedCore(st, Now(), slotId, result);
      r := result;
      if result == Err(InvalidProperty) {
        CommandRefl(m, config);
      } else if result.Err? {
        GiveUpCommand(slotId, m);
      } else {
        TimeCommand(slotId, result, st);
        CommandPasses(m, Seen(), config);
      }
      GateOnly();
    }

    /** The link failed under a command. */
    method GiveUpCommand(slotId: byte, ghost m: Moment)
      requires Core() && slotId < |slots| && lastTick.Some?
      requires MayReset(resets, config.retryInterval, lastTick.value)
      requires |m.slots| == |m.traffic| == |slots|
      requires m.received == session.transport.link.received && m.clock == lastTick
      modifies this`slots, this`events, this`linkSuspended, this`recoveryAt, this`deferredLinkFailure,
        this`nextStatusCheck, this`resets, session`table, session`events, session`delivered, session.app`sessions,
        session.ca`sessions, session.dates, session.mmi, session.transport, session.transport.link`resets, pacer`gate,
        pacer`clock, pacer`opening, pacer`closings
      ensures Valid() && |slots| == |old(slots)| && linkSuspended && old(events) <= events
      ensures Passes(m, CommandCall, Seen(), config)
      ensures OneReset(old(Ledger()), Ledger())
      ensures pacer.gate.Ready? ==> pacer.gate == old(pacer.gate)
      ensures Blamed(old(events), events, slotId, LinkFailed)
      ensures pacer.gate == NotReady
    {
      hide AllSound, OnRecord, AI.RevisionsOk, WorldOk, Paced, Changes, QueueOk, SameLast, CoreOk, StateOk, MayReset,
        FailureEvents, Resting, Passes, Blamed, AllBlamed;
      var reset := RecoverAll(Some(slotId), LinkFailed, lastTick.value);
      CoreBounds(Now(), config.retryInterval);
      GivenUp(Now(), config.retryInterval);
      CommandPasses(m, Seen(), config);
    }

    /** Times a command that was handed over. */
    method TimeCommand(slotId: byte, ghost result: Result<()>, ghost st: State)
      requires Core() && StateOk(st, config.retryInterval) && WorldOk(st.w) && Synchronized(session.Now())
      requires Now() == st.(w := session.Now()) && IsSlotActive(slots, slotId)
      requires Commanded(st.w, session.Now(), slotId, result) && result.Ok?
      modifies this`slots
      ensures Valid() && |slots| == |old(slots)| == |session.transport.slots| && AllHeld(old(slots), slots)
    {
      hide AllSound, OnRecord, AI.RevisionsOk, WorldOk, Paced, Changes, QueueOk, SameLast, ApplyAll, Replays, Foreign,
        Synchronized, StateOk, CoreOk, AllBut, MayReset, Controlled, Settled, CamSound, SlotOk, Marked, AllHeld;
      AtRest(st, config.retryInterval);
      ActiveRunning(st, config.retryInterval, slotId);
      CommandedCore(st, Now(), slotId, result);
      OthersToo(slots, st.w, slotId);
      ControlledOthers(slots, st.w, session.Now(), slotId);
      SlotAt(slots, st.w, -1, slotId);
      OkParts(slots[slotId], st.w, slotId);
      ControlledActive(slots[slotId], st.w, session.Now(), slotId);
      CommandFine(st.w, session.Now(), slotId, result);
      MarkActive(slotId, lastTick.value);
      CoreSizes(Now());
      MarkedHeld(old(slots), slots, slotId, session.transport.slots[slotId], lastTick.value);
      RunningOk(Now(), config.retryInterval, lastTick.value);
    }

    /** Asks the CAM to enter its menu. */
    method EnterMenu(slotId: byte) returns (r: Result<()>)
      requires Valid()
      modifies this`slots, this`events, this`linkSuspended, this`recoveryAt, this`deferredLinkFailure,
        this`nextStatusCheck, this`resets, session`table, session`events, session`delivered, session.app`sessions,
        session.ca`sessions, session.dates, session.mmi, session.transport, session.transport.link`writes,
        session.transport.link`resets, pacer`gate, pacer`clock, pacer`opening, pacer`closings
      ensures Valid() && |slots| == |old(slots)| && old(events) <= events
      ensures !IsSlotActive(old(slots), slotId) ==> r == Err(InvalidProperty)
      ensures r == Err(InvalidProperty) ==> Now() == old(Now())
      ensures Passes(old(Seen()), CommandCall, Seen(), config)
      ensures AtMostOneReset(old(Ledger()), Ledger())
      ensures r.Err? && r.error != InvalidProperty ==>
                IsLinkError(r.error) && linkSuspended && Blamed(old(events), events, slotId, LinkFailed)
      ensures r.Ok? ==> exists id: u16 :: IsActive(session.table, id, slotId, ApplicationInformation)
                          && SentOne(old(session.Now()), session.Now(), slotId, id, Apdu.ENTER_MENU, [])
      ensures Proceeds(old(Pace()), OtherCall, Pace())
      ensures pacer.gate == if r.Err? && r.error != InvalidProperty then NotReady else old(pacer.gate)
    {
      hide AllSound, OnRecord, AI.RevisionsOk, WorldOk, Paced, Changes, QueueOk, SameLast, ApplyAll, Replays, Foreign,
        Synchronized, StateOk, SentOne, Commanded, MayReset, Resting, AllHeld, Passes, Warned, Relays, Proceeds,
        OnlyGate, OneReset, Blamed;
      ghost var st, m, pace := Now(), Seen(), Pace();
      OtherProceeds(pace, pace);
      AtRest(st, config.retryInterval);
      if !IsSlotActive(slots, slotId) {
        CommandRefl(m, config);
        return Err(InvalidProperty);
      }
      r := session.EnterMenu(slotId);
      r := FinishSlotCommand(slotId, r, st, m);
      OtherProceeds(pace, Pace());
    }

    /** Answers a menu, or closes a list with choice 0, on one MMI session. */
    method MmiMenuAnswer(slotId: byte, sessionId: u16, choice: byte) returns (r: Result<()>)
      requires Valid()
      modifies this`slots, this`events, this`linkSuspended, this`recoveryAt, this`deferredLinkFailure,
        this`nextStatusCheck, this`resets, session`table, session`events, session`delivered, session.app`sessions,
        session.ca`sessions, session.dates, session.mmi, session.transport, session.transport.link`writes,
        session.transport.link`resets, pacer`gate, pacer`clock, pacer`opening, pacer`closings
      ensures Valid() && |slots| == |old(slots)| && old(events) <= events
      ensures !IsSlotActive(old(slots), slotId) ==> r == Err(InvalidProperty)
      ensures r == Err(InvalidProperty) ==> Now() == old(Now())
      ensures Passes(old(Seen()), CommandCall, Seen(), config)
      ensures AtMostOneReset(old(Ledger()), Ledger())
      ensures r.Err? && r.error != InvalidProperty ==>
                IsLinkError(r.error) && linkSuspended && Blamed(old(events), events, slotId, LinkFailed)
      ensures r.Ok? ==> SentOne(old(session.Now()), session.Now(), slotId, sessionId, Apdu.MENU_ANSW, [choice])
      ensures Proceeds(old(Pace()), OtherCall, Pace())
      ensures pacer.gate == if r.Err? && r.error != InvalidProperty then NotReady else old(pacer.gate)
    {
      hide AllSound, OnRecord, AI.RevisionsOk, WorldOk, Paced, Changes, QueueOk, SameLast, ApplyAll, Replays, Foreign,
        Synchronized, StateOk, SentOne, Commanded, MayReset, Resting, AllHeld, Passes, Warned, Relays, Proceeds,
        OnlyGate, OneReset, Blamed;
      ghost var st, m, pace := Now(), Seen(), Pace();
      OtherProceeds(pace, pace);
      AtRest(st, config.retryInterval);
      if !IsSlotActive(slots, slotId) {
        CommandRefl(m, config);
        return Err(InvalidProperty);
      }
      r := session.MmiMenuAnswer(slotId, sessionId, choice);
      r := FinishSlotCommand(slotId, r, st, m);
      OtherProceeds(pace, Pace());
    }

    /** Answers an enquiry on one MMI session. */
    method MmiAnswer(slotId: byte, sessionId: u16, answer: Option<seq<byte>>) returns (r: Result<()>)
      requires Valid()
      modifies this`slots, this`events, this`linkSuspended, this`recoveryAt, this`deferredLinkFailure,
        this`nextStatusCheck, this`resets, session`table, session`events, session`delivered, session.app`sessions,
        session.ca`sessions, session.dates, session.mmi, session.transport, session.transport.link`writes,
        session.transport.link`resets, pacer`gate, pacer`clock, pacer`opening, pacer`closings
      ensures Valid() && |slots| == |old(slots)| && old(events) <= events
      ensures !IsSlotActive(old(slots), slotId) ==> r == Err(InvalidProperty)
      ensures r == Err(InvalidProperty) ==> Now() == old(Now())
      ensures Passes(old(Seen()), CommandCall, Seen(), config)
      ensures AtMostOneReset(old(Ledger()), Ledger())
      ensures r.Err? && r.error != InvalidProperty ==>
                IsLinkError(r.error) && linkSuspended && Blamed(old(events), events, slotId, LinkFailed)
      ensures r.Ok? ==> SentOne(old(session.Now()), session.Now(), slotId, sessionId, Apdu.ANSW,
                                if answer == None then [0x00] else [0x01] + answer.value)
      ensures Proceeds(old(Pace()), OtherCall, Pace())
      ensures pacer.gate == if r.Err? && r.error != InvalidProperty then NotReady else old(pacer.gate)
    {
      hide AllSound, OnRecord, AI.RevisionsOk, WorldOk, Paced, Changes, QueueOk, SameLast, ApplyAll, Replays, Foreign,
        Synchronized, StateOk, SentOne, Commanded, MayReset, Resting, AllHeld, Passes, Warned, Relays, Proceeds,
        OnlyGate, OneReset, Blamed;
      ghost var st, m, pace := Now(), Seen(), Pace();
      OtherProceeds(pace, pace);
      AtRest(st, config.retryInterval);
      if !IsSlotActive(slots, slotId) {
        CommandRefl(m, config);
        return Err(InvalidProperty);
      }
      r := session.MmiAnswer(slotId, sessionId, answer);
      r := FinishSlotCommand(slotId, r, st, m);
      OtherProceeds(pace, Pace());
    }

    /** Asks the CAM to close a dialogue. */
    method MmiClose(slotId: byte, sessionId: u16) returns (r: Result<()>)
      requires Valid()
      modifies this`slots, this`events, this`linkSuspended, this`recoveryAt, this`deferredLinkFailure,
        this`nextStatusCheck, this`resets, session`table, session`events, session`delivered, session.app`sessions,
        session.ca`sessions, session.dates, session.mmi, session.transport, session.transport.link`writes,
        session.transport.link`resets, pacer`gate, pacer`clock, pacer`opening, pacer`closings
      ensures Valid() && |slots| == |old(slots)| && old(events) <= events
      ensures !IsSlotActive(old(slots), slotId) ==> r == Err(InvalidProperty)
      ensures r == Err(InvalidProperty) ==> Now() == old(Now())
      ensures Passes(old(Seen()), CommandCall, Seen(), config)
      ensures AtMostOneReset(old(Ledger()), Ledger())
      ensures r.Err? && r.error != InvalidProperty ==>
                IsLinkError(r.error) && linkSuspended && Blamed(old(events), events, slotId, LinkFailed)
      ensures r.Ok? ==> SentOne(old(session.Now()), session.Now(), slotId, sessionId, Apdu.CLOSE_MMI, [0x00])
      ensures Proceeds(old(Pace()), OtherCall, Pace())
      ensures pacer.gate == if r.Err? && r.error != InvalidProperty then NotReady else old(pacer.gate)
    {
      hide AllSound, OnRecord, AI.RevisionsOk, WorldOk, Paced, Changes, QueueOk, SameLast, ApplyAll, Replays, Foreign,
        Synchronized, StateOk, SentOne, Commanded, MayReset, Resting, AllHeld, Passes, Warned, Relays, Proceeds,
        OnlyGate, OneReset, Blamed;
      ghost var st, m, pace := Now(), Seen(), Pace();
      OtherProceeds(pace, pace);
      AtRest(st, config.retryInterval);
      if !IsSlotActive(slots, slotId) {
        CommandRefl(m, config);
        return Err(InvalidProperty);
      }
      r := session.MmiClose(slotId, sessionId);
      r := FinishSlotCommand(slotId, r, st, m);
      OtherProceeds(pace, Pace());
    }

    /** Asks the CAM to release the host control resource. */
    method AskRelease(slotId: byte) returns (r: Result<()>)
      requires Valid()
      modifies this`slots, this`events, this`linkSuspended, this`recoveryAt, this`deferredLinkFailure,
        this`nextStatusCheck, this`resets, session`table, session`events, session`delivered, session.app`sessions,
        session.ca`sessions, session.dates, session.mmi, session.transport, session.transport.link`writes,
        session.transport.link`resets, pacer`gate, pacer`clock, pacer`opening, pacer`closings
      ensures Valid() && |slots| == |old(slots)| && old(events) <= events
      ensures !IsSlotActive(old(slots), slotId) ==> r == Err(InvalidProperty)
      ensures r == Err(InvalidProperty) ==> Now() == old(Now())
      ensures Passes(old(Seen()), CommandCall, Seen(), config)
      ensures AtMostOneReset(old(Ledger()), Ledger())
      ensures r.Err? && r.error != InvalidProperty ==>
                IsLinkError(r.error) && linkSuspended && Blamed(old(events), events, slotId, LinkFailed)
      ensures r.Ok? ==> exists id: u16 :: IsActive(session.table, id, slotId, HostControl)
                          && SentOne(old(session.Now()), session.Now(), slotId, id, Apdu.ASK_RELEASE, [])
      ensures Proceeds(old(Pace()), OtherCall, Pace())
      ensures pacer.gate == if r.Err? && r.error != InvalidProperty then NotReady else old(pacer.gate)
    {
      hide AllSound, OnRecord, AI.RevisionsOk, WorldOk, Paced, Changes, QueueOk, SameLast, ApplyAll, Replays, Foreign,
        Synchronized, StateOk, SentOne, Commanded, MayReset, Resting, AllHeld, Passes, Warned, Relays, Proceeds,
        OnlyGate, OneReset, Blamed;
      ghost var st, m, pace := Now(), Seen(), Pace();
      OtherProceeds(pace, pace);
      AtRest(st, config.retryInterval);
      if !IsSlotActive(slots, slotId) {
        CommandRefl(m, config);
        return Err(InvalidProperty);
      }
      r := session.AskRelease(slotId);
      r := FinishSlotCommand(slotId, r, st, m);
      OtherProceeds(pace, Pace());
    }

    // --------------------------------------------------------- what it all amounts to

    /** Coalescing, pacing, recoveries and failed sends lose nothing: the registry with
        the queue applied is what applying every change in order would give. */
    lemma NothingLost()
      requires Valid()
      ensures ApplyAll(session.ca.programs, pacer.queue) == ApplyAll(map[], pacer.history)
    {
      hide Replays, Foreign, AllBut, ResetsOk, LinkOk, Paced, QueueOk, ApplyAll, Changes, Warned, Relays;
      pacer.NothingLost(map[]);
    }

    /** What the link accepted for the slot since its last connection was given up. */
    ghost function OnTheLink(s: byte): seq<seq<byte>>
      requires session.Valid() && s < |session.transport.slots|
      reads session, session.transport, session.transport.link`writes, session.app, session.ca, session.dates,
        session.mmi
    {
      hide AllSound, AI.RevisionsOk, WorldOk, Written, Taken;
      Taken(session.transport.link.writes[session.transport.cleared[s]..], s)
    }

    /** Whatever happened before, unless a data error of the slot was reported since its
        last connection was given up, and then only if it stands for a write that was cut
        short: an ideal module that puts the link frames together has received a legal
        prefix of what the host said, and once nothing is queued its program list of every
        CA session is exactly the desired programs with a descriptor for the confirmed
        CAIDs. */
    lemma ModuleHoldsDesired(sessionId: u16)
      requires Valid() && sessionId in session.ca.sessions
      ensures session.Valid()
      ensures var s := session.ca.sessions[sessionId];
              && s.slotId < |session.transport.slots| == |session.transport.hist| && s.slotId < |slots|
              && slots[s.slotId].status == SlotStatus.Active
              && (session.transport.hist[s.slotId].swallowed ==> Blemished(delivered + events, s.slotId))
              && (!session.transport.hist[s.slotId].swallowed ==>
                    var heard := Listen(OnTheLink(s.slotId));
                    && heard.legal && heard.received <= session.transport.hist[s.slotId].sent
                    && s.selected == Wanted(session.ca.programs, s.caids)
                    && (session.transport.slots[s.slotId].queue == [] ==>
                          && sessionId in Believes(heard.received)
                          && Believes(heard.received)[sessionId]
                             == Some(ListOf(Wanted(session.ca.programs, s.caids), Confirmed(s)))))
    {
      var s := session.ca.sessions[sessionId];
      hide Replays, Foreign, LinkOk, ResetsOk, Paced, QueueOk, SameLast, Sound, SlotOk, Blemished;
      CaSlot(Now(), sessionId, config.retryInterval);
      assert Sound(s.slotId, session.transport.slots[s.slotId], session.transport.hist[s.slotId], []);
      assert Fine(session.transport.hist[s.slotId]);
      if session.transport.hist[s.slotId].intact {
        OnTheWire(s.slotId, session.transport.slots[s.slotId], session.transport.hist[s.slotId]);
      }
      hide Listen, Written, Believes, ListOf, Wanted, AllSound, OnRecord, Matches;
    }

    /** On every slot, with the same exception: what is on the wire is a legal prefix of
        what was issued, in order, with a read between any two writes; and all of it once
        nothing is queued. */
    lemma WireInOrder(s: byte)
      requires Valid() && s < |slots|
      ensures session.Valid() && s < |session.transport.hist| == |session.transport.slots|
      ensures session.transport.hist[s].swallowed ==> Blemished(delivered + events, s)
      ensures !session.transport.hist[s].swallowed ==>
                var h := session.transport.hist[s];
                var heard := Listen(OnTheLink(s));
                && OnTheLink(s) == Written(h.trace)
                && heard.legal && heard.received <= h.sent && HalfDuplex(h.trace)
                && (session.transport.slots[s].queue == [] ==> heard.received == h.sent)
    {
      hide Replays, Foreign, LinkOk, ResetsOk, Paced, QueueOk, SameLast, Sound, SlotOk, Blemished;
      assert Sound(s, session.transport.slots[s], session.transport.hist[s], []);
      assert Fine(session.transport.hist[s]) && WellIssued(session.transport.hist[s]);
      if !session.transport.hist[s].swallowed {
        OnTheWire(s, session.transport.slots[s], session.transport.hist[s]);
      }
    }

    /** Every report of the session layer has reached the application's log: dialogues, host
        requests and sessions as they are, in order and once, and each of the others, be it
        only as malformed data. */
    lemma ReportsReachLog()
      requires Valid()
      ensures session.events == [] && Passed(delivered + events) == Passed(session.delivered)
    {
      hide AllSound, OnRecord, AI.RevisionsOk, WorldOk, Paced, QueueOk, SameLast, Synchronized, AllOk, LinkOk, ResetsOk;
      assert session.Now().log == session.delivered + session.events == session.delivered;
      assert Relays(delivered + events, session.events, session.Now().log);
      assert Passed(session.events) == [];
    }

    /** No timer is ahead of the clock. */
    lemma SeenInOrder()
      requires Valid()
      ensures TimersPast(Seen().slots, Seen().clock)
    {
    }

    /** The controller's slot invariant in plain terms. */
    lemma SlotInvariant(s: byte)
      requires Valid() && s < |slots|
      ensures |slots| == |session.transport.slots| == |session.transport.hist| && session.events == []
      ensures slots[s].status == SlotStatus.Absent <==> !slots[s].present
      ensures slots[s].status != SlotStatus.Active ==> forall id: u16 :: !OnSlot(session.table, id, s)
      ensures slots[s].status in {SlotStatus.Absent, Present, SlotStatus.Failed} ==>
                Idle(session.transport.slots[s]) && NoTimers(slots[s])
      ensures slots[s].status == CreatingTc ==> (slots[s].createSince.Some? <==> slots[s].commandSince == None)
      ensures session.transport.hist[s].swallowed ==> Blemished(delivered + events, s)
      ensures !session.transport.hist[s].swallowed ==>
                var active := slots[s].status == SlotStatus.Active;
                var info, ca := AI.HasInfo(session.app.sessions, s), HasCaInfo(session.ca.sessions, s);
                && (slots[s].cam == CamStatus.Ready <==> active && info && ca)
                && (slots[s].cam == AppInfoOnly <==> active && info && !ca)
                && (slots[s].cam == CaInfoOnly <==> active && !info && ca)
                && (slots[s].cam == CamStatus.NoInfo <==> !active || (!info && !ca))
      ensures linkSuspended ==>
                && slots[s].status == (if slots[s].present then SlotStatus.Failed else SlotStatus.Absent)
                && slots[s].retryAt == recoveryAt && (recoveryAt.Some? ==> !slots[s].ready)
                && pacer.gate == NotReady
      ensures StatusAfter(delivered + events, s) == slots[s].status
      ensures CamAfter(delivered + events, s) == slots[s].cam && Chained(delivered + events)
    {
      hide Blemished;
      assert SlotOk(slots[s], session.Now(), s) && Fine(session.transport.hist[s]);
    }

    /** Over whole runs: two released changes are more than the interval in force at the
        later one apart, and after a recovery or a reset closed the gate, the next one
        takes a new handshake, its hold and more than two intervals. */
    lemma ReleasesPaced(i: nat, k: nat)
      requires Valid() && i < |pacer.releases|
      ensures k < i ==> pacer.releases[k].at + pacer.releases[i].interval < pacer.releases[i].at
      ensures k < |pacer.closings| && pacer.closings[k].released <= i ==>
                var r := pacer.releases[i];
                && pacer.closings[k].at <= r.opening.armedAt
                && pacer.closings[k].at + r.opening.hold + r.opening.interval + r.interval < r.at
    {
      hide Replays, Foreign, AllBut, LinkOk, ResetsOk, Paced, Reopened, QueueOk, SameLast, Warned, Relays;
      TwoIntervals(pacer.releases, pacer.closings, i, k);
    }

    /** Automatic resets are at least the retry interval apart and none follows a
        failed one: while the last one is not made good, the link stays suspended. */
    lemma NoResetStorm()
      requires Valid() && resets != []
      ensures forall i | 0 <= i < |resets| - 1 ::
                resets[i].ok && resets[i].at + config.retryInterval <= resets[i + 1].at
      ensures var last := resets[|resets| - 1];
              && (!last.ok ==> linkSuspended && recoveryAt == None)
              && (last.ok && linkSuspended ==> recoveryAt == Some(last.at + config.retryInterval))
              && (last.ok && !linkSuspended ==>
                    lastTick.Some? && last.at + config.retryInterval <= lastTick.value)
    {
      hide Replays, Foreign, AllBut, LinkOk, Paced, QueueOk, SameLast, Warned, Relays;
    }
  }
}
