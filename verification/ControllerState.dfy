/** The controller's slots as values: what a settled slot looks like, how events
    replay to it, and which steps keep it settled. */
module ControllerState {
  import opened Basics
  import opened ConditionalAccess
  import opened Device
  import opened Events
  import opened Pacer
  import opened Registry
  import opened SessionSteps
  import opened SessionTable
  import opened Sorting
  import opened Tpdu
  import opened Transport
  import opened Wire
  import opened World
  import Sending
  import AI = ApplicationInformation
  import DT = DateTime

  datatype Config = Config(slotStatusInterval: nat, transportPollInterval: nat, createTcTimeout: nat,
                           responseTimeout: nat, retryInterval: nat)

  datatype CSlot = CSlot(status: SlotStatus, cam: CamStatus, present: bool, ready: bool,
                         createSince: Option<nat>, commandSince: Option<nat>, receivePending: bool,
                         nextPoll: Option<nat>, retryAt: Option<nat>)

  const NEW_SLOT: CSlot := CSlot(SlotStatus.Absent, CamStatus.NoInfo, false, false, None, None, false, None, None)

  function NewSlots(n: nat): (slots: seq<CSlot>)
    ensures |slots| == n
  {
    seq(n, _ => NEW_SLOT)
  }

  // -------------------------------------------------------------------- replaying

  function StatusAfter(log: seq<CaEvent>, slotId: byte): SlotStatus {
    if log == [] then SlotStatus.Absent
    else
      match log[|log| - 1]
      case SlotStatusChanged(s, _, status) => if s == slotId then status else StatusAfter(log[..|log| - 1], slotId)
      case _ => StatusAfter(log[..|log| - 1], slotId)
  }

  function CamAfter(log: seq<CaEvent>, slotId: byte): CamStatus {
    if log == [] then CamStatus.NoInfo
    else
      match log[|log| - 1]
      case CamStatusChanged(s, _, status) => if s == slotId then status else CamAfter(log[..|log| - 1], slotId)
      case _ => CamAfter(log[..|log| - 1], slotId)
  }

  /** Each change starts where the one before ended, really changes something, and
      a slot becomes active only from creating its transport connection. */
  predicate Chained(log: seq<CaEvent>) {
    log == []
    || (Chained(log[..|log| - 1]) && Follows(log[..|log| - 1], log[|log| - 1]))
  }

  predicate Follows(log: seq<CaEvent>, e: CaEvent) {
    match e
    case SlotStatusChanged(s, was, now) =>
      was == StatusAfter(log, s) && was != now && (now == SlotStatus.Active ==> was == CreatingTc)
    case CamStatusChanged(s, was, now) => was == CamAfter(log, s) && was != now
    case _ => true
  }

  /** The reported changes replay to the slots as they are. */
  predicate Replays(log: seq<CaEvent>, slots: seq<CSlot>) {
    && Chained(log) && |slots| < 0x100
    && forall s | 0 <= s < |slots| :: StatusAfter(log, s) == slots[s].status && CamAfter(log, s) == slots[s].cam
  }

  /** What `Chained` means for any two consecutive changes of one slot's status. */
  lemma {:induction false} ChangesLink(log: seq<CaEvent>, i: nat, j: nat)
    requires Chained(log) && i < j < |log|
    requires log[i].SlotStatusChanged? && log[j].SlotStatusChanged? && log[i].slotId == log[j].slotId
    requires forall k | i < k < j :: !(log[k].SlotStatusChanged? && log[k].slotId == log[i].slotId)
    ensures log[j].oldStatus == log[i].newStatus
    ensures log[j].newStatus == SlotStatus.Active ==> log[j].oldStatus == CreatingTc
    decreases |log|
  {
    var front := log[..|log| - 1];
    if j < |log| - 1 {
      ChangesLink(front, i, j);
    } else {
      StatusFrom(front, i);
    }
  }

  lemma {:induction false} StatusFrom(log: seq<CaEvent>, i: nat)
    requires i < |log| && log[i].SlotStatusChanged?
    requires forall k | i < k < |log| :: !(log[k].SlotStatusChanged? && log[k].slotId == log[i].slotId)
    ensures StatusAfter(log, log[i].slotId) == log[i].newStatus
    decreases |log|
  {
    if i < |log| - 1 {
      StatusFrom(log[..|log| - 1], i);
    }
  }

  lemma ReplayAppend(log: seq<CaEvent>, e: CaEvent, slotId: byte)
    ensures StatusAfter(log + [e], slotId)
         == if e.SlotStatusChanged? && e.slotId == slotId then e.newStatus else StatusAfter(log, slotId)
    ensures CamAfter(log + [e], slotId)
         == if e.CamStatusChanged? && e.slotId == slotId then e.newCam else CamAfter(log, slotId)
    ensures Chained(log + [e]) <==> Chained(log) && Follows(log, e)
  {
    assert (log + [e])[..|log|] == log;
  }

  /** Events other than status changes, and slot fields other than the statuses. */
  lemma ReplayOther(log: seq<CaEvent>, slots: seq<CSlot>, slots': seq<CSlot>, e: CaEvent)
    requires Replays(log, slots) && !e.SlotStatusChanged? && !e.CamStatusChanged?
    requires |slots'| == |slots|
    requires forall s | 0 <= s < |slots| :: slots'[s].status == slots[s].status && slots'[s].cam == slots[s].cam
    ensures Replays(log + [e], slots') && Replays(log, slots')
  {
    forall s | 0 <= s < |slots'|
      ensures StatusAfter(log + [e], s) == slots'[s].status && CamAfter(log + [e], s) == slots'[s].cam
    {
      ReplayAppend(log, e, s);
    }
    ReplayAppend(log, e, 0);
  }

  function StatusEvents(slotId: byte, was: SlotStatus, now: SlotStatus): seq<CaEvent> {
    if was == now then [] else [SlotStatusChanged(slotId, was, now)]
  }

  function CamEvents(slotId: byte, was: CamStatus, now: CamStatus): seq<CaEvent> {
    if was == now then [] else [CamStatusChanged(slotId, was, now)]
  }

  lemma ReplayStatus(log: seq<CaEvent>, slots: seq<CSlot>, slotId: byte, now: SlotStatus)
    requires Replays(log, slots) && slotId < |slots|
    requires now == SlotStatus.Active ==> slots[slotId].status in {CreatingTc, SlotStatus.Active}
    ensures Replays(log + StatusEvents(slotId, slots[slotId].status, now),
                    slots[slotId := slots[slotId].(status := now)])
  {
    var was := slots[slotId].status;
    assert StatusAfter(log, slotId) == was;
    if was == now {
      assert slots[slotId := slots[slotId].(status := now)] == slots;
      assert log + [] == log;
    } else {
      var e := SlotStatusChanged(slotId, was, now);
      forall s | 0 <= s < |slots|
        ensures StatusAfter(log + [e], s) == slots[slotId := slots[slotId].(status := now)][s].status
        ensures CamAfter(log + [e], s) == slots[slotId := slots[slotId].(status := now)][s].cam
      {
        ReplayAppend(log, e, s);
      }
      ReplayAppend(log, e, slotId);
    }
  }

  lemma ReplayCam(log: seq<CaEvent>, slots: seq<CSlot>, slotId: byte, now: CamStatus)
    requires Replays(log, slots) && slotId < |slots|
    ensures Replays(log + CamEvents(slotId, slots[slotId].cam, now), slots[slotId := slots[slotId].(cam := now)])
  {
    var was := slots[slotId].cam;
    assert CamAfter(log, slotId) == was;
    if was == now {
      assert slots[slotId := slots[slotId].(cam := now)] == slots;
      assert log + [] == log;
    } else {
      var e := CamStatusChanged(slotId, was, now);
      forall s | 0 <= s < |slots|
        ensures StatusAfter(log + [e], s) == slots[slotId := slots[slotId].(cam := now)][s].status
        ensures CamAfter(log + [e], s) == slots[slotId := slots[slotId].(cam := now)][s].cam
      {
        ReplayAppend(log, e, s);
      }
      ReplayAppend(log, e, slotId);
    }
  }

  // ------------------------------------------------------------- reported errors

  predicate Connected(status: SlotStatus) {
    status in {CreatingTc, SlotStatus.Active}
  }

  /** The slot's connection, or the attempt at one, is reported given up. */
  predicate GivesUp(e: CaEvent, slotId: byte) {
    e.SlotStatusChanged? && e.slotId == slotId && Connected(e.oldStatus) && !Connected(e.newStatus)
  }

  /** A data error of the slot was reported since its last connection was given up. */
  predicate Blemished(log: seq<CaEvent>, slotId: byte) {
    exists i | 0 <= i < |log| :: log[i] == MalformedData(slotId) && Lasts(log, i, slotId)
  }

  /** The connection was not given up after the `i`-th event. */
  predicate Lasts(log: seq<CaEvent>, i: nat, slotId: byte) {
    forall k | i < k < |log| :: !GivesUp(log[k], slotId)
  }

  lemma BlemishNow(log: seq<CaEvent>, slotId: byte)
    ensures Blemished(log + [MalformedData(slotId)], slotId)
  {
    var log' := log + [MalformedData(slotId)];
    assert log'[|log|] == MalformedData(slotId) && Lasts(log', |log|, slotId);
  }

  lemma BlemishKept(log: seq<CaEvent>, e: CaEvent, slotId: byte)
    requires Blemished(log, slotId) && !GivesUp(e, slotId)
    ensures Blemished(log + [e], slotId)
  {
    var i :| 0 <= i < |log| && log[i] == MalformedData(slotId) && Lasts(log, i, slotId);
    var log' := log + [e];
    assert log'[i] == MalformedData(slotId);
    assert forall k | i < k < |log| :: log'[k] == log[k] && !GivesUp(log[k], slotId);
    assert Lasts(log', i, slotId);
  }

  /** No blemish is taken back, except perhaps one slot's. */
  ghost predicate BlemishesBut(log: seq<CaEvent>, log': seq<CaEvent>, but: int) {
    forall s: byte | s as int != but :: Blemished(log, s) ==> Blemished(log', s)
  }

  lemma BlemishesOne(log: seq<CaEvent>, e: CaEvent)
    ensures BlemishesBut(log, log + [e], if e.SlotStatusChanged? then e.slotId as int else -1)
    ensures (forall s: byte :: !GivesUp(e, s)) ==> BlemishesBut(log, log + [e], -1)
  {
    hide Blemished;
    forall s: byte | Blemished(log, s) && !GivesUp(e, s) ensures Blemished(log + [e], s) {
      BlemishKept(log, e, s);
    }
  }

  lemma BlemishesTrans(a: seq<CaEvent>, b: seq<CaEvent>, c: seq<CaEvent>, but: int)
    requires BlemishesBut(a, b, -1) || BlemishesBut(a, b, but)
    requires BlemishesBut(b, c, -1) || BlemishesBut(b, c, but)
    ensures BlemishesBut(a, c, but)
  {
    hide Blemished;
  }

  lemma BlemishesRefl(log: seq<CaEvent>, but: int)
    ensures BlemishesBut(log, log, but)
  {
  }

  /** A failed write that was passed off as malformed data has been reported, or the
      report is still to be heard. */
  ghost predicate Warned(log: seq<CaEvent>, pending: seq<CaEvent>, hist: seq<History>) {
    forall s: byte | s < |hist| && hist[s].swallowed :: Blemished(log, s) || MalformedData(s) in pending
  }

  lemma WarnedLog(log: seq<CaEvent>, log': seq<CaEvent>, pending: seq<CaEvent>, hist: seq<History>, but: int)
    requires Warned(log, pending, hist) && BlemishesBut(log, log', but)
    requires 0 <= but < |hist| ==> !hist[but].swallowed
    ensures Warned(log', pending, hist)
  {
    hide Blemished;
  }

  /** Nothing is passed off on any slot but one, and there only with a report. */
  lemma WarnedStep(log: seq<CaEvent>, pending: seq<CaEvent>, more: seq<CaEvent>, hist: seq<History>,
                   hist': seq<History>, slotId: byte)
    requires Warned(log, pending, hist) && |hist'| == |hist|
    requires forall s | 0 <= s < |hist| && s != slotId as int :: hist'[s] == hist[s]
    requires slotId < |hist| && hist'[slotId].swallowed ==> hist[slotId].swallowed || MalformedData(slotId) in more
    ensures Warned(log, pending + more, hist')
  {
    hide Blemished;
  }

  lemma WarnedSame(log: seq<CaEvent>, pending: seq<CaEvent>, hist: seq<History>, hist': seq<History>)
    requires Warned(log, pending, hist) && |hist'| == |hist|
    requires forall s | 0 <= s < |hist| :: hist'[s].swallowed ==> hist[s].swallowed
    ensures Warned(log, pending, hist')
  {
    hide Blemished;
  }

  /** A report is heard: it leaves the queue and comes into the log. */
  lemma WarnedHeard(log: seq<CaEvent>, log': seq<CaEvent>, e: CaEvent, rest: seq<CaEvent>, hist: seq<History>)
    requires Warned(log, [e] + rest, hist) && BlemishesBut(log, log', -1)
    requires e.MalformedData? ==> log' == log + [e]
    ensures Warned(log', rest, hist)
  {
    hide Blemished;
    if e.MalformedData? {
      BlemishNow(log, e.slotId);
    }
  }

  lemma WarnedNobody(log: seq<CaEvent>, pending: seq<CaEvent>, hist: seq<History>)
    requires forall s | 0 <= s < |hist| :: !hist[s].swallowed
    ensures Warned(log, pending, hist)
  {
  }

  // --------------------------------------------------------------- relayed reports

  /** Reports the controller has nothing to add to or take from. */
  predicate PassesOn(e: CaEvent) {
    || e.SessionOpened? || e.SessionRefused? || e.SessionClosed?
    || e.MmiClose? || e.MmiText? || e.MmiMenuShown? || e.MmiListShown? || e.MmiEnq? || e.HostRequest?
  }

  /** What a report looks like in the application's log, as far as that does not depend on
      the slot: a confirmation or a reply out of turn is shown as malformed data. */
  function Shown(e: CaEvent): seq<CaEvent> {
    if PassesOn(e) then [e]
    else if e.TransportReady? || e.AppInfoReceived? || e.CaInfoReceived? || e.MalformedData?
    then [MalformedData(e.slotId)]
    else []
  }

  function Passed(log: seq<CaEvent>): seq<CaEvent> {
    if log == [] then [] else Passed(log[..|log| - 1]) + Shown(log[|log| - 1])
  }

  lemma {:induction false} PassedConcat(a: seq<CaEvent>, b: seq<CaEvent>)
    ensures Passed(a + b) == Passed(a) + Passed(b)
    decreases |b|
  {
    if b == [] {
      assert a + b == a;
    } else {
      assert (a + b)[..|a + b| - 1] == a + b[..|b| - 1];
      PassedConcat(a, b[..|b| - 1]);
    }
  }

  lemma PassedOne(e: CaEvent)
    ensures Passed([e]) == Shown(e)
  {
    assert [e][..0] == [];
  }

  /** Every report of the session layer is in the application's log, in order and once, or
      still to be heard. */
  predicate Relays(log: seq<CaEvent>, pending: seq<CaEvent>, told: seq<CaEvent>) {
    Passed(log) + Passed(pending) == Passed(told)
  }

  lemma RelaysMore(log: seq<CaEvent>, pending: seq<CaEvent>, told: seq<CaEvent>, more: seq<CaEvent>)
    requires Relays(log, pending, told)
    ensures Relays(log, pending + more, told + more)
  {
    PassedConcat(pending, more);
    PassedConcat(told, more);
    hide Passed;
    Assoc(Passed(log), Passed(pending), Passed(more));
  }

  lemma RelaysHeard(log: seq<CaEvent>, log': seq<CaEvent>, e: CaEvent, rest: seq<CaEvent>, told: seq<CaEvent>)
    requires Relays(log, [e] + rest, told) && Passed(log') == Passed(log) + Passed([e])
    ensures Relays(log', rest, told)
  {
    PassedConcat([e], rest);
    hide Passed;
    Assoc(Passed(log), Passed([e]), Passed(rest));
  }

  lemma RelaysLog(log: seq<CaEvent>, log': seq<CaEvent>, pending: seq<CaEvent>, told: seq<CaEvent>)
    requires Relays(log, pending, told) && Passed(log') == Passed(log)
    ensures Relays(log', pending, told)
  {
  }

  // --------------------------------------------------------------- settled slots

  function CamOf(active: bool, applicationInfo: bool, caInfo: bool): CamStatus {
    if !active || (!applicationInfo && !caInfo) then CamStatus.NoInfo
    else if !caInfo then AppInfoOnly
    else if !applicationInfo then CaInfoOnly
    else CamStatus.Ready
  }

  ghost predicate NoSessions(b: Books, slotId: byte) {
    forall id: u16 :: !OnSlot(b.table, id, slotId)
  }

  predicate NoTimers(c: CSlot) {
    c.createSince == None && c.commandSince == None && !c.receivePending && c.nextPoll == None
  }

  const CREATION: seq<Item> := [Single(CREATE_TC, [])]

  /** A slot's status agrees with its sessions, its transport and its log. A slot
      creating its connection has issued exactly one TT_CREATE_TC, still queued
      while only `commandSince` runs. */
  ghost predicate Settled(c: CSlot, w: World, s: int) {
    && 0 <= s < |w.slots| == |w.hist| < 0x100
    && (c.status == SlotStatus.Absent <==> !c.present)
    && (c.status != SlotStatus.Active ==> NoSessions(w.books, s) && w.hist[s].intact)
    && (c.status in {SlotStatus.Absent, Present, SlotStatus.Failed} ==>
          Idle(w.slots[s]) && NoTimers(c) && w.hist[s].sent == [])
    && (c.status == CreatingTc ==>
          && !c.receivePending && c.nextPoll == None && w.hist[s].sent == CREATION
          && (if c.createSince.Some? then c.commandSince == None && w.slots[s].queue == []
              else c.commandSince.Some? && |w.slots[s].queue| + (if w.slots[s].busy then 1 else 0) == 1))
    && (c.status == SlotStatus.Active ==> c.createSince == None)
  }

  /** What is outstanding is timed. */
  predicate Timed(c: CSlot, t: TransportSlot) {
    && (c.status == CreatingTc && c.createSince == None ==> !t.busy)
    && (c.status == SlotStatus.Active && !Idle(t) ==> c.commandSince.Some?)
  }

  ghost predicate CamExact(c: CSlot, w: World, s: byte) {
    c.cam == CamOf(c.status == SlotStatus.Active, AI.HasInfo(w.books.app, s), HasCaInfo(w.books.ca, s))
  }

  /** The CAM status is what the confirmed information says; after a failed write
      that nobody noticed it may lag behind, but never claims too much. */
  ghost predicate CamSound(c: CSlot, w: World, s: byte) {
    && s < |w.hist|
    && (w.hist[s].intact ==> CamExact(c, w, s))
    && (c.status != SlotStatus.Active ==> c.cam == CamStatus.NoInfo)
    && (c.cam in {AppInfoOnly, CamStatus.Ready} ==> AI.HasInfo(w.books.app, s))
    && (c.cam in {CaInfoOnly, CamStatus.Ready} ==> HasCaInfo(w.books.ca, s))
  }

  ghost predicate SlotOk(c: CSlot, w: World, s: byte) {
    Settled(c, w, s) && CamSound(c, w, s) && Timed(c, w.slots[s])
  }

  /** Nothing about the slot differs between the two worlds, as far as the
      controller can tell. */
  ghost predicate SameView(a: World, b: World, s: int) {
    && 0 <= s < |a.slots| == |b.slots| == |a.hist| == |b.hist| < 0x100
    && b.slots[s] == a.slots[s] && b.hist[s] == a.hist[s]
    && (NoSessions(b.books, s) <==> NoSessions(a.books, s))
    && SameInfo(a.books, b.books, s)
  }

  lemma SettledKept(c: CSlot, a: World, b: World, s: int)
    requires Settled(c, a, s) && SameView(a, b, s)
    ensures Settled(c, b, s)
  {
    hide NoSessions, SameInfo;
  }

  lemma CamKept(c: CSlot, a: World, b: World, s: byte)
    requires CamSound(c, a, s) && SameView(a, b, s)
    ensures CamSound(c, b, s)
  {
    hide NoSessions, AI.HasInfo, HasCaInfo;
  }

  lemma SlotKept(c: CSlot, a: World, b: World, s: byte)
    requires SlotOk(c, a, s) && SameView(a, b, s)
    ensures SlotOk(c, b, s)
  {
    SettledKept(c, a, b, s);
    CamKept(c, a, b, s);
    hide Settled, CamSound, NoSessions, SameInfo;
  }

  /** A step on one slot cannot be seen from any other. */
  lemma OthersView(a: World, b: World, slotId: byte, s: byte)
    requires WorldOk(a) && WorldOk(b) && s != slotId && s < |a.slots|
    requires OnlySlot(a.slots, b.slots, a.hist, b.hist, slotId) && OtherSlotsKept(a.books, b.books, slotId)
    ensures SameView(a, b, s)
  {
    OtherInfo(a, b, slotId, s);
    forall id: u16 ensures OnSlot(b.books.table, id, s) <==> OnSlot(a.books.table, id, s) {
      if Elsewhere(a.books, id, slotId) || Elsewhere(b.books, id, slotId) {
        assert SameAt(a.books, b.books, id);
      }
    }
    hide Agreement, Alternating, Quotas, RegistryOk, SameInfo, Announced;
  }

  /** A slot without sessions has no information. */
  lemma NothingKnown(w: World, s: byte)
    requires WorldOk(w) && NoSessions(w.books, s)
    ensures !AI.HasInfo(w.books.app, s) && !HasCaInfo(w.books.ca, s)
  {
    forall id: u16
      ensures !AI.Informed(w.books.app, s, id) && !CaInformed(w.books.ca, s, id)
    {
      BackedAt(w, id);
      assert !OnSlot(w.books.table, id, s);
    }
  }

  // ------------------------------------------------------------- what slots become

  /** `mark_outstanding`: start the timer of whatever was just handed to the link. */
  function Marked(c: CSlot, t: TransportSlot, now: nat): (c': CSlot)
    ensures c'.status == c.status && c'.cam == c.cam
    ensures c'.createSince == c.createSince || c'.createSince == Some(now)
    ensures c'.commandSince == c.commandSince || c'.commandSince in {None, Some(now)}
  {
    if c.status == CreatingTc && t.busy && c.createSince == None then
      c.(createSince := Some(now), commandSince := None)
    else if c.status == CreatingTc && t.queue != [] && c.commandSince == None then c.(commandSince := Some(now))
    else if c.status == SlotStatus.Active && !Idle(t) && c.commandSince == None then c.(commandSince := Some(now))
    else c
  }

  lemma MarkedOk(c: CSlot, w: World, s: byte, now: nat)
    requires Settled(c, w, s) && CamSound(c, w, s)
    ensures SlotOk(Marked(c, w.slots[s], now), w, s)
  {
    hide NoSessions, AI.HasInfo, HasCaInfo;
  }

  function Cleared(c: CSlot): CSlot {
    c.(createSince := None, commandSince := None, receivePending := false, nextPoll := None, retryAt := None)
  }

  /** A dropped slot is settled in any state without a connection. */
  lemma DroppedOk(c: CSlot, w: World, s: byte)
    requires WorldOk(w) && s < |w.slots| && w.slots[s] == IDLE && w.hist[s] == NOTHING && NoSessions(w.books, s)
    requires c.status in {SlotStatus.Absent, Present, SlotStatus.Failed}
      && (c.status == SlotStatus.Absent <==> !c.present)
    requires c.cam == CamStatus.NoInfo && NoTimers(c)
    ensures SlotOk(c, w, s)
  {
    NothingKnown(w, s);
    hide Agreement, Alternating, Quotas, RegistryOk, NoSessions, AI.HasInfo, HasCaInfo;
  }

  // --------------------------------------------------------------------- deadlines

  /** `saturating_duration_since`. */
  function Age(now: nat, since: nat): nat {
    if now < since then 0 else now - since
  }

  predicate InTime(since: Option<nat>, now: nat, timeout: nat) {
    since.Some? && (Age(now, since.value) < timeout || since.value == now)
  }

  /** No deadline has passed, except of what was started just now. */
  predicate Fresh(c: CSlot, t: TransportSlot, now: nat, config: Config) {
    && (c.status == CreatingTc ==>
          if c.createSince.Some? then InTime(c.createSince, now, config.createTcTimeout)
          else InTime(c.commandSince, now, config.responseTimeout))
    && (c.status == SlotStatus.Active ==>
          && (c.commandSince.Some? ==> InTime(c.commandSince, now, config.responseTimeout))
          && (!Idle(t) ==> c.commandSince.Some?))
  }

  /** Deadlines are not put off: a pending connection or command keeps its start. */
  predicate NotPutOff(c: CSlot, t: TransportSlot, c': CSlot) {
    && (c.status == CreatingTc == c'.status && c.createSince.Some? ==> c'.createSince == c.createSince)
    && (c.status == CreatingTc == c'.status && c'.createSince == None ==> c'.commandSince == c.commandSince)
    && (c.status == SlotStatus.Active == c'.status && !Idle(t) && c.commandSince.Some? ==>
          c'.commandSince == c.commandSince)
  }

  // ------------------------------------------------- what the session layer reports

  ghost function CamNow(c: CSlot, w: World, s: byte): CamStatus {
    CamOf(c.status == SlotStatus.Active, AI.HasInfo(w.books.app, s), HasCaInfo(w.books.ca, s))
  }

  /** What one event of the session layer does to its slot. */
  ghost function Heard(c: CSlot, e: CaEvent, w: World): CSlot {
    if e.TransportReady? then
      if c.status == CreatingTc
      then c.(status := SlotStatus.Active, createSince := None, commandSince := None, nextPoll := None)
      else c
    else if e.AppInfoReceived? || e.CaInfoReceived? then
      if c.status == SlotStatus.Active then c.(cam := CamNow(c, w, e.slotId)) else c
    else if Telling(e) then c.(cam := CamNow(c, w, e.slotId))
    else c
  }

  /** What the application is told: derived status changes come before their cause. */
  ghost function Relayed(c: CSlot, e: CaEvent, w: World): seq<CaEvent> {
    if e.TransportReady? then
      if c.status == CreatingTc then StatusEvents(e.slotId, CreatingTc, SlotStatus.Active) + [e]
      else [MalformedData(e.slotId)]
    else if e.AppInfoReceived? || e.CaInfoReceived? then
      if c.status == SlotStatus.Active then CamEvents(e.slotId, c.cam, CamNow(c, w, e.slotId)) + [e]
      else [MalformedData(e.slotId)]
    else if Telling(e) then CamEvents(e.slotId, c.cam, CamNow(c, w, e.slotId)) + [e]
    else [e]
  }

  /** A handshake on an active slot (re)arms the CA_PMT gate. */
  function Rearmed(gate: Gate, c: CSlot, e: CaEvent, lastTick: Option<nat>, settle: nat): Gate {
    if c.status != SlotStatus.Active || lastTick == None then gate
    else if e.AppInfoReceived? then Armed(lastTick.value + settle)
    else if e.CaInfoReceived? && e.caids != [] then Armed(lastTick.value)
    else gate
  }

  ghost function HeardAll(slots: seq<CSlot>, events: seq<CaEvent>, w: World): (r: seq<CSlot>)
    ensures |r| == |slots|
  {
    if events == [] then slots
    else
      var front, e := HeardAll(slots, events[..|events| - 1], w), events[|events| - 1];
      if e.slotId < |slots| then front[e.slotId := Heard(front[e.slotId], e, w)] else front
  }

  ghost function RelayedAll(slots: seq<CSlot>, events: seq<CaEvent>, w: World): seq<CaEvent> {
    if events == [] then []
    else
      var front, e := HeardAll(slots, events[..|events| - 1], w), events[|events| - 1];
      RelayedAll(slots, events[..|events| - 1], w)
      + if e.slotId < |slots| then Relayed(front[e.slotId], e, w) else []
  }

  ghost function RearmedAll(gate: Gate, slots: seq<CSlot>, events: seq<CaEvent>, w: World,
                            lastTick: Option<nat>, settle: nat): Gate {
    if events == [] then gate
    else
      var front, e := HeardAll(slots, events[..|events| - 1], w), events[|events| - 1];
      var before := RearmedAll(gate, slots, events[..|events| - 1], w, lastTick, settle);
      if e.slotId < |slots| then Rearmed(before, front[e.slotId], e, lastTick, settle) else before
  }

  /** The handshakes that the application is told of arm the gate, and nothing else does. */
  function GateAfter(gate: Gate, told: seq<CaEvent>, lastTick: Option<nat>, settle: nat): Gate {
    if told == [] || lastTick == None then gate
    else
      var e := told[|told| - 1];
      if e.AppInfoReceived? then Armed(lastTick.value + settle)
      else if e.CaInfoReceived? && e.caids != [] then Armed(lastTick.value)
      else GateAfter(gate, told[..|told| - 1], lastTick, settle)
  }

  lemma {:induction false} GateConcat(gate: Gate, a: seq<CaEvent>, b: seq<CaEvent>, lastTick: Option<nat>, settle: nat)
    ensures GateAfter(gate, a + b, lastTick, settle)
         == GateAfter(GateAfter(gate, a, lastTick, settle), b, lastTick, settle)
    decreases |b|
  {
    if b == [] {
      assert a + b == a;
    } else {
      assert (a + b)[..|a + b| - 1] == a + b[..|b| - 1];
      GateConcat(gate, a, b[..|b| - 1], lastTick, settle);
    }
  }

  lemma RelayedGate(gate: Gate, c: CSlot, e: CaEvent, w: World, lastTick: Option<nat>, settle: nat)
    ensures GateAfter(gate, Relayed(c, e, w), lastTick, settle) == Rearmed(gate, c, e, lastTick, settle)
  {
    hide CamNow;
    var status := StatusEvents(e.slotId, CreatingTc, SlotStatus.Active);
    var cam := CamEvents(e.slotId, c.cam, CamNow(c, w, e.slotId));
    GateConcat(gate, status, [e], lastTick, settle);
    GateConcat(gate, cam, [e], lastTick, settle);
    assert GateAfter(gate, status, lastTick, settle) == GateAfter(gate, cam, lastTick, settle) == gate;
  }

  lemma {:induction false} AllRelayedGate(gate: Gate, slots: seq<CSlot>, events: seq<CaEvent>, w: World,
                                          lastTick: Option<nat>, settle: nat)
    ensures RearmedAll(gate, slots, events, w, lastTick, settle)
         == GateAfter(gate, RelayedAll(slots, events, w), lastTick, settle)
    decreases |events|
  {
    if events != [] {
      hide HeardAll, Rearmed, Relayed;
      var before, e := events[..|events| - 1], events[|events| - 1];
      AllRelayedGate(gate, slots, before, w, lastTick, settle);
      if e.slotId < |slots| {
        var front := HeardAll(slots, before, w);
        RelayedGate(RearmedAll(gate, slots, before, w, lastTick, settle), front[e.slotId], e, w, lastTick, settle);
        GateConcat(gate, RelayedAll(slots, before, w), Relayed(front[e.slotId], e, w), lastTick, settle);
      } else {
        assert RelayedAll(slots, events, w) == RelayedAll(slots, before, w) + [] == RelayedAll(slots, before, w);
      }
    }
  }

  lemma HeardAppend(slots: seq<CSlot>, events: seq<CaEvent>, e: CaEvent, w: World, gate: Gate,
                    lastTick: Option<nat>, settle: nat)
    requires e.slotId < |slots|
    ensures var front := HeardAll(slots, events, w);
            && HeardAll(slots, events + [e], w) == front[e.slotId := Heard(front[e.slotId], e, w)]
            && RelayedAll(slots, events + [e], w) == RelayedAll(slots, events, w) + Relayed(front[e.slotId], e, w)
            && RearmedAll(gate, slots, events + [e], w, lastTick, settle)
               == Rearmed(RearmedAll(gate, slots, events, w, lastTick, settle), front[e.slotId], e, lastTick, settle)
  {
    assert (events + [e])[..|events|] == events;
  }

  /** Closings leave the gate alone. */
  lemma {:induction false} RearmedClosings(gate: Gate, slots: seq<CSlot>, events: seq<CaEvent>, w: World,
                                           lastTick: Option<nat>, settle: nat)
    requires AllClosings(events)
    ensures RearmedAll(gate, slots, events, w, lastTick, settle) == gate
    decreases |events|
  {
    if events != [] {
      RearmedClosings(gate, slots, events[..|events| - 1], w, lastTick, settle);
      hide HeardAll;
    }
  }

  predicate Readied(events: seq<CaEvent>, s: byte) {
    exists i | 0 <= i < |events| :: events[i].TransportReady? && events[i].slotId == s
  }

  predicate ToldAbout(events: seq<CaEvent>, s: byte) {
    exists i | 0 <= i < |events| :: Telling(events[i]) && events[i].slotId == s
  }

  /** The CAM status is sound, or an event that corrects it is still to be heard. */
  ghost predicate CamDue(c: CSlot, w: World, s: byte, events: seq<CaEvent>) {
    && s < |w.hist|
    && (CamSound(c, w, s) || (c.status == SlotStatus.Active && ToldAbout(events, s)))
  }

  /** Hearing a slot out: it becomes active exactly when its connection was being
      created and the reply came; nothing else but the CAM status changes, and
      that is sound afterwards. */
  ghost predicate HeardOut(c: CSlot, c': CSlot, w: World, s: byte, events: seq<CaEvent>) {
    && (if c.status == CreatingTc && Readied(events, s)
        then c' == c.(status := SlotStatus.Active, createSince := None, commandSince := None, nextPoll := None,
                      cam := c'.cam)
        else c' == c.(cam := c'.cam))
    && (CamDue(c, w, s, events) && (c.status != SlotStatus.Active ==> NoSessions(w.books, s)) ==>
          CamSound(c', w, s))
  }

  lemma HeardOutStart(c: CSlot, w: World, s: byte)
    ensures HeardOut(c, c, w, s, [])
  {
  }

  lemma ReadiedAppend(events: seq<CaEvent>, e: CaEvent, s: byte)
    ensures Readied(events + [e], s) <==> Readied(events, s) || (e.TransportReady? && e.slotId == s)
    ensures ToldAbout(events + [e], s) <==> ToldAbout(events, s) || (Telling(e) && e.slotId == s)
  {
    var more := events + [e];
    assert forall i | 0 <= i < |events| :: more[i] == events[i];
    assert more[|events|] == e;
  }

  lemma HeardCam(c: CSlot, e: CaEvent, w: World, s: byte)
    requires WorldOk(w) && s < |w.hist| && e.slotId == s
    requires CamSound(c, w, s) || (c.status == SlotStatus.Active && Telling(e))
    requires c.status != SlotStatus.Active ==> NoSessions(w.books, s)
    ensures CamSound(Heard(c, e, w), w, s)
  {
    if c.status != SlotStatus.Active {
      NothingKnown(w, s);
    }
    hide WorldOk, NoSessions, AI.HasInfo, HasCaInfo;
  }

  lemma HeardOutStep(c0: CSlot, c: CSlot, w: World, s: byte, events: seq<CaEvent>, e: CaEvent)
    requires WorldOk(w) && s < |w.hist| && e.slotId == s && HeardOut(c0, c, w, s, events)
    ensures HeardOut(c0, Heard(c, e, w), w, s, events + [e])
  {
    ReadiedAppend(events, e, s);
    var c' := Heard(c, e, w);
    if CamDue(c0, w, s, events + [e]) && (c0.status != SlotStatus.Active ==> NoSessions(w.books, s)) {
      HeardCam(c, e, w, s);
    }
    hide WorldOk, NoSessions, CamSound, Readied, ToldAbout, AI.HasInfo, HasCaInfo;
  }

  lemma HeardOutOther(c0: CSlot, c: CSlot, w: World, s: byte, events: seq<CaEvent>, e: CaEvent)
    requires e.slotId != s && HeardOut(c0, c, w, s, events)
    ensures HeardOut(c0, c, w, s, events + [e])
  {
    ReadiedAppend(events, e, s);
    hide WorldOk, NoSessions, CamSound, Readied, ToldAbout;
  }

  lemma {:induction false} HeardEach(slots: seq<CSlot>, events: seq<CaEvent>, w: World, s: byte)
    requires WorldOk(w) && s < |slots| == |w.hist|
    ensures HeardOut(slots[s], HeardAll(slots, events, w)[s], w, s, events)
    decreases |events|
  {
    hide WorldOk, HeardOut, Heard;
    if events == [] {
      HeardOutStart(slots[s], w, s);
    } else {
      var front, e := events[..|events| - 1], events[|events| - 1];
      HeardEach(slots, front, w, s);
      assert events == front + [e];
      var c := HeardAll(slots, front, w)[s];
      if e.slotId == s {
        HeardOutStep(slots[s], c, w, s, front, e);
      } else {
        HeardOutOther(slots[s], c, w, s, front, e);
      }
    }
  }

  // ---------------------------------------------------------- the whole controller

  /** One automatic CA_RESET: when, and whether it succeeded. */
  datatype ResetRecord = ResetRecord(at: nat, ok: bool)

  datatype State = State(w: World, pending: seq<CaEvent>, slots: seq<CSlot>, log: seq<CaEvent>,
                         releases: seq<Release>, gate: Gate, clock: nat, lastTick: Option<nat>,
                         suspended: bool, recoveryAt: Option<nat>, deferred: bool, resets: seq<ResetRecord>)

  /** Session events not yet heard: each is about an existing slot. */
  predicate Foreign(pending: seq<CaEvent>, slotsNum: nat) {
    forall i | 0 <= i < |pending| :: pending[i].slotId < slotsNum && About(pending[i], pending[i].slotId)
  }

  /** The time of the last tick, as far as the controller knows it. */
  function ClockOf(lastTick: Option<nat>): nat {
    if lastTick == None then 0 else lastTick.value
  }

  /** What holds at every moment. */
  ghost predicate CoreOk(st: State) {
    && 0 < |st.slots| == |st.w.slots| == |st.w.hist| < 0x100
    && Replays(st.log, st.slots)
    && Foreign(st.pending, |st.slots|)
    && st.w.programs == ApplyAll(map[], Changes(st.releases))
    && st.clock <= ClockOf(st.lastTick)
    && (st.lastTick == None ==> st.gate == NotReady)
    && TimersPast(st.slots, st.lastTick)
    && Warned(st.log, st.pending, st.w.hist)
    && Relays(st.log, st.pending, st.w.log)
  }

  /** Nothing was started later than the last tick. */
  predicate Past(since: Option<nat>, clock: Option<nat>) {
    since.Some? ==> clock.Some? && since.value <= clock.value
  }

  predicate TimersPast(slots: seq<CSlot>, clock: Option<nat>) {
    forall s | 0 <= s < |slots| :: Past(slots[s].createSince, clock) && Past(slots[s].commandSince, clock)
  }

  /** Every slot but one is in order. */
  ghost predicate AllBut(slots: seq<CSlot>, w: World, but: int) {
    |slots| == |w.slots| < 0x100 && forall s | 0 <= s < |slots| && s != but :: SlotOk(slots[s], w, s)
  }

  /** On every slot, no write has failed but for short writes nobody noticed: every
      I/O error has led to a recovery. */
  predicate AllFine(w: World) {
    forall s | 0 <= s < |w.hist| :: Fine(w.hist[s])
  }

  ghost predicate AllOk(slots: seq<CSlot>, w: World) {
    AllBut(slots, w, -1) && AllFine(w)
  }

  lemma FineStep<T>(a: World, b: World, s: byte, r: Result<T>)
    requires AllFine(a) && OnlySlot(a.slots, b.slots, a.hist, b.hist, s) && StepBlameless(a, b, s, r) && r.Ok?
    ensures AllFine(b)
  {
  }

  lemma FineControlled<T>(a: World, b: World, s: byte, r: Result<T>)
    requires AllFine(a) && Controlled(a, b, s) && StepFine(a, b, s, r) && r.Ok?
    ensures AllFine(b)
  {
    FineStep(a, b, s, r);
  }

  lemma BlamelessOk<T>(a: World, b: World, s: byte, r: Result<T>)
    requires StepBlameless(a, b, s, r) && r.Ok?
    ensures StepBlameless(a, b, s, Ok(()))
  {
  }

  lemma FineEach(a: World, b: World)
    requires AllFine(a) && EachFine(a.hist, b.hist)
    ensures AllFine(b)
  {
  }

  predicate Resting(slots: seq<CSlot>) {
    forall s | 0 <= s < |slots| :: slots[s].status in {SlotStatus.Absent, SlotStatus.Failed}
  }

  predicate AllAbsent(slots: seq<CSlot>) {
    forall s | 0 <= s < |slots| :: slots[s].status == SlotStatus.Absent
  }

  /** Every module waits for the recovery, if there is to be one; then its flags are to be
      read again. */
  predicate AllOut(slots: seq<CSlot>, recoveryAt: Option<nat>) {
    forall s | 0 <= s < |slots| ::
      && slots[s].status == (if slots[s].present then SlotStatus.Failed else SlotStatus.Absent)
      && slots[s].retryAt == recoveryAt && (recoveryAt.Some? ==> !slots[s].ready)
  }

  /** While the link is suspended, no slot has a connection and the gate is closed. */
  predicate LinkOk(st: State) {
    && (st.suspended ==> st.gate == NotReady && Resting(st.slots) && AllOut(st.slots, st.recoveryAt))
    && (st.recoveryAt.Some? ==> st.suspended)
    && (st.deferred ==> st.lastTick == None && !st.suspended)
    && (st.lastTick == None ==> AllAbsent(st.slots))
  }

  /** After a failed automatic reset none follows; after a successful one, the next
      comes at least the retry interval later. */
  predicate Calm(resets: seq<ResetRecord>, retry: nat) {
    forall i, j | 0 <= i < j < |resets| :: resets[i].ok && resets[i].at + retry <= resets[j].at
  }

  /** The moment allows another automatic reset. */
  predicate MayReset(resets: seq<ResetRecord>, retry: nat, now: nat) {
    && Calm(resets, retry)
    && (resets != [] ==> resets[|resets| - 1].ok && resets[|resets| - 1].at + retry <= now)
  }

  predicate ResetsOk(st: State, retry: nat) {
    if st.suspended then
      && Calm(st.resets, retry)
      && (st.resets == [] ==> st.recoveryAt == None)
      && (st.resets != [] ==>
            var last := st.resets[|st.resets| - 1];
            st.recoveryAt == if last.ok then Some(last.at + retry) else None)
    else if st.lastTick == None then st.resets == []
    else MayReset(st.resets, retry, st.lastTick.value)
  }

  /** What holds between the public calls. */
  ghost predicate StateOk(st: State, retry: nat) {
    && CoreOk(st)
    && st.pending == []
    && Synchronized(st.w)
    && AllOk(st.slots, st.w)
    && LinkOk(st)
    && ResetsOk(st, retry)
  }

  lemma Assoc<T>(a: seq<T>, b: seq<T>, c: seq<T>)
    ensures a + (b + c) == (a + b) + c
  {
  }

  lemma ReplayFields(log: seq<CaEvent>, slots: seq<CSlot>, s: nat, c: CSlot)
    requires Replays(log, slots) && s < |slots| && c.status == slots[s].status && c.cam == slots[s].cam
    ensures Replays(log, slots[s := c])
  {
  }

  lemma ReplayPlain(log: seq<CaEvent>, slots: seq<CSlot>, e: CaEvent)
    requires Replays(log, slots) && !e.SlotStatusChanged? && !e.CamStatusChanged?
    ensures Replays(log + [e], slots)
  {
    ReplayOther(log, slots, slots, e);
  }

  lemma NewState(st: State, retry: nat)
    requires WorldOk(st.w) && 0 < |st.w.slots| && st.w.books.table == [] && st.w.programs == map[]
    requires forall s | 0 <= s < |st.w.slots| :: st.w.slots[s] == IDLE && st.w.hist[s] == NOTHING
    requires st == State(st.w, [], NewSlots(|st.w.slots|), [], [], NotReady, 0, None, false, None, false, [])
    requires st.w.log == []
    ensures StateOk(st, retry)
  {
    WorldSizes(st.w);
    assert ApplyAll(map[], Changes([])) == map[];
    forall s | 0 <= s < |st.slots| ensures SlotOk(st.slots[s], st.w, s) {
      DroppedOk(st.slots[s], st.w, s);
    }
    forall id | id in st.w.books.ca ensures false {
      BackedAt(st.w, id);
    }
  }

  lemma HeardNothing(slots: seq<CSlot>, w: World, gate: Gate, lastTick: Option<nat>, settle: nat)
    ensures HeardAll(slots, [], w) == slots && RelayedAll(slots, [], w) == []
    ensures RearmedAll(gate, slots, [], w, lastTick, settle) == gate
  {
  }

  lemma ForeignAt(pending: seq<CaEvent>, slotsNum: nat, i: nat)
    requires Foreign(pending, slotsNum) && i < |pending|
    ensures pending[i].slotId < slotsNum && About(pending[i], pending[i].slotId)
  {
  }

  lemma ForeignTail(pending: seq<CaEvent>, slotsNum: nat)
    requires Foreign(pending, slotsNum) && pending != []
    ensures Foreign(pending[1..], slotsNum)
  {
  }

  // ---------------------------------------------------------------- dropping slots

  ghost predicate Emptied(w: World, s: int) {
    && 0 <= s < |w.slots| == |w.hist| < 0x100
    && w.slots[s] == IDLE && w.hist[s] == NOTHING && NoSessions(w.books, s)
  }

  /** The first `k` slots have been dropped and their timers cleared; no slot's CAM
      status can go wrong by it. */
  ghost predicate Dropping(slots0: seq<CSlot>, w0: World, slots: seq<CSlot>, w: World, pending: seq<CaEvent>, k: nat) {
    && |slots0| == |slots| == |w0.slots| == |w.slots| == |w.hist| == |w0.hist| < 0x100 && k <= |slots|
    && (forall s | 0 <= s < k ::
          && Emptied(w, s) && slots[s] == Cleared(slots0[s])
          && (CamSound(slots0[s], w0, s) ==> CamDue(slots[s], w, s, pending)))
    && (forall s | k <= s < |slots| ::
          slots[s] == slots0[s] && (CamSound(slots0[s], w0, s) ==> CamSound(slots[s], w, s)))
  }

  lemma DroppingStart(slots: seq<CSlot>, w: World, pending: seq<CaEvent>)
    requires |slots| == |w.slots| == |w.hist| < 0x100
    ensures Dropping(slots, w, slots, w, pending, 0)
  {
    hide CamSound;
  }

  lemma EmptiedClean(w: World, s: int)
    requires Emptied(w, s)
    ensures 0 <= s < |w.hist| && !w.hist[s].swallowed
  {
  }

  lemma EmptiedKept(a: World, b: World, s: int)
    requires Emptied(a, s) && SameView(a, b, s)
    ensures Emptied(b, s)
  {
    hide NoSessions, SameInfo;
  }

  lemma CamDueKept(c: CSlot, a: World, b: World, s: byte, pending: seq<CaEvent>, more: seq<CaEvent>)
    requires CamDue(c, a, s, pending) && SameView(a, b, s)
    ensures CamDue(c, b, s, pending + more)
  {
    if CamSound(c, a, s) {
      CamKept(c, a, b, s);
    } else {
      ToldMore(pending, more, s);
    }
    hide CamSound, NoSessions, SameInfo;
  }

  lemma ToldMore(pending: seq<CaEvent>, more: seq<CaEvent>, s: byte)
    requires ToldAbout(pending, s) || ToldAbout(more, s)
    ensures ToldAbout(pending + more, s)
  {
    hide Telling;
    var all := pending + more;
    if ToldAbout(pending, s) {
      var i :| 0 <= i < |pending| && Telling(pending[i]) && pending[i].slotId == s;
      assert all[i] == pending[i];
    } else {
      var i :| 0 <= i < |more| && Telling(more[i]) && more[i].slotId == s;
      assert all[|pending| + i] == more[i];
    }
  }

  lemma DropKeepsCam(c: CSlot, a: World, b: World, s: byte, pending: seq<CaEvent>, more: seq<CaEvent>)
    requires WorldOk(b) && SlotDropped(a, b, s) && CamSound(c, a, s) && more == b.log[|a.log|..]
    ensures CamDue(Cleared(c), b, s, pending + more)
  {
    assert forall id: u16 :: !OnSlot(b.books.table, id, s);
    NothingKnown(b, s);
    if Told(more) {
      var i :| 0 <= i < |more| && Telling(more[i]);
      assert more[i] == b.log[|a.log| + i] && About(more[i], s);
      assert ToldAbout(more, s);
      ToldMore(pending, more, s);
    }
    hide WorldOk, AI.HasInfo, HasCaInfo, Telling, OtherSlotsKept;
  }

  lemma DroppingStep(slots0: seq<CSlot>, w0: World, slots: seq<CSlot>, a: World, b: World,
                     pending: seq<CaEvent>, k: nat)
    requires k < |slots| && WorldOk(a) && WorldOk(b)
    requires Dropping(slots0, w0, slots, a, pending, k) && SlotDropped(a, b, k)
    ensures Dropping(slots0, w0, slots[k := Cleared(slots[k])], b, pending + b.log[|a.log|..], k + 1)
  {
    hide WorldOk, CamSound, CamDue, OtherSlotsKept, Told, NoLoss, Spoke;
    var more := b.log[|a.log|..];
    forall s | 0 <= s < |slots| && s != k ensures SameView(a, b, s) {
      OthersView(a, b, k, s);
    }
    forall s | 0 <= s < k ensures Emptied(b, s) {
      EmptiedKept(a, b, s);
    }
    forall s | 0 <= s < k && CamSound(slots0[s], w0, s) ensures CamDue(slots[s], b, s, pending + more) {
      CamDueKept(slots[s], a, b, s, pending, more);
    }
    if CamSound(slots0[k], w0, k) {
      DropKeepsCam(slots[k], a, b, k, pending, more);
    }
    forall s | k < s < |slots| && CamSound(slots0[s], w0, s) ensures CamSound(slots[s], b, s) {
      CamKept(slots[s], a, b, s);
    }
  }

  /** Session events about one slot, appended. */
  lemma PendingGrows(delivered: seq<CaEvent>, events: seq<CaEvent>, events': seq<CaEvent>, slotId: byte, slotsNum: nat)
    requires Spoke(delivered + events, delivered + events', slotId) && slotId < slotsNum
    requires Foreign(events, slotsNum)
    ensures events' == events + (delivered + events')[|delivered + events|..]
    ensures Foreign(events', slotsNum)
  {
    var log, log' := delivered + events, delivered + events';
    assert |log'| == |delivered| + |events'|;
    assert events == log[|delivered|..] && events' == log'[|delivered|..];
    assert log'[..|log|] == log;
    forall i | 0 <= i < |events'| ensures events'[i].slotId < slotsNum && About(events'[i], events'[i].slotId) {
      assert events'[i] == log'[|delivered| + i];
      if i < |events| {
        assert events'[i] == log[|delivered| + i] == events[i];
      }
    }
  }

  predicate AllClosings(events: seq<CaEvent>) {
    forall i | 0 <= i < |events| :: events[i].SessionClosed?
  }

  /** The result of dropping everything: nothing is left of any connection. */
  ghost predicate DroppedAll(slots0: seq<CSlot>, w0: World, pending0: seq<CaEvent>, slots: seq<CSlot>, w: World) {
    && |slots0| == |slots| == |w.slots| == |w.hist| < 0x100
    && forall s | 0 <= s < |slots| ::
         && Emptied(w, s) && NoTimers(slots[s]) && slots[s].retryAt == None
         && slots[s].present == slots0[s].present && slots[s].ready == slots0[s].ready
         && (pending0 == [] ==> slots[s].status == slots0[s].status)
         && (CamSound(slots0[s], w0, s) ==> CamSound(slots[s], w, s))
  }

  lemma DroppingEnd(slots0: seq<CSlot>, w0: World, pending0: seq<CaEvent>, slots: seq<CSlot>, w: World,
                    pending: seq<CaEvent>)
    requires WorldOk(w) && Dropping(slots0, w0, slots, w, pending, |slots|)
    requires pending0 == [] ==> AllClosings(pending)
    ensures DroppedAll(slots0, w0, pending0, HeardAll(slots, pending, w), w)
    ensures Synchronized(w)
  {
    var after := HeardAll(slots, pending, w);
    hide WorldOk, CamSound, CamDue, HeardAll;
    forall s | 0 <= s < |slots|
      ensures Emptied(w, s) && NoTimers(after[s]) && after[s].retryAt == None
      ensures after[s].present == slots0[s].present && after[s].ready == slots0[s].ready
      ensures pending0 == [] ==> after[s].status == slots0[s].status
      ensures CamSound(slots0[s], w0, s) ==> CamSound(after[s], w, s)
    {
      HeardEach(slots, pending, w, s);
    }
    NobodyLeft(w);
  }

  lemma NobodyLeft(w: World)
    requires WorldOk(w) && forall s | 0 <= s < |w.slots| :: Emptied(w, s)
    ensures Synchronized(w)
  {
    WorldSizes(w);
    forall id | id in w.books.ca ensures false {
      BackedAt(w, id);
      assert w.books.table[id - 1].value.slotId < |w.slots|;
      assert Emptied(w, w.books.ca[id].slotId);
      assert OnSlot(w.books.table, id, w.books.ca[id].slotId);
    }
  }

  // --------------------------------------------------------------------- recovery

  function FailureEvents(slots: seq<CSlot>, failed: Option<byte>, reason: SlotFailure, k: nat): seq<CaEvent>
    requires k <= |slots| < 0x100
  {
    if failed.Some? then [SlotFailed(failed.value, reason)]
    else if k == 0 then []
    else FailureEvents(slots, failed, reason, k - 1)
         + (if slots[k - 1].status != SlotStatus.Absent then [SlotFailed(k - 1, reason)] else [])
  }

  /** The slot was reported as the one that failed, and why. */
  predicate Blamed(events: seq<CaEvent>, events': seq<CaEvent>, s: byte, reason: SlotFailure) {
    exists i :: |events| <= i < |events'| && events'[i] == SlotFailed(s, reason)
  }

  lemma BlamedFirst(events: seq<CaEvent>, events': seq<CaEvent>, s: byte, reason: SlotFailure)
    requires events + [SlotFailed(s, reason)] <= events'
    ensures Blamed(events, events', s, reason)
  {
    assert events'[|events|] == SlotFailed(s, reason);
  }

  lemma BlameOne(events: seq<CaEvent>, events': seq<CaEvent>, slots: seq<CSlot>, s: byte, reason: SlotFailure)
    requires |slots| < 0x100 && events' == events + FailureEvents(slots, Some(s), reason, |slots|)
    ensures Blamed(events, events', s, reason)
  {
    BlamedFirst(events, events', s, reason);
  }

  /** Every module was reported as failed, and why. */
  predicate AllBlamed(slots: seq<CSlot>, events: seq<CaEvent>, events': seq<CaEvent>, reason: SlotFailure) {
    forall s: byte | s < |slots| && slots[s].present && slots[s].status != SlotStatus.Absent ::
      Blamed(events, events', s, reason)
  }

  lemma {:induction false} BlameEach(events: seq<CaEvent>, events': seq<CaEvent>, slots: seq<CSlot>,
                                     reason: SlotFailure, k: nat)
    requires k <= |slots| < 0x100 && events + FailureEvents(slots, None, reason, k) <= events'
    ensures AllBlamed(slots[..k], events, events', reason)
    decreases k
  {
    if k > 0 {
      var first, last := FailureEvents(slots, None, reason, k - 1), slots[k - 1].status != SlotStatus.Absent;
      assert events + first + (if last then [SlotFailed(k - 1, reason)] else []) <= events';
      BlameEach(events, events', slots, reason, k - 1);
      if last {
        assert events'[|events| + |first|] == SlotFailed(k - 1, reason);
      }
      hide Blamed, FailureEvents;
      forall s: byte | s < k && slots[s].present && slots[s].status != SlotStatus.Absent
        ensures Blamed(events, events', s, reason)
      {
        if s < k - 1 {
          assert slots[..k - 1][s] == slots[s];
        } else {
          BlamedAt(events, events', |events| + |first|, s, reason);
        }
      }
    }
  }

  lemma BlamedAt(events: seq<CaEvent>, events': seq<CaEvent>, i: nat, s: byte, reason: SlotFailure)
    requires |events| <= i < |events'| && events'[i] == SlotFailed(s, reason)
    ensures Blamed(events, events', s, reason)
  {
  }

  lemma AllBlamedIn(slots: seq<CSlot>, a: seq<CaEvent>, b: seq<CaEvent>, c: seq<CaEvent>, d: seq<CaEvent>,
                    reason: SlotFailure)
    requires AllBlamed(slots, b, c, reason) && a <= b <= c <= d
    ensures AllBlamed(slots, a, d, reason)
  {
    forall s: byte | s < |slots| && slots[s].present && slots[s].status != SlotStatus.Absent
      ensures Blamed(a, d, s, reason)
    {
      BlamedStill(b, c, d, s, reason);
      BlamedSince(a, b, d, s, reason);
    }
    hide Blamed;
  }

  lemma BlamedSince(a: seq<CaEvent>, b: seq<CaEvent>, c: seq<CaEvent>, s: byte, reason: SlotFailure)
    requires a <= b <= c && Blamed(b, c, s, reason)
    ensures Blamed(a, c, s, reason)
  {
  }

  lemma BlamedStill(a: seq<CaEvent>, b: seq<CaEvent>, c: seq<CaEvent>, s: byte, reason: SlotFailure)
    requires a <= b <= c && Blamed(a, b, s, reason)
    ensures Blamed(a, c, s, reason)
  {
    var i :| |a| <= i < |b| && b[i] == SlotFailed(s, reason);
    assert c[i] == b[i];
  }

  lemma LogGrows(delivered: seq<CaEvent>, events: seq<CaEvent>, events': seq<CaEvent>)
    requires events <= events'
    ensures delivered + events <= delivered + events'
  {
  }

  lemma GrownBehind(delivered: seq<CaEvent>, events: seq<CaEvent>, events': seq<CaEvent>)
    requires delivered + events <= delivered + events'
    ensures events <= events'
  {
    assert (delivered + events')[|delivered|..] == events';
    assert (delivered + events)[|delivered|..] == events;
  }

  /** A slot after a global reset: out of the link, present or not. */
  function Unseated(c: CSlot, retryAt: Option<nat>, status: SlotStatus): CSlot {
    c.(ready := false, retryAt := retryAt, cam := CamStatus.NoInfo,
       status := if c.present then status else SlotStatus.Absent)
  }

  /** A present slot after a failed reset. */
  function ResetLost(c: CSlot): CSlot {
    if c.present then c.(retryAt := None, status := SlotStatus.Failed) else c
  }

  lemma DroppedFacts(a: World, b: World, slotId: byte)
    requires SlotDropped(a, b, slotId)
    ensures |a.slots| == |b.slots| == |a.hist| == |b.hist| && b.programs == a.programs && a.log <= b.log
    ensures Spoke(a.log, b.log, slotId)
  {
  }

  lemma CoreSizes(st: State)
    requires CoreOk(st)
    ensures 0 < |st.slots| == |st.w.slots| == |st.w.hist| < 0x100
  {
  }

  lemma DroppedSizes(slots0: seq<CSlot>, w0: World, pending0: seq<CaEvent>, slots: seq<CSlot>, w: World)
    requires DroppedAll(slots0, w0, pending0, slots, w)
    ensures |slots0| == |slots| == |w.slots|
  {
  }

  /** After dropping everything there is nothing left to warn of. */
  lemma DroppedWarned(slots0: seq<CSlot>, w0: World, pending0: seq<CaEvent>, slots: seq<CSlot>, w: World,
                      log: seq<CaEvent>, pending: seq<CaEvent>)
    requires DroppedAll(slots0, w0, pending0, slots, w)
    ensures Warned(log, pending, w.hist)
  {
    forall s | 0 <= s < |w.hist| ensures !w.hist[s].swallowed {
      assert Emptied(w, s);
    }
    WarnedNobody(log, pending, w.hist);
  }

  lemma NoClosings()
    ensures AllClosings([])
  {
  }

  lemma ClosingsGrow(a: World, b: World, slotId: byte, pending: seq<CaEvent>)
    requires SlotDropped(a, b, slotId)
    ensures AllClosings(pending) ==> AllClosings(pending + b.log[|a.log|..])
  {
    var more := b.log[|a.log|..];
    if AllClosings(pending) {
      forall i | 0 <= i < |pending + more| ensures (pending + more)[i].SessionClosed? {
        if i >= |pending| {
          assert (pending + more)[i] == b.log[|a.log| + i - |pending|];
        }
      }
    }
  }

  /** Dropped slots without a CAM status are in order in any resting state. */
  lemma RestingOk(slots: seq<CSlot>, w: World)
    requires WorldOk(w) && |slots| == |w.slots| < 0x100
    requires forall s | 0 <= s < |slots| ::
               && Emptied(w, s) && NoTimers(slots[s]) && slots[s].cam == CamStatus.NoInfo
               && slots[s].status in {SlotStatus.Absent, Present, SlotStatus.Failed}
               && (slots[s].status == SlotStatus.Absent <==> !slots[s].present)
    ensures AllOk(slots, w)
  {
    WorldSizes(w);
    hide WorldOk;
    forall s | 0 <= s < |slots| ensures SlotOk(slots[s], w, s) {
      DroppedOk(slots[s], w, s);
    }
    forall s | 0 <= s < |w.hist| ensures Fine(w.hist[s]) {
      assert Emptied(w, s);
    }
  }

  lemma CalmStep(resets: seq<ResetRecord>, retry: nat, now: nat, ok: bool)
    requires MayReset(resets, retry, now)
    ensures Calm(resets + [ResetRecord(now, ok)], retry)
  {
    var more := resets + [ResetRecord(now, ok)];
    forall i, j | 0 <= i < j < |more| ensures more[i].ok && more[i].at + retry <= more[j].at {
      if j == |resets| {
        if i < |resets| - 1 {
          assert resets[i].ok && resets[i].at + retry <= resets[|resets| - 1].at;
        }
      }
    }
  }

  lemma RecoveredOk(slots0: seq<CSlot>, w0: World, pending0: seq<CaEvent>, dropped: seq<CSlot>, st: State,
                    retryAt: Option<nat>, resets0: seq<ResetRecord>, retry: nat, now: nat)
    requires WorldOk(st.w) && Synchronized(st.w) && DroppedAll(slots0, w0, pending0, dropped, st.w)
    requires CoreOk(st) && st.pending == [] && |st.slots| == |dropped|
    requires retryAt.Some? ==> forall s | 0 <= s < |dropped| ::
      st.slots[s] == Unseated(dropped[s], retryAt, SlotStatus.Failed)
    requires retryAt == None ==>
               forall s | 0 <= s < |dropped| ::
                 st.slots[s] == ResetLost(Unseated(dropped[s], retryAt, SlotStatus.Failed))
    requires st.suspended && st.gate == NotReady && !st.deferred && st.lastTick == Some(now)
    requires MayReset(resets0, retry, now) && st.recoveryAt == retryAt
    requires st.resets == resets0 + [ResetRecord(now, retryAt.Some?)]
    requires retryAt.Some? ==> retryAt == Some(now + retry)
    ensures StateOk(st, retry)
    ensures forall s | 0 <= s < |dropped| :: st.slots[s].present == slots0[s].present
  {
    hide WorldOk, Synchronized, CamSound, Replays, Foreign, ApplyAll, Emptied, Calm;
    CalmStep(resets0, retry, now, retryAt.Some?);
    RestingOk(st.slots, st.w);
  }

  /** Between the public calls nothing from the session layer is waiting. */
  lemma AtRest(st: State, retry: nat)
    requires StateOk(st, retry)
    ensures CoreOk(st) && st.pending == [] && Synchronized(st.w) && AllOk(st.slots, st.w)
    ensures LinkOk(st) && ResetsOk(st, retry)
    ensures 0 < |st.slots| == |st.w.slots| == |st.w.hist| < 0x100
  {
  }

  lemma SlotAt(slots: seq<CSlot>, w: World, but: int, s: byte)
    requires AllBut(slots, w, but) && s < |slots| && s != but
    ensures SlotOk(slots[s], w, s)
  {
  }

  lemma RestartedOk(slots0: seq<CSlot>, w0: World, dropped: seq<CSlot>, st: State, retry: nat)
    requires WorldOk(st.w) && Synchronized(st.w) && DroppedAll(slots0, w0, [], dropped, st.w) && AllOk(slots0, w0)
    requires CoreOk(st) && st.pending == [] && |st.slots| == |dropped|
    requires forall s | 0 <= s < |dropped| :: st.slots[s] == Unseated(dropped[s], None, Present)
    requires !st.suspended && st.gate == NotReady && !st.deferred && st.recoveryAt == None && st.resets == []
    requires st.lastTick == None ==> AllAbsent(slots0)
    ensures StateOk(st, retry)
    ensures forall s | 0 <= s < |dropped| :: st.slots[s].present == slots0[s].present
  {
    forall s | 0 <= s < |dropped| && st.lastTick == None ensures st.slots[s].status == SlotStatus.Absent {
      SlotAt(slots0, w0, -1, s);
      assert slots0[s].status == SlotStatus.Absent;
    }
    hide WorldOk, Synchronized, CamSound, Replays, Foreign, ApplyAll, Emptied, AllBut;
    RestingOk(st.slots, st.w);
  }

  lemma LostOk(slots0: seq<CSlot>, w0: World, dropped: seq<CSlot>, st: State, retry: nat)
    requires WorldOk(st.w) && Synchronized(st.w) && DroppedAll(slots0, w0, [], dropped, st.w) && AllOk(slots0, w0)
    requires CoreOk(st) && st.pending == [] && |st.slots| == |dropped|
    requires forall s | 0 <= s < |dropped| :: st.slots[s] == ResetLost(dropped[s])
    requires st.suspended && st.gate == NotReady && !st.deferred && st.recoveryAt == None && st.resets == []
    requires st.lastTick == None ==> AllAbsent(slots0)
    ensures StateOk(st, retry)
    ensures forall s | 0 <= s < |dropped| ::
              && st.slots[s].present == slots0[s].present
              && st.slots[s].status == if slots0[s].present then SlotStatus.Failed else SlotStatus.Absent
  {
    forall s | 0 <= s < |dropped|
      ensures st.slots[s].cam == CamStatus.NoInfo
      ensures slots0[s].status == SlotStatus.Absent <==> !slots0[s].present
    {
      SlotAt(slots0, w0, -1, s);
      assert Emptied(st.w, s) && CamSound(dropped[s], st.w, s);
      NothingKnown(st.w, s);
    }
    hide WorldOk, Synchronized, CamSound, Replays, Foreign, ApplyAll, Emptied, AllBut;
    RestingOk(st.slots, st.w);
  }

  // --------------------------------------------------------------- received frames

  /** Only the slot's own traffic moved: other slots cannot tell. */
  lemma ControlledOthers(slots: seq<CSlot>, a: World, b: World, s: byte)
    requires WorldOk(a) && WorldOk(b) && Controlled(a, b, s) && AllBut(slots, a, s)
    ensures AllBut(slots, b, s)
  {
    StepOthers(slots, a, b, s);
  }

  lemma StepOthers(slots: seq<CSlot>, a: World, b: World, s: byte)
    requires WorldOk(a) && WorldOk(b) && SlotStep(a, b, s) && AllBut(slots, a, s)
    ensures AllBut(slots, b, s)
  {
    StepSizes(a, b, s);
    hide WorldOk, SlotOk, StillIssued, InfoTold, Spoke, OtherSlotsKept;
    forall k | 0 <= k < |slots| && k != s ensures SlotOk(slots[k], b, k) {
      OthersView(a, b, s, k);
      SlotKept(slots[k], a, b, k);
    }
  }

  /** Traffic on an active slot leaves it settled. */
  lemma ControlledActive(c: CSlot, a: World, b: World, s: byte)
    requires c.status == SlotStatus.Active && Settled(c, a, s) && CamSound(c, a, s) && Controlled(a, b, s)
    requires |a.slots| < 0x100
    ensures Settled(c, b, s) && CamSound(c, b, s)
  {
    StepSizes(a, b, s);
    hide SlotStep, NoSessions, AI.HasInfo, HasCaInfo;
  }

  lemma ReceiveQueue(t: TransportSlot, frame: seq<byte>, slotsNum: byte)
    requires FrameSlotId(frame, slotsNum).Some?
    ensures var after := Receive(t, frame, slotsNum).0;
            !after.busy && after.queue == t.queue
  {
    hide Parse;
  }

  /** If the slot's information changed, an event that tells is pending. */
  lemma CamTold(c: CSlot, a: World, b: World, s: byte)
    requires c.status == SlotStatus.Active && CamSound(c, a, s) && SlotStep(a, b, s)
    ensures CamDue(c, b, s, b.log[|a.log|..])
  {
    var more := b.log[|a.log|..];
    StepSizes(a, b, s);
    if Told(more) {
      var i :| 0 <= i < |more| && Telling(more[i]);
      assert more[i] == b.log[|a.log| + i] && About(b.log[|a.log| + i], s);
      assert ToldAbout(more, s);
    } else {
      hide AI.HasInfo, HasCaInfo, Told, OtherSlotsKept;
    }
  }

  /** What a frame that carries no accepted SPDU does to its slot's transport. */
  lemma ReceivedTraffic(a: World, b: World, s: byte, frame: seq<byte>)
    requires FrameHandled(a, b, s, frame, false, true)
    ensures s < |a.slots| == |b.slots| == |a.hist| == |b.hist| < 0x100
    ensures b.books == a.books && b.hist[s].sent == a.hist[s].sent && b.hist[s].intact == a.hist[s].intact
    ensures if b.slots[s].busy then a.slots[s].queue != [] && b.slots[s].queue == a.slots[s].queue[1..]
            else b.slots[s].queue == a.slots[s].queue
  {
    ReceiveQueue(a.slots[s], frame, |a.slots|);
    hide Receive, Parse, FrameSlotId, SpduHandled;
  }

  /** A received frame leaves a slot without a connection as it was; a slot that is
      creating one may at most get its TT_CREATE_TC out. */
  lemma ReceivedIdle(c: CSlot, a: World, b: World, s: byte, frame: seq<byte>)
    requires c.status != SlotStatus.Active && SlotOk(c, a, s) && FrameHandled(a, b, s, frame, false, true)
    ensures Settled(c, b, s) && CamSound(c, b, s)
  {
    ReceivedTraffic(a, b, s, frame);
    hide FrameHandled, AI.HasInfo, HasCaInfo, NoSessions;
  }

  lemma ReceivedOk(c: CSlot, a: World, b: World, s: byte, frame: seq<byte>)
    requires SlotOk(c, a, s) && FrameHandled(a, b, s, frame, c.status == SlotStatus.Active, true)
    requires WorldOk(b) && SlotStep(a, b, s)
    ensures Settled(c, b, s) && CamDue(c, b, s, b.log[|a.log|..])
  {
    if c.status == SlotStatus.Active {
      CamTold(c, a, b, s);
      StepSizes(a, b, s);
    } else {
      ReceivedIdle(c, a, b, s, frame);
    }
    hide FrameHandled, SlotStep, WorldOk, CamSound, NoSessions;
  }

  /** An idle slot cannot make a receive fail. */
  lemma IdleReceives(a: World, b: World, s: byte, frame: seq<byte>)
    requires FrameHandled(a, b, s, frame, false, false)
    ensures s < |a.slots| && !Idle(a.slots[s])
  {
    ReceiveQueue(a.slots[s], frame, |a.slots|);
    hide Receive, Parse, FrameSlotId, Processed;
  }

  lemma HeardSettled(c: CSlot, c': CSlot, w: World, s: byte, events: seq<CaEvent>)
    requires Settled(c, w, s) && HeardOut(c, c', w, s, events) && CamDue(c, w, s, events)
    ensures Settled(c', w, s) && CamSound(c', w, s)
    ensures Timed(c, w.slots[s]) && !Readied(events, s) ==> Timed(c', w.slots[s])
  {
    hide NoSessions, CamSound, Readied;
  }

  predicate AllAbout(events: seq<CaEvent>, s: byte) {
    forall i | 0 <= i < |events| :: events[i].slotId == s
  }

  /** No connection attempt starts by receiving, and one under way keeps its timers. */
  predicate CreateKept(c: CSlot, c': CSlot) {
    c'.status == CreatingTc ==>
      && c.status == CreatingTc
      && (c.createSince.Some? ==> c'.createSince == c.createSince)
      && (c'.createSince == None ==> c'.commandSince == c.commandSince)
  }

  predicate AllCreateKept(slots: seq<CSlot>, slots': seq<CSlot>) {
    |slots| == |slots'| && forall s | 0 <= s < |slots| :: CreateKept(slots[s], slots'[s])
  }

  /** After the reports of one slot are heard, that slot is settled and the others
      are in order. */
  lemma HeardFrame(slots: seq<CSlot>, slots': seq<CSlot>, w: World, s: byte, events: seq<CaEvent>)
    requires WorldOk(w) && AllBut(slots, w, s) && s < |slots| == |w.hist| && AllAbout(events, s)
    requires Settled(slots[s], w, s) && CamDue(slots[s], w, s, events)
    requires slots' == HeardAll(slots, events, w)
    ensures AllBut(slots', w, s) && Settled(slots'[s], w, s) && CamSound(slots'[s], w, s)
    ensures AllCreateKept(slots, slots') && AllStatusHeard(slots, slots') && OthersSame(slots, slots', s)
  {
    hide WorldOk, CamSound, HeardAll, Settled, NoSessions, AllAbout, SlotOk;
    HeardEach(slots, events, w, s);
    HeardSettled(slots[s], slots'[s], w, s, events);
    HeardElsewhere(slots, events, w, s);
  }

  /** Reports about one slot leave the others as they are. */
  lemma {:induction false} HeardElsewhere(slots: seq<CSlot>, events: seq<CaEvent>, w: World, s: byte)
    requires AllAbout(events, s)
    ensures OthersSame(slots, HeardAll(slots, events, w), s)
    decreases |events|
  {
    if events != [] {
      HeardElsewhere(slots, events[..|events| - 1], w, s);
      hide Heard;
    }
  }

  lemma CoreStep(st: State, st': State, s: byte)
    requires CoreOk(st) && SlotStep(st.w, st'.w, s)
    requires st' == st.(w := st'.w, pending := st'.pending) && Foreign(st'.pending, |st.slots|)
    requires st.w.log <= st'.w.log && st'.pending == st.pending + st'.w.log[|st.w.log|..]
    ensures CoreOk(st')
  {
    StepSizes(st.w, st'.w, s);
    StepOwned(st.w, st'.w, s);
    WarnedStep(st.log, st.pending, st'.w.log[|st.w.log|..], st.w.hist, st'.w.hist, s);
    RelaysMore(st.log, st.pending, st.w.log, st'.w.log[|st.w.log|..]);
    assert st'.w.log == st.w.log + st'.w.log[|st.w.log|..];
    hide SlotStep, Replays, Foreign, ApplyAll, Changes, Warned, Relays;
  }

  lemma StepOwned(a: World, b: World, s: byte)
    requires SlotStep(a, b, s)
    ensures a.log <= b.log && Owned(a, b, s)
    ensures forall k | 0 <= k < |a.hist| && k != s as int :: b.hist[k] == a.hist[k]
  {
  }

  /** One slot's fields change; a timer is only ever stopped or started now. */
  lemma CoreSlot(st: State, st': State, s: nat)
    requires CoreOk(st) && s < |st.slots| == |st'.slots| && st' == st.(slots := st.slots[s := st'.slots[s]])
    requires st'.slots[s].status == st.slots[s].status && st'.slots[s].cam == st.slots[s].cam
    requires st'.slots[s].createSince in {None, st.slots[s].createSince, st.lastTick}
    requires st'.slots[s].commandSince in {None, st.slots[s].commandSince, st.lastTick}
    ensures CoreOk(st')
  {
    CoreSlots(st, st');
  }

  lemma CoreSlots(st: State, st': State)
    requires CoreOk(st) && st' == st.(slots := st'.slots) && |st'.slots| == |st.slots|
    requires forall s | 0 <= s < |st.slots| ::
               st'.slots[s].status == st.slots[s].status && st'.slots[s].cam == st.slots[s].cam
    requires TimersPast(st'.slots, st'.lastTick)
    ensures CoreOk(st')
  {
    ReplayOther(st.log, st.slots, st'.slots, TransportReady(0));
    hide Replays, Foreign, ApplyAll, Changes;
  }

  /** A slot's own entry may change freely without touching the others. */
  lemma ButOnly(slots: seq<CSlot>, slots': seq<CSlot>, w: World, s: byte)
    requires AllBut(slots, w, s) && s < |slots| && |slots'| == |slots| && slots' == slots[s := slots'[s]]
    ensures AllBut(slots', w, s)
  {
    hide SlotOk;
  }

  lemma PendingOff(c: CSlot, w: World, s: byte)
    requires c.status == SlotStatus.Active && Settled(c, w, s) && CamSound(c, w, s)
    ensures Settled(c.(receivePending := false), w, s) && CamSound(c.(receivePending := false), w, s)
  {
    hide NoSessions, AI.HasInfo, HasCaInfo;
  }

  lemma OkParts(c: CSlot, w: World, s: byte)
    requires SlotOk(c, w, s)
    ensures Settled(c, w, s) && CamSound(c, w, s) && Timed(c, w.slots[s])
  {
  }

  lemma ControlledStep(st: State, st': State, s: byte)
    requires CoreOk(st) && Controlled(st.w, st'.w, s) && st' == st.(w := st'.w)
    ensures CoreOk(st')
    ensures |st'.w.slots| == |st'.w.hist| == |st.slots| && st'.w.books == st.w.books
  {
    CoreForeign(st);
    StepSizes(st.w, st'.w, s);
    CoreStep(st, st', s);
    hide SlotStep, CoreOk;
  }

  lemma CoreForeign(st: State)
    requires CoreOk(st)
    ensures Foreign(st.pending, |st.slots|) && Replays(st.log, st.slots)
    ensures |st.w.slots| == |st.w.hist| == |st.slots| < 0x100
  {
  }

  /** Hearing reports moves a slot only from creating its connection to active. */
  predicate StatusHeard(c: CSlot, c': CSlot) {
    c'.status == c.status || (c.status == CreatingTc && c'.status == SlotStatus.Active)
  }

  predicate AllStatusHeard(slots: seq<CSlot>, slots': seq<CSlot>) {
    |slots| == |slots'| && forall s | 0 <= s < |slots| :: StatusHeard(slots[s], slots'[s])
  }

  lemma TakenSettled(c: CSlot, a: World, b: World, s: byte, events: seq<CaEvent>)
    requires Settled(c, a, s) && CamDue(c, a, s, events)
    requires |b.slots| == |b.hist| == |a.slots| && b.hist == a.hist && b.books == a.books
    requires b.slots[s] == a.slots[s].(dataPending := false)
    ensures Settled(c, b, s) && CamDue(c, b, s, events)
  {
    hide NoSessions, AI.HasInfo, HasCaInfo, ToldAbout;
  }

  lemma StoppedKept(slots0: seq<CSlot>, slots1: seq<CSlot>, slots2: seq<CSlot>, s: byte)
    requires s < |slots0| == |slots1|
    requires slots1 == slots0
             || (slots0[s].status == SlotStatus.Active && slots1 == slots0[s := slots0[s].(commandSince := None)])
    requires AllCreateKept(slots1, slots2) && AllStatusHeard(slots1, slots2) && OthersSame(slots1, slots2, s)
    ensures AllCreateKept(slots0, slots2) && AllStatusHeard(slots0, slots2) && OthersSame(slots0, slots2, s)
  {
  }

  lemma PendingKept(slots0: seq<CSlot>, slots1: seq<CSlot>, slots2: seq<CSlot>, s: byte)
    requires AllCreateKept(slots0, slots1) && AllStatusHeard(slots0, slots1) && s < |slots1|
    requires OthersSame(slots0, slots1, s)
    requires slots2 == slots1
             || (slots1[s].status == SlotStatus.Active && slots2 == slots1[s := slots1[s].(receivePending := true)])
    ensures AllCreateKept(slots0, slots2) && AllStatusHeard(slots0, slots2) && OthersSame(slots0, slots2, s)
  {
  }

  lemma ButThis(slots: seq<CSlot>, w: World, s: byte)
    requires AllBut(slots, w, s) && s < |slots| && SlotOk(slots[s], w, s) && AllFine(w)
    ensures AllOk(slots, w)
  {
    hide SlotOk, Fine;
  }

  lemma RunningOk(st: State, retry: nat, now: nat)
    requires CoreOk(st) && st.pending == [] && Synchronized(st.w) && AllOk(st.slots, st.w)
    requires st.lastTick == Some(now) && !st.suspended && !st.deferred && st.recoveryAt == None
    requires MayReset(st.resets, retry, now)
    ensures StateOk(st, retry)
  {
  }

  /** While the link is in use, nothing is deferred once there was a tick, and an
      automatic reset would be in order. */
  lemma Unsuspended(st: State, retry: nat)
    requires StateOk(st, retry) && !st.suspended
    ensures st.recoveryAt == None
    ensures st.lastTick.Some? ==> !st.deferred && MayReset(st.resets, retry, st.lastTick.value)
    ensures st.lastTick == None ==> AllAbsent(st.slots) && st.resets == [] && st.gate == NotReady
  {
  }

  lemma AcknowledgedKept(slots0: seq<CSlot>, slots1: seq<CSlot>, slots2: seq<CSlot>, s: byte, w: World,
                         t: TransportSlot, now: nat)
    requires s < |slots0| == |slots1| && Settled(slots0[s], w, s)
    requires slots1 == slots0
             || (slots0[s].status == SlotStatus.Active == slots1[s].status && slots1 == slots0[s := slots1[s]])
    requires slots2 == slots1[s := Marked(slots1[s], t, now)]
    ensures AllCreateKept(slots0, slots2) && AllStatusHeard(slots0, slots2) && OthersSame(slots0, slots2, s)
  {
  }

  function ActiveSlots(slots: seq<CSlot>): (accept: seq<bool>)
    ensures |accept| == |slots|
    ensures forall s | 0 <= s < |slots| :: accept[s] <==> slots[s].status == SlotStatus.Active
  {
    seq(|slots|, s requires 0 <= s < |slots| => slots[s].status == SlotStatus.Active)
  }

  /** A received frame leaves the controller's core in order, whatever came of it. */
  lemma ReceiveCore(st: State, st': State, delivered: seq<CaEvent>, at: byte)
    requires CoreOk(st) && st.pending == [] && st.w.log == delivered + st.pending
    requires st' == st.(w := st'.w, pending := st'.pending) && st'.w.log == delivered + st'.pending
    requires st'.w == st.w || SlotStep(st.w, st'.w, at)
    ensures CoreOk(st')
  {
    hide SlotStep, Replays, ApplyAll, Changes;
    if st'.w == st.w {
      assert st'.pending == st'.w.log[|delivered|..] == st.pending;
      assert st' == st;
    } else {
      hide Warned, Relays;
      StepSizes(st.w, st'.w, at);
      StepSpoke(st.w, st'.w, at);
      PendingGrows(delivered, st.pending, st'.pending, at, |st.slots|);
      CoreStep(st, st', at);
    }
  }

  lemma StepSpoke(a: World, b: World, s: byte)
    requires SlotStep(a, b, s)
    ensures Spoke(a.log, b.log, s) && s < |a.slots|
  {
  }

  lemma ReceivedState(st: State, st': State, delivered: seq<CaEvent>, accept: seq<bool>, s: byte, frame: seq<byte>)
    requires CoreOk(st) && st.pending == [] && st.w.log == delivered + st.pending && AllOk(st.slots, st.w)
    requires st' == st.(w := st'.w, pending := st'.pending) && st'.w.log == delivered + st'.pending
    requires WorldOk(st.w) && WorldOk(st'.w) && SlotStep(st.w, st'.w, s)
    requires |accept| == |st.slots|
    requires forall k | 0 <= k < |accept| :: accept[k] <==> st.slots[k].status == SlotStatus.Active
    requires FrameHandled(st.w, st'.w, s, frame, Accepts(accept, s), true)
    ensures CoreOk(st') && s < |st.slots| && AllBut(st.slots, st'.w, s)
    ensures Settled(st.slots[s], st'.w, s) && CamDue(st.slots[s], st'.w, s, st'.pending)
    ensures AllAbout(st'.pending, s)
  {
    ReceiveCore(st, st', delivered, s);
    StepSpoke(st.w, st'.w, s);
    CoreForeign(st);
    PendingGrows(delivered, st.pending, st'.pending, s, |st.slots|);
    assert st'.pending == st'.w.log[|st.w.log|..];
    forall i | 0 <= i < |st'.pending| ensures st'.pending[i].slotId == s {
      assert st'.pending[i] == st'.w.log[|st.w.log| + i];
    }
    hide WorldOk, SlotStep, Settled, CamDue, SlotOk, FrameHandled, Replays, ApplyAll;
    OthersToo(st.slots, st.w, s);
    StepOthers(st.slots, st.w, st'.w, s);
    SlotAt(st.slots, st.w, -1, s);
    ReceivedOk(st.slots[s], st.w, st'.w, s, frame);
  }

  lemma OthersToo(slots: seq<CSlot>, w: World, s: int)
    requires AllOk(slots, w)
    ensures AllBut(slots, w, s)
  {
    hide SlotOk;
  }

  /** Before the first tick every slot is absent and idle, so a failed receive
      cannot have touched anything. */
  lemma NothingTouched(st: State, st': State, delivered: seq<CaEvent>, accept: seq<bool>, frame: seq<byte>, at: byte)
    requires AllOk(st.slots, st.w) && AllAbsent(st.slots) && st.pending == [] && st.w.log == delivered + st.pending
    requires st' == st.(w := st'.w, pending := st'.pending) && st'.w.log == delivered + st'.pending
    requires |accept| == |st.slots|
    requires forall k | 0 <= k < |accept| :: accept[k] <==> st.slots[k].status == SlotStatus.Active
    requires st'.w != st.w ==> FrameHandled(st.w, st'.w, at, frame, Accepts(accept, at), false)
    ensures st' == st
  {
    hide FrameHandled;
    if st'.w != st.w {
      FrameSlot(st.w, st'.w, at, frame, Accepts(accept, at), false);
      SlotAt(st.slots, st.w, -1, at);
      assert !Accepts(accept, at);
      IdleReceives(st.w, st'.w, at, frame);
      assert false;
    }
    assert st'.pending == st'.w.log[|delivered|..] == st.pending;
  }

  lemma FrameSlot(a: World, b: World, s: byte, frame: seq<byte>, accepted: bool, ok: bool)
    requires FrameHandled(a, b, s, frame, accepted, ok)
    ensures s < |a.slots| && ForSlot(frame, s)
  {
  }

  lemma DeferredOk(st: State, st': State, retry: nat)
    requires StateOk(st, retry) && st.lastTick == None && !st.suspended && st' == st.(deferred := true)
    ensures StateOk(st', retry)
  {
  }

  lemma StillAbsent(slots: seq<CSlot>, slots': seq<CSlot>, w: World, s: byte)
    requires AllAbsent(slots) && AllStatusHeard(slots, slots') && AllBut(slots', w, s) && s < |slots'|
    requires Settled(slots'[s], w, s) && CamSound(slots'[s], w, s) && AllFine(w)
    ensures AllAbsent(slots') && AllOk(slots', w)
  {
    forall k | 0 <= k < |slots'| ensures slots'[k].status == SlotStatus.Absent {
      assert StatusHeard(slots[k], slots'[k]);
    }
    hide Settled, CamSound;
    assert SlotOk(slots'[s], w, s);
    ButThis(slots', w, s);
  }

  lemma BeforeFirstTick(st: State, retry: nat)
    requires CoreOk(st) && st.pending == [] && Synchronized(st.w) && AllOk(st.slots, st.w)
    requires st.lastTick == None && AllAbsent(st.slots) && st.resets == [] && !st.suspended && st.recoveryAt == None
    ensures StateOk(st, retry)
  {
  }

  /** Hearing one report keeps the core in order. */
  lemma HeardCore(st: State, st': State, e: CaEvent)
    requires CoreOk(st) && st.pending == [e] + st'.pending && e.slotId < |st.slots|
    requires st' == st.(pending := st'.pending, slots := st'.slots, log := st'.log, gate := st'.gate,
                        clock := st'.clock)
    requires st'.slots == st.slots[e.slotId := Heard(st.slots[e.slotId], e, st.w)]
    requires Replays(st'.log, st'.slots) && BlemishesBut(st.log, st'.log, -1)
    requires e.MalformedData? ==> st'.log == st.log + [e]
    requires Passed(st'.log) == Passed(st.log) + Passed([e])
    requires st'.clock <= ClockOf(st.lastTick) && (st.lastTick == None ==> st'.gate == st.gate)
    ensures CoreOk(st')
  {
    hide Passed, Relays;
    ForeignTail(st.pending, |st.slots|);
    assert st.pending[1..] == st'.pending;
    WarnedHeard(st.log, st'.log, e, st'.pending, st.w.hist);
    RelaysHeard(st.log, st'.log, e, st'.pending, st.w.log);
    hide Replays, Foreign, ApplyAll, Changes, Warned, BlemishesBut, Telling;
  }

  lemma ControlledRefl(a: World, s: byte)
    requires |a.slots| == |a.hist| && s < |a.slots|
    ensures Controlled(a, a, s)
  {
    SlotStepRefl(a, s);
  }

  // ------------------------------------------------------------------ slot flags

  /** Every other slot is as it was. */
  predicate OthersSame(slots: seq<CSlot>, slots': seq<CSlot>, but: int) {
    |slots| == |slots'| && forall s | 0 <= s < |slots| && s != but :: slots'[s] == slots[s]
  }

  lemma OthersSameOne(slots: seq<CSlot>, slots': seq<CSlot>, s: byte)
    requires s < |slots| == |slots'| && slots' == slots[s := slots'[s]]
    ensures OthersSame(slots, slots', s)
  {
  }

  lemma OthersSameTrans(a: seq<CSlot>, b: seq<CSlot>, c: seq<CSlot>, s: int)
    requires OthersSame(a, b, s) && OthersSame(b, c, s)
    ensures OthersSame(a, c, s)
  {
  }

  /** A module without the link interface is put in, or loses what there was of it. */
  predicate Unusable(c: CSlot, info: SlotInfo) {
    (info.modulePresent || info.moduleReady) && !info.linkInterface && !(c.status.Failed? && c.retryAt == None)
  }

  /** The flags leave the slot's connection alone. */
  predicate Stays(c: CSlot, info: SlotInfo) {
    var present := info.modulePresent || info.moduleReady;
    if !present then c.status == SlotStatus.Absent
    else if !info.linkInterface then c.status == SlotStatus.Failed && c.retryAt == None
    else !(c.status in {CreatingTc, SlotStatus.Active} && !info.moduleReady)
  }

  /** The slot after its flags were read: removed, unusable or not ready modules
      are grounded without a connection; anything else keeps its connection. */
  function Rechecked(c: CSlot, info: SlotInfo): CSlot {
    var present := info.modulePresent || info.moduleReady;
    var flagged := c.(present := present, ready := info.moduleReady);
    if Stays(c, info) then
      flagged.(status := if present && info.linkInterface && c.status == SlotStatus.Absent then Present
                         else c.status)
    else
      Cleared(flagged).(cam := CamStatus.NoInfo,
                        status := if !present then SlotStatus.Absent
                                  else if !info.linkInterface then SlotStatus.Failed else Present)
  }

  /** Statuses changed and were reported, and no timer was started; the connection of one
      slot may be given up on which no failed write was passed off. */
  lemma CoreStatus(st: State, st': State, but: int)
    requires CoreOk(st) && st' == st.(slots := st'.slots, log := st'.log) && |st'.slots| == |st.slots|
    requires Replays(st'.log, st'.slots)
    requires forall s | 0 <= s < |st.slots| ::
               && st'.slots[s].createSince == st.slots[s].createSince
               && st'.slots[s].commandSince == st.slots[s].commandSince
    requires BlemishesBut(st.log, st'.log, but) && Passed(st'.log) == Passed(st.log)
    requires 0 <= but < |st.w.hist| ==> !st.w.hist[but].swallowed
    ensures CoreOk(st')
  {
    WarnedLog(st.log, st'.log, st.pending, st.w.hist, but);
    RelaysLog(st.log, st'.log, st.pending, st.w.log);
    hide Replays, Warned, Relays, Passed, Blemished, Foreign, ApplyAll, Changes;
  }

  lemma DropOthers(slots0: seq<CSlot>, slots1: seq<CSlot>, a: World, b: World, s: byte, c: CSlot)
    requires WorldOk(a) && WorldOk(b) && SlotDropped(a, b, s) && AllBut(slots0, a, s)
    requires s < |slots0| && slots1 == slots0[s := c]
    ensures AllBut(slots1, b, s) && Emptied(b, s)
  {
    hide WorldOk, SlotOk, OtherSlotsKept, Told, NoLoss, Spoke;
    forall k | 0 <= k < |slots0| && k != s ensures SlotOk(slots1[k], b, k) {
      OthersView(a, b, s, k);
      SlotKept(slots0[k], a, b, k);
    }
  }

  /** Hearing the closings of one slot moves nothing but CAM statuses. */
  lemma ClosingsHeard(slots: seq<CSlot>, slots': seq<CSlot>, a: World, b: World, s: byte, closings: seq<CaEvent>)
    requires WorldOk(b) && SlotDropped(a, b, s) && AllBut(slots, b, s) && s < |slots| == |b.hist|
    requires closings == b.log[|a.log|..] && slots' == HeardAll(slots, closings, b)
    ensures AllBut(slots', b, s) && OthersSame(slots, slots', s) && AllClosings(closings)
    ensures slots'[s] == slots[s].(cam := slots'[s].cam)
  {
    forall i | 0 <= i < |closings| ensures !closings[i].TransportReady? && closings[i].slotId == s {
      assert closings[i] == b.log[|a.log| + i] && About(b.log[|a.log| + i], s);
    }
    hide WorldOk, SlotDropped, CamSound, Settled, HeardAll, NoSessions, SlotOk;
    HeardEach(slots, closings, b, s);
    HeardElsewhere(slots, closings, b, s);
  }

  lemma GroundedOk(slots0: seq<CSlot>, slots1: seq<CSlot>, slots2: seq<CSlot>, slots3: seq<CSlot>, w: World,
                   s: byte, status: SlotStatus)
    requires WorldOk(w) && s < |slots0| && Emptied(w, s) && AllFine(w)
    requires slots1 == slots0[s := Cleared(slots0[s])]
    requires AllBut(slots2, w, s) && OthersSame(slots1, slots2, s) && slots2[s] == slots1[s].(cam := slots2[s].cam)
    requires slots3 == slots2[s := slots2[s].(cam := CamStatus.NoInfo, status := status)]
    requires status in {SlotStatus.Absent, Present, SlotStatus.Failed}
      && (status == SlotStatus.Absent <==> !slots0[s].present)
    ensures AllOk(slots3, w) && OthersSame(slots0, slots3, s)
    ensures slots3[s] == Cleared(slots0[s]).(cam := CamStatus.NoInfo, status := status)
  {
    hide WorldOk, SlotOk;
    DroppedOk(slots3[s], w, s);
    ButOnly(slots2, slots3, w, s);
    ButThis(slots3, w, s);
  }

  /** Flags alone do not unsettle a slot, nor does the arrival of a module. */
  lemma FlagsOk(c: CSlot, c': CSlot, w: World, s: byte)
    requires SlotOk(c, w, s)
    requires c' == c.(present := c'.present, ready := c'.ready)
             || (c.status == SlotStatus.Absent && c' == c.(present := c'.present, ready := c'.ready, status := Present))
    requires c'.status == SlotStatus.Absent <==> !c'.present
    ensures SlotOk(c', w, s)
  {
    hide NoSessions, AI.HasInfo, HasCaInfo;
  }

  // --------------------------------------------------------------------- the tick

  /** In the middle of a tick that uses the link. */
  ghost predicate Running(st: State, retry: nat, now: nat) {
    && CoreOk(st) && st.pending == [] && Synchronized(st.w)
    && st.lastTick == Some(now) && !st.suspended && !st.deferred && st.recoveryAt == None
    && MayReset(st.resets, retry, now)
  }

  predicate TrafficSame(t: seq<TransportSlot>, t': seq<TransportSlot>, but: int) {
    |t| == |t'| && forall s | 0 <= s < |t| && s != but :: t'[s] == t[s]
  }

  /** Dropping slots drops their date-time sessions and leaves the others. */
  predicate DatesKept(dates: map<u16, DT.DateTimeSession>, dates': map<u16, DT.DateTimeSession>) {
    forall id | id in dates' :: id in dates && dates'[id] == dates[id]
  }

  lemma NoDatesDropped(dates: map<u16, DT.DateTimeSession>)
    ensures DatesKept(dates, dates)
  {
  }

  lemma DatesKeptTrans(a: map<u16, DT.DateTimeSession>, b: map<u16, DT.DateTimeSession>,
                       c: map<u16, DT.DateTimeSession>)
    requires DatesKept(a, b) && DatesKept(b, c)
    ensures DatesKept(a, c)
  {
  }

  lemma DropDates(a: World, b: World, s: byte)
    requires WorldOk(b) && SlotDropped(a, b, s)
    ensures DatesKept(a.books.dates, b.books.dates)
  {
    forall id | id in b.books.dates ensures id in a.books.dates && b.books.dates[id] == a.books.dates[id] {
      BackedAt(b, id);
      assert !OnSlot(b.books.table, id, s);
      assert SameAt(a.books, b.books, id);
    }
  }

  lemma DropTraffic(a: World, b: World, s: byte)
    requires SlotDropped(a, b, s)
    ensures TrafficSame(a.slots, b.slots, s)
  {
  }

  /** Without a connection, and none will be tried in this tick. */
  predicate Grounded(c: CSlot) {
    c.status == SlotStatus.Absent || (c.status == SlotStatus.Failed && c.retryAt == None)
    || (c.status == Present && !c.ready)
  }

  /** A connection either goes on with its timers, or is given up for this tick. */
  predicate Going(c: CSlot, t: TransportSlot, c': CSlot, t': TransportSlot) {
    c.status in {CreatingTc, SlotStatus.Active} ==>
      || Grounded(c')
      || (c'.status == c.status && c'.createSince == c.createSince && c'.commandSince == c.commandSince
          && (!Idle(t) ==> !Idle(t')))
  }

  predicate AllGoing(slots: seq<CSlot>, t: seq<TransportSlot>, slots': seq<CSlot>, t': seq<TransportSlot>) {
    && |slots| == |slots'| == |t| == |t'|
    && forall s | 0 <= s < |slots| :: Going(slots[s], t[s], slots'[s], t'[s])
  }

  /** The flags of the first `k` slots have been followed. */
  predicate GoingBelow(slots: seq<CSlot>, t: seq<TransportSlot>, slots': seq<CSlot>, t': seq<TransportSlot>,
                       infos: seq<SlotInfo>, k: nat) {
    && |slots| == |slots'| == |t| == |t'| == |infos|
    && (forall s | 0 <= s < |slots| && s < k ::
          Going(slots[s], t[s], slots'[s], t'[s]) && slots'[s] == Rechecked(slots[s], infos[s]))
    && (forall s | k <= s < |slots| :: slots'[s] == slots[s] && t'[s] == t[s])
  }

  lemma GoingStart(slots: seq<CSlot>, t: seq<TransportSlot>, infos: seq<SlotInfo>)
    requires |slots| == |t| == |infos|
    ensures GoingBelow(slots, t, slots, t, infos, 0)
  {
  }

  lemma GoingEnd(slots: seq<CSlot>, t: seq<TransportSlot>, slots': seq<CSlot>, t': seq<TransportSlot>,
                 infos: seq<SlotInfo>)
    requires GoingBelow(slots, t, slots', t', infos, |slots|)
    ensures AllGoing(slots, t, slots', t') && |slots| == |infos| == |slots'|
    ensures forall s | 0 <= s < |slots| :: slots'[s] == Rechecked(slots[s], infos[s])
  {
  }

  lemma GoingStep(slots0: seq<CSlot>, t0: seq<TransportSlot>, slots1: seq<CSlot>, t1: seq<TransportSlot>,
                  slots2: seq<CSlot>, t2: seq<TransportSlot>, infos: seq<SlotInfo>, k: byte)
    requires k < |slots0| && GoingBelow(slots0, t0, slots1, t1, infos, k)
    requires OthersSame(slots1, slots2, k) && TrafficSame(t1, t2, k) && slots2[k] == Rechecked(slots1[k], infos[k])
    requires Stays(slots1[k], infos[k]) ==> t2 == t1
    ensures GoingBelow(slots0, t0, slots2, t2, infos, k + 1)
  {
    assert Going(slots0[k], t0[k], slots2[k], t2[k]);
    forall s | 0 <= s < k
      ensures Going(slots0[s], t0[s], slots2[s], t2[s]) && slots2[s] == Rechecked(slots0[s], infos[s])
    {
      assert Going(slots0[s], t0[s], slots1[s], t1[s]);
    }
  }

  /** Settled enough to be driven: an active slot may have something untimed. */
  ghost predicate Drivable(c: CSlot, w: World, s: byte) {
    && Settled(c, w, s) && CamSound(c, w, s)
    && (c.status != SlotStatus.Active ==> Timed(c, w.slots[s]))
  }

  /** The first `k` slots have been driven and are in time. */
  ghost predicate Driven(slots: seq<CSlot>, w: World, k: nat, now: nat, config: Config) {
    && |slots| == |w.slots| < 0x100 && AllFine(w)
    && (forall s | 0 <= s < |slots| && s < k :: SlotOk(slots[s], w, s) && Fresh(slots[s], w.slots[s], now, config))
    && (forall s | k <= s < |slots| :: Drivable(slots[s], w, s))
  }

  lemma TickedCore(st: State, st': State)
    requires CoreOk(st) && Ticked(st.w, st'.w) && st' == st.(w := st'.w)
    ensures CoreOk(st')
  {
    TickedSwallowed(st.w, st'.w);
    WarnedSame(st.log, st.pending, st.w.hist, st'.w.hist);
    hide Replays, Foreign, ApplyAll, Changes, DT.OnlyHosts, DT.SameHosts, Warned, Relays;
  }

  lemma TickedDates(a: World, b: World)
    requires Ticked(a, b)
    ensures b.books.dates.Keys == a.books.dates.Keys
  {
  }

  lemma TickedSwallowed(a: World, b: World)
    requires Ticked(a, b)
    ensures |a.hist| == |b.hist| && forall s | 0 <= s < |a.hist| :: b.hist[s].swallowed == a.hist[s].swallowed
  {
    forall s | 0 <= s < |a.hist| ensures b.hist[s].swallowed == a.hist[s].swallowed {
      assert Sending.Quiet(a.hist[s], b.hist[s]);
    }
  }

  lemma TickedDriven(slots: seq<CSlot>, a: World, b: World, now: nat, config: Config)
    requires WorldOk(a) && WorldOk(b) && Ticked(a, b) && AllOk(slots, a) && EachFine(a.hist, b.hist)
    ensures Driven(slots, b, 0, now, config)
  {
    FineEach(a, b);
    hide WorldOk, SlotOk, NumberOk;
    forall s | 0 <= s < |slots| ensures Drivable(slots[s], b, s) {
      SlotAt(slots, a, -1, s);
      TickedSlot(slots[s], a, b, s);
    }
  }

  lemma TickedSlot(c: CSlot, a: World, b: World, s: byte)
    requires WorldOk(a) && Ticked(a, b) && SlotOk(c, a, s) && s < |a.slots|
    ensures Drivable(c, b, s)
  {
    assert DT.OnlyHosts(b.books.dates, a.slots, b.slots, a.hist, b.hist);
    StillIntact(a, b, s);
    if c.status != SlotStatus.Active {
      NoDates(a, b, s);
    }
    hide WorldOk, DT.OnlyHosts, NoSessions, AI.HasInfo, HasCaInfo;
    assert NoSessions(b.books, s) <==> NoSessions(a.books, s) by {
      assert b.books.table == a.books.table;
      SameTable(a.books, b.books, s);
    }
  }

  lemma SameTable(a: Books, b: Books, s: byte)
    requires b.table == a.table
    ensures NoSessions(b, s) <==> NoSessions(a, s)
  {
  }

  lemma StillIntact(a: World, b: World, s: byte)
    requires Ticked(a, b) && s < |a.slots|
    ensures b.hist[s].intact ==> a.hist[s].intact
  {
    assert Sending.Quiet(a.hist[s], b.hist[s]);
  }

  /** A slot without sessions has no date-time session, so its traffic is untouched. */
  lemma NoDates(a: World, b: World, s: byte)
    requires WorldOk(a) && Ticked(a, b) && s < |a.slots| && NoSessions(a.books, s)
    ensures b.slots[s] == a.slots[s] && b.hist[s] == a.hist[s]
  {
    forall id | id in b.books.dates ensures b.books.dates[id].slotId != s {
      BackedAt(a, id);
      assert id in a.books.dates && !OnSlot(a.books.table, id, s);
    }
  }

  // ------------------------------------------------------------------ driving a slot

  /** What driving a slot hands to its transport: a connection is asked for once the
      module is ready and any retry is due; with nothing outstanding, announced data is
      asked for before the module is polled. */
  function Issues(c: CSlot, t: TransportSlot, now: nat): seq<Item> {
    match c.status
    case Active =>
      if !Idle(t) then []
      else if c.receivePending then [Single(RCV, [])]
      else if c.nextPoll == None || c.nextPoll.value <= now then [Single(DATA_LAST, [])]
      else []
    case Present => if c.ready then CREATION else []
    case Failed => if c.ready && c.retryAt.Some? && c.retryAt.value <= now then CREATION else []
    case _ => []
  }

  /** A connection is asked for, if the module is ready. */
  function Connecting(c: CSlot, t': TransportSlot, now: nat): CSlot {
    if c.ready then Marked(c.(receivePending := false, status := CreatingTc), t', now) else c
  }

  predicate RetryDue(c: CSlot, now: nat) {
    c.retryAt.Some? && c.retryAt.value <= now
  }

  /** The slot after it was driven, by its traffic before and after: retried when due,
      connected when ready, otherwise timed, its announced data asked for, or polled. */
  function Drive(c: CSlot, t: TransportSlot, t': TransportSlot, now: nat, config: Config): CSlot {
    match c.status
    case Absent => c
    case Present => Connecting(c, t', now)
    case Failed => if RetryDue(c, now) then Connecting(c.(retryAt := None, status := Present), t', now) else c
    case CreatingTc => Marked(c, t', now)
    case Active =>
      if !Idle(t) then c.(commandSince := if c.commandSince == None then Some(now) else c.commandSince)
      else if c.receivePending then Marked(c.(commandSince := None, receivePending := false), t', now)
      else if c.nextPoll == None || c.nextPoll.value <= now then
        c.(commandSince := Some(now), nextPoll := Some(now + config.transportPollInterval))
      else c.(commandSince := None)
  }

  /** The deadline a slot has outlived. */
  function Outlived(c: CSlot, t: TransportSlot, now: nat, config: Config): Option<SlotFailure> {
    match c.status
    case CreatingTc =>
      if c.createSince.Some? then
        if Age(now, c.createSince.value) >= config.createTcTimeout then Some(CreateTcTimeout) else None
      else if c.commandSince.Some? && Age(now, c.commandSince.value) >= config.responseTimeout then Some(WriteTimeout)
      else None
    case Active =>
      if !Idle(t) && c.commandSince.Some? && Age(now, c.commandSince.value) >= config.responseTimeout
      then Some(if t.busy then SlotFailure.ResponseTimeout else WriteTimeout) else None
    case _ => None
  }

  /** One slot has been driven: in order, in time, and no deadline put off. */
  ghost predicate SlotDriven(slots0: seq<CSlot>, a: World, slots: seq<CSlot>, b: World, s: byte, now: nat,
                             config: Config)
  {
    && s < |slots0| == |slots| && slots == slots0[s := slots[s]]
    && Controlled(a, b, s) && s < |a.slots| && s < |b.slots|
    && SlotOk(slots[s], b, s) && Fresh(slots[s], b.slots[s], now, config)
    && NotPutOff(slots0[s], a.slots[s], slots[s])
    && StepFine(a, b, s, Ok(()))
    && (Grounded(slots0[s]) ==> slots[s] == slots0[s])
    && slots[s] == Drive(slots0[s], a.slots[s], b.slots[s], now, config)
  }

  lemma SettledIdle(c: CSlot, w: World, s: byte)
    requires SlotOk(c, w, s) && c.status in {SlotStatus.Absent, Present, SlotStatus.Failed}
    ensures Idle(w.slots[s]) && NoTimers(c)
  {
  }

  lemma ConnectOk(c: CSlot, a: World, b: World, s: byte, now: nat, config: Config)
    requires SlotOk(c, a, s) && c.status == Present && Controlled(a, b, s) && WorldOk(b)
    requires s < |b.hist| && b.hist[s].intact == a.hist[s].intact
    requires b.hist[s].sent == a.hist[s].sent + [Single(CREATE_TC, [])]
    requires |b.slots[s].queue| + (if b.slots[s].busy then 1 else 0) == 1
    ensures var c' := Marked(c.(receivePending := false, status := CreatingTc), b.slots[s], now);
            SlotOk(c', b, s) && Fresh(c', b.slots[s], now, config)
  {
    SameTable(a.books, b.books, s);
    NothingKnown(b, s);
    assert a.hist[s].sent + [Single(CREATE_TC, [])] == CREATION;
    hide WorldOk, SlotStep, NoSessions, AI.HasInfo, HasCaInfo;
  }

  lemma CreatingOk(c: CSlot, a: World, b: World, s: byte, now: nat)
    requires SlotOk(c, a, s) && c.status == CreatingTc && Controlled(a, b, s)
    requires s < |b.hist| && b.hist[s].intact == a.hist[s].intact && b.hist[s].sent == a.hist[s].sent
    requires Flushed(a.slots[s], b.slots[s], true)
    ensures SlotOk(Marked(c, b.slots[s], now), b, s)
    ensures NotPutOff(c, a.slots[s], Marked(c, b.slots[s], now))
  {
    SameTable(a.books, b.books, s);
    hide WorldOk, SlotStep, NoSessions, AI.HasInfo, HasCaInfo;
  }

  lemma CreatingTimed(c: CSlot, w: World, s: byte)
    requires SlotOk(c, w, s) && c.status == CreatingTc
    ensures c.createSince == None ==> c.commandSince.Some?
  {
  }

  lemma IdleBefore(t: TransportSlot, t': TransportSlot)
    requires Flushed(t, t', true)
    ensures Idle(t') <==> Idle(t)
  {
  }

  /** The command timer of an active slot does not unsettle it. */
  lemma TimerOk(c: CSlot, c': CSlot, w: World, s: byte)
    requires c.status == SlotStatus.Active && Settled(c, w, s) && CamSound(c, w, s)
    requires c' == c.(commandSince := c'.commandSince, nextPoll := c'.nextPoll)
    ensures Settled(c', w, s) && CamSound(c', w, s)
  {
    hide NoSessions, AI.HasInfo, HasCaInfo;
  }

  lemma ControlledTrans(a: World, b: World, c: World, s: byte)
    requires Controlled(a, b, s) && Controlled(b, c, s)
    ensures Controlled(a, c, s)
  {
    SlotStepTrans(a, b, c, s);
    hide SlotStep;
  }

  lemma MarkedFresh(c: CSlot, w: World, s: byte, now: nat, config: Config)
    requires c.status == SlotStatus.Active && c.commandSince == None && s < |w.slots|
    ensures Fresh(Marked(c, w.slots[s], now), w.slots[s], now, config)
    ensures Timed(Marked(c, w.slots[s], now), w.slots[s])
  {
  }

  lemma DrivableOk(c: CSlot, w: World, s: byte)
    requires Drivable(c, w, s) && c.status != SlotStatus.Active
    ensures SlotOk(c, w, s)
  {
    hide Settled, CamSound, Timed;
  }

  lemma RetriedOk(c: CSlot, w: World, s: byte)
    requires SlotOk(c, w, s) && c.status == SlotStatus.Failed
    ensures SlotOk(c.(retryAt := None, status := Present), w, s)
  {
    hide NoSessions, AI.HasInfo, HasCaInfo;
  }

  lemma RestingDriven(slots0: seq<CSlot>, slots: seq<CSlot>, w: World, s: byte, now: nat, config: Config)
    requires s < |slots0| == |slots| && slots == slots0[s := slots[s]] && Controlled(w, w, s) && s < |w.slots|
    requires s < |w.hist|
    requires SlotOk(slots[s], w, s) && slots[s].status in {SlotStatus.Absent, Present, SlotStatus.Failed}
    requires slots[s] == slots0[s] || !Grounded(slots0[s])
    requires slots[s] == Drive(slots0[s], w.slots[s], w.slots[s], now, config)
    ensures SlotDriven(slots0, w, slots, w, s, now, config)
  {
    hide Settled, CamSound, Controlled;
  }

  lemma ConnectedDriven(slots0: seq<CSlot>, slots1: seq<CSlot>, a: World, slots: seq<CSlot>, b: World, s: byte,
                        now: nat, config: Config)
    requires s < |slots0| == |slots1| && slots1 == slots0[s := slots1[s]]
    requires slots1[s].status == Present && slots1[s].ready
    requires slots0[s] == slots1[s] || (slots0[s].status == SlotStatus.Failed && RetryDue(slots0[s], now)
                                        && slots1[s] == slots0[s].(retryAt := None, status := Present))
    requires SlotDriven(slots1, a, slots, b, s, now, config)
    ensures SlotDriven(slots0, a, slots, b, s, now, config)
  {
    hide SlotOk, Controlled;
  }

  lemma DrivenStep(slots0: seq<CSlot>, a: World, slots: seq<CSlot>, b: World, k: byte, now: nat, config: Config)
    requires WorldOk(a) && WorldOk(b) && Driven(slots0, a, k, now, config)
    requires SlotDriven(slots0, a, slots, b, k, now, config)
    ensures Driven(slots, b, k + 1, now, config) && TrafficSame(a.slots, b.slots, k)
  {
    StepSizes(a, b, k);
    FineControlled(a, b, k, Ok(()));
    hide WorldOk, SlotOk, Settled, CamSound, StillIssued, InfoTold, Spoke, OtherSlotsKept, Fresh, Timed, NotPutOff,
      AllFine, StepFine;
    forall s | 0 <= s < |slots| && s != k
      ensures s < k ==> SlotOk(slots[s], b, s) && Fresh(slots[s], b.slots[s], now, config)
      ensures s > k ==> Drivable(slots[s], b, s)
    {
      OthersView(a, b, k, s);
      if s < k {
        SlotKept(slots[s], a, b, s);
      } else {
        assert Drivable(slots0[s], a, s);
        SettledKept(slots[s], a, b, s);
        CamKept(slots[s], a, b, s);
      }
    }
  }

  /** What driving does to one slot, its traffic and its log: it is advanced, what it
      issues is handed over, and the link is tried. */
  predicate Advanced(c: CSlot, t: TransportSlot, h: History, c': CSlot, t': TransportSlot, h': History,
                     writes: seq<Attempt>, writes': seq<Attempt>, now: nat, config: Config) {
    && NotPutOff(c, t, c') && (Grounded(c) ==> c' == c)
    && c' == Drive(c, t, t', now, config)
    && h'.sent == h.sent + Issues(c, t, now)
    && Tried(t', writes, writes')
  }

  predicate AllDriven(slots: seq<CSlot>, a: World, slots': seq<CSlot>, b: World,
                      writes: seq<Attempt>, writes': seq<Attempt>, now: nat, config: Config) {
    && |slots| == |slots'| == |a.slots| == |b.slots| == |a.hist| == |b.hist| && writes <= writes'
    && forall s | 0 <= s < |slots| ::
         Advanced(slots[s], a.slots[s], a.hist[s], slots'[s], b.slots[s], b.hist[s], writes, writes', now, config)
  }

  predicate DrivenSoFar(slots: seq<CSlot>, a: World, slots': seq<CSlot>, b: World,
                        writes: seq<Attempt>, writes': seq<Attempt>, k: nat, now: nat, config: Config) {
    && |slots| == |slots'| == |a.slots| == |b.slots| == |a.hist| == |b.hist| && writes <= writes'
    && (forall s | 0 <= s < |slots| && s < k ::
          Advanced(slots[s], a.slots[s], a.hist[s], slots'[s], b.slots[s], b.hist[s], writes, writes', now, config))
    && (forall s | k <= s < |slots| :: slots'[s] == slots[s] && b.slots[s] == a.slots[s] && b.hist[s] == a.hist[s])
  }

  lemma DrivenNone(slots: seq<CSlot>, a: World, writes: seq<Attempt>, now: nat, config: Config)
    requires |slots| == |a.slots| == |a.hist|
    ensures DrivenSoFar(slots, a, slots, a, writes, writes, 0, now, config)
  {
  }

  lemma DrivenWhole(slots: seq<CSlot>, a: World, slots': seq<CSlot>, b: World,
                    writes: seq<Attempt>, writes': seq<Attempt>, now: nat, config: Config)
    requires DrivenSoFar(slots, a, slots', b, writes, writes', |slots|, now, config)
    ensures AllDriven(slots, a, slots', b, writes, writes', now, config)
  {
    hide Advanced;
  }

  lemma DrivenAt(slots: seq<CSlot>, w: World, k: nat, now: nat, config: Config)
    requires Driven(slots, w, k, now, config) && k < |slots|
    ensures Drivable(slots[k], w, k)
  {
  }

  lemma DrivenMore(slots0: seq<CSlot>, w0: World, slots1: seq<CSlot>, a: World, slots2: seq<CSlot>, b: World,
                   writes0: seq<Attempt>, writes: seq<Attempt>, writes': seq<Attempt>, k: byte, now: nat,
                   config: Config)
    requires DrivenSoFar(slots0, w0, slots1, a, writes0, writes, k, now, config)
    requires SlotDriven(slots1, a, slots2, b, k, now, config)
    requires writes <= writes' && Tried(b.slots[k], writes, writes') && k < |a.hist| && k < |b.hist|
    requires b.hist[k].sent == a.hist[k].sent + Issues(slots1[k], a.slots[k], now)
    ensures DrivenSoFar(slots0, w0, slots2, b, writes0, writes', k + 1, now, config)
  {
    StepOnly(a, b, k);
    TriedLonger(b.slots[k], writes0, writes, writes');
    hide NotPutOff, Grounded, SlotOk, Fresh, SlotStep, Drive, Issues, Tried, StepFine;
    forall s | 0 <= s < |slots0| && s < k as int
      ensures Advanced(slots0[s], w0.slots[s], w0.hist[s], slots2[s], b.slots[s], b.hist[s], writes0, writes', now,
                       config)
    {
      TriedKept(a.slots[s], writes0, writes, writes');
    }
  }

  lemma StepOnly(a: World, b: World, s: byte)
    requires Controlled(a, b, s)
    ensures |a.slots| == |b.slots| == |a.hist| == |b.hist|
    ensures forall k | 0 <= k < |a.slots| && k != s as int :: b.slots[k] == a.slots[k] && b.hist[k] == a.hist[k]
  {
  }

  // ----------------------------------------------------------- the tick as a whole

  predicate AllFresh(slots: seq<CSlot>, t: seq<TransportSlot>, now: nat, config: Config) {
    |slots| == |t| && forall s | 0 <= s < |slots| :: Fresh(slots[s], t[s], now, config)
  }

  /** No tick puts a deadline off. */
  predicate AllNotPutOff(slots: seq<CSlot>, t: seq<TransportSlot>, slots': seq<CSlot>) {
    |slots| == |slots'| == |t| && forall s | 0 <= s < |slots| :: NotPutOff(slots[s], t[s], slots'[s])
  }

  predicate TimersKept(c: CSlot, c': CSlot) {
    c'.status in {CreatingTc, SlotStatus.Active} ==>
      && c.status == c'.status && c'.createSince == c.createSince
      && (c.commandSince.Some? || c.status == CreatingTc ==> c'.commandSince == c.commandSince)
  }

  predicate AllTimersKept(slots: seq<CSlot>, slots': seq<CSlot>) {
    |slots| == |slots'| && forall s | 0 <= s < |slots| :: TimersKept(slots[s], slots'[s])
  }

  lemma TimersRefl(slots: seq<CSlot>)
    ensures AllTimersKept(slots, slots)
  {
  }

  lemma GoingRefl(slots: seq<CSlot>, t: seq<TransportSlot>)
    requires |slots| == |t|
    ensures AllGoing(slots, t, slots, t)
  {
  }

  /** A suspended link has no deadlines. */
  lemma RestingFresh(st: State, retry: nat, now: nat, config: Config, slots0: seq<CSlot>)
    requires StateOk(st, retry) && st.suspended
    ensures AllFresh(st.slots, st.w.slots, now, config)
    ensures |slots0| == |st.slots| ==> AllTimersKept(slots0, st.slots)
  {
    hide Replays, AllBut, Foreign, ApplyAll, Synchronized, ResetsOk;
  }

  lemma RestingNotPutOff(st: State, retry: nat, slots0: seq<CSlot>, t0: seq<TransportSlot>)
    requires StateOk(st, retry) && st.suspended && |slots0| == |t0| == |st.slots|
    ensures AllNotPutOff(slots0, t0, st.slots)
  {
    hide Replays, AllBut, Foreign, ApplyAll, Synchronized, ResetsOk;
  }

  lemma DrivenOk(slots: seq<CSlot>, w: World, now: nat, config: Config)
    requires Driven(slots, w, |slots|, now, config)
    ensures AllOk(slots, w) && AllFresh(slots, w.slots, now, config)
  {
    hide SlotOk, Fresh;
  }

  lemma NotPutOffWhole(slots0: seq<CSlot>, t0: seq<TransportSlot>, slots1: seq<CSlot>, t1: seq<TransportSlot>,
                       w2: World, slots3: seq<CSlot>, w3: World, writes: seq<Attempt>, writes': seq<Attempt>,
                       now: nat, config: Config, slots4: seq<CSlot>)
    requires AllGoing(slots0, t0, slots1, t1) && DT.StillPending(t1, w2.slots)
    requires AllDriven(slots1, w2, slots3, w3, writes, writes', now, config) && AllTimersKept(slots3, slots4)
    ensures AllNotPutOff(slots0, t0, slots4)
  {
    forall s | 0 <= s < |slots0| ensures NotPutOff(slots0[s], t0[s], slots4[s]) {
      assert Going(slots0[s], t0[s], slots1[s], t1[s]) && TimersKept(slots3[s], slots4[s]);
      assert Advanced(slots1[s], w2.slots[s], w2.hist[s], slots3[s], w3.slots[s], w3.hist[s], writes, writes', now,
                      config);
    }
  }

  /** A dropped slot has nothing to warn of, and nothing changes for the others. */
  lemma DroppedSwallow(log: seq<CaEvent>, pending: seq<CaEvent>, a: World, b: World, slotId: byte)
    requires Warned(log, pending, a.hist) && SlotDropped(a, b, slotId)
    ensures Warned(log, pending + b.log[|a.log|..], b.hist)
  {
    hide OtherSlotsKept, NoLoss, Told;
    WarnedStep(log, pending, b.log[|a.log|..], a.hist, b.hist, slotId);
  }

  lemma CoreUndeferred(st: State)
    requires CoreOk(st)
    ensures CoreOk(st.(deferred := false))
  {
    hide Replays, Foreign, Warned, Relays, ApplyAll, Changes;
  }

  lemma ClockPast(st: State)
    requires CoreOk(st)
    ensures st.clock <= ClockOf(st.lastTick)
  {
  }

  lemma ClockAt(st: State, now: nat)
    requires CoreOk(st) && st.lastTick == Some(now)
    ensures st.clock <= now
  {
  }

  lemma PolledOk(st: State, st': State, retry: nat, now: nat)
    requires StateOk(st, retry) && st.lastTick == Some(now)
    requires st' == st.(gate := st'.gate, clock := now)
    requires st.gate == NotReady ==> st'.gate == NotReady
    ensures StateOk(st', retry)
  {
    hide Replays, AllBut, Foreign, ApplyAll, Synchronized;
  }

  lemma OpenGate(st: State, retry: nat)
    requires StateOk(st, retry) && st.gate != NotReady
    ensures !st.suspended
  {
  }

  lemma ClosedGate(st: State, retry: nat)
    requires StateOk(st, retry) && st.suspended
    ensures st.gate == NotReady
  {
  }

  /** The registry follows the released changes, one by one. */
  lemma ChangeCore(st: State, st': State, change: Change, r: Result<seq<u16>>, now: nat)
    requires CoreOk(st) && st.lastTick == Some(now) && ProgramsChanged(st.w, st'.w, r)
    requires st' == st.(w := st'.w, releases := st'.releases, gate := st'.gate, clock := now)
    requires Changes(st'.releases) == Changes(st.releases) + [change]
    requires st'.w.programs == Apply(st.w.programs, change)
    ensures CoreOk(st')
  {
    var changes := Changes(st.releases);
    assert (changes + [change])[..|changes|] == changes;
    WarnedSame(st.log, st.pending, st.w.hist, st'.w.hist);
    hide Replays, Foreign, OnlyTouched, SameSessions, Hosted, Changes, Warned, Relays;
  }

  /** What a change touched is still to be timed, from the `i`-th slot on. */
  ghost predicate TouchedFrom(slots: seq<CSlot>, w: World, touched: seq<u16>, i: nat, now: nat, config: Config) {
    && i <= |touched| && |slots| == |w.slots| < 0x100 && AllFine(w)
    && (forall k | i <= k < |touched| :: touched[k] < |slots|)
    && forall s | 0 <= s < |slots| ::
         if s in touched[i..] then ToBeTimed(slots[s], w, s, now, config)
         else SlotOk(slots[s], w, s) && Fresh(slots[s], w.slots[s], now, config)
  }

  ghost predicate ToBeTimed(c: CSlot, w: World, s: byte, now: nat, config: Config) {
    && c.status == SlotStatus.Active && Settled(c, w, s) && CamSound(c, w, s)
    && (c.commandSince.Some? ==> InTime(c.commandSince, now, config.responseTimeout))
  }

  lemma TouchedAt(slots: seq<CSlot>, w: World, touched: seq<u16>, i: nat, now: nat, config: Config)
    requires TouchedFrom(slots, w, touched, i, now, config) && i < |touched|
    ensures touched[i] < |slots| < 0x100 && ToBeTimed(slots[touched[i]], w, touched[i], now, config)
  {
    assert touched[i] == touched[i..][0];
    hide ToBeTimed, SlotOk, Fresh;
  }

  lemma TouchedNext(slots: seq<CSlot>, slots': seq<CSlot>, w: World, touched: seq<u16>, i: nat, now: nat,
                    config: Config)
    requires TouchedFrom(slots, w, touched, i, now, config) && i < |touched| && touched[i] < |slots|
    requires slots' == slots[touched[i] := Marked(slots[touched[i]], w.slots[touched[i]], now)]
    ensures TouchedFrom(slots', w, touched, i + 1, now, config)
  {
    TouchedAt(slots, w, touched, i, now, config);
    TimedNow(slots[touched[i]], w, touched[i], now, config);
    assert touched[i..] == [touched[i]] + touched[i + 1..];
    hide ToBeTimed, SlotOk, Fresh, Marked;
    forall s | 0 <= s < |slots'|
      ensures if s in touched[i + 1..] then ToBeTimed(slots'[s], w, s, now, config)
              else SlotOk(slots'[s], w, s) && Fresh(slots'[s], w.slots[s], now, config)
    {
      assert s in touched[i..] <==> s == touched[i] || s in touched[i + 1..];
    }
  }

  lemma TimedNow(c: CSlot, w: World, s: byte, now: nat, config: Config)
    requires ToBeTimed(c, w, s, now, config) && s < |w.slots|
    ensures var c' := Marked(c, w.slots[s], now);
            && SlotOk(c', w, s) && Fresh(c', w.slots[s], now, config) && ToBeTimed(c', w, s, now, config)
  {
    MarkedOk(c, w, s, now);
    OkParts(Marked(c, w.slots[s], now), w, s);
    hide Settled, CamSound;
  }

  lemma TouchedAll(slots: seq<CSlot>, w: World, touched: seq<u16>, now: nat, config: Config)
    requires TouchedFrom(slots, w, touched, |touched|, now, config)
    ensures AllOk(slots, w) && AllFresh(slots, w.slots, now, config)
  {
    assert touched[|touched|..] == [];
    hide ToBeTimed, SlotOk, Fresh;
  }

  /** Nothing but command timers were started or stopped. */
  predicate OnlyTimed(slots: seq<CSlot>, slots': seq<CSlot>) {
    |slots| == |slots'|
    && forall s | 0 <= s < |slots| :: slots'[s] == slots[s].(commandSince := slots'[s].commandSince)
  }

  lemma OnlyTimedRefl(slots: seq<CSlot>)
    ensures OnlyTimed(slots, slots)
  {
  }

  lemma MarkedTimers(slots0: seq<CSlot>, slots1: seq<CSlot>, slots2: seq<CSlot>, s: nat, t: TransportSlot, now: nat)
    requires AllTimersKept(slots0, slots1) && OnlyTimed(slots0, slots1)
    requires s < |slots1| && slots1[s].status == SlotStatus.Active
    requires slots2 == slots1[s := Marked(slots1[s], t, now)]
    ensures AllTimersKept(slots0, slots2) && OnlyTimed(slots0, slots2)
  {
  }

  lemma ProgramsTouched(slots: seq<CSlot>, a: World, b: World, touched: seq<u16>, now: nat, config: Config)
    requires WorldOk(a) && WorldOk(b) && ProgramsChanged(a, b, Ok(touched))
    requires AllOk(slots, a) && AllFresh(slots, a.slots, now, config)
    ensures TouchedFrom(slots, b, touched, 0, now, config)
  {
    WorldSizes(a);
    FineEach(a, b);
    assert touched[0..] == touched;
    hide WorldOk, SlotOk, Fresh, ToBeTimed;
    forall k | 0 <= k < |touched| ensures touched[k] < |slots| {
      TouchedSlot(b, touched, touched[k]);
    }
    forall s | 0 <= s < |slots|
      ensures if s in touched then ToBeTimed(slots[s], b, s, now, config)
              else SlotOk(slots[s], b, s) && Fresh(slots[s], b.slots[s], now, config)
    {
      SlotAt(slots, a, -1, s);
      if s in touched {
        TouchedSlot(b, touched, s);
        TouchedTimed(slots[s], a, b, touched, s, now, config);
      } else {
        UntouchedView(a, b, touched, s);
        SlotKept(slots[s], a, b, s);
      }
    }
  }

  /** A touched slot hosts a session. */
  lemma TouchedSlot(b: World, touched: seq<u16>, s: u16)
    requires WorldOk(b) && Hosted(touched, b.books.ca) && s in touched
    ensures s < |b.slots| < 0x100 && !NoSessions(b.books, s)
  {
    var id :| id in b.books.ca && b.books.ca[id].slotId == s;
    BackedAt(b, id);
    WorldSizes(b);
    assert b.books.table[id - 1].Some?;
    assert OnSlot(b.books.table, id, s);
  }

  lemma SameCaInfo(a: World, b: World, r: Result<seq<u16>>, s: byte)
    requires ProgramsChanged(a, b, r)
    ensures SameInfo(a.books, b.books, s)
  {
    assert SameSessions(a.books.ca, b.books.ca);
    forall id: u16 ensures CaInformed(a.books.ca, s, id) <==> CaInformed(b.books.ca, s, id) {
      assert id in a.books.ca <==> id in b.books.ca;
    }
  }

  lemma UntouchedView(a: World, b: World, touched: seq<u16>, s: byte)
    requires WorldOk(a) && ProgramsChanged(a, b, Ok(touched)) && s < |a.slots| && s !in touched
    ensures SameView(a, b, s)
  {
    SameCaInfo(a, b, Ok(touched), s);
    WorldSizes(a);
    SameTable(a.books, b.books, s);
    assert s !in Elements(touched);
  }

  lemma TouchedTimed(c: CSlot, a: World, b: World, touched: seq<u16>, s: byte, now: nat, config: Config)
    requires ProgramsChanged(a, b, Ok(touched)) && SlotOk(c, a, s) && s < |a.slots|
    requires Fresh(c, a.slots[s], now, config) && !NoSessions(b.books, s)
    ensures ToBeTimed(c, b, s, now, config)
  {
    SameCaInfo(a, b, Ok(touched), s);
    SameTable(a.books, b.books, s);
    assert StillIssued(a.hist[s], b.hist[s]);
    hide AllIssued, NoSessions, AI.HasInfo, HasCaInfo, SameSessions, Hosted, OnlyTouched;
  }

  lemma TickStart(st: State, st': State, retry: nat, now: nat)
    requires StateOk(st, retry) && st' == st.(lastTick := Some(now))
    requires st.lastTick.Some? ==> st.lastTick.value <= now
    ensures CoreOk(st') && st'.pending == [] && Synchronized(st'.w) && AllOk(st'.slots, st'.w)
    ensures if st.deferred then MayReset(st.resets, retry, now) && !st.suspended
            else if st.suspended && (st.recoveryAt == None || now < st.recoveryAt.value) then StateOk(st', retry)
            else Running(st'.(suspended := false, recoveryAt := None), retry, now)
  {
    hide Replays, Foreign, ApplyAll, Synchronized, AllBut;
  }

  lemma CoreBounds(st: State, retry: nat)
    requires StateOk(st, retry)
    ensures 0 < |st.slots| == |st.w.slots| == |st.w.hist| < 0x100
    ensures st.deferred ==> !st.suspended && st.lastTick == None
  {
  }

  predicate OneMore<T(==)>(a: seq<T>, b: seq<T>) {
    |b| == |a| + 1 && a <= b
  }

  /** The automatic resets, the closings of the gate, and every reset of the device. */
  datatype ResetBook = ResetBook(resets: seq<ResetRecord>, closings: seq<GateClosing>, device: seq<bool>)

  /** One automatic reset: it is one reset of the device and closes the gate once. */
  predicate OneReset(before: ResetBook, after: ResetBook) {
    && OneMore(before.resets, after.resets)
    && OneMore(before.closings, after.closings)
    && after.device == before.device + [after.resets[|before.resets|].ok]
  }

  predicate AtMostOneReset(before: ResetBook, after: ResetBook) {
    after == before || OneReset(before, after)
  }

  predicate AtMostOneRelease(releases: seq<Release>, releases': seq<Release>) {
    releases <= releases' && |releases'| <= |releases| + 1
  }

  predicate IsSlotActive(slots: seq<CSlot>, slotId: byte) {
    slotId < |slots| && slots[slotId].status == SlotStatus.Active
  }

  /** A slot is active only after a tick, and only while the link is in use. */
  lemma ActiveRunning(st: State, retry: nat, s: byte)
    requires StateOk(st, retry) && IsSlotActive(st.slots, s)
    ensures st.lastTick.Some? && !st.suspended && !st.deferred && st.recoveryAt == None
    ensures MayReset(st.resets, retry, st.lastTick.value)
  {
    hide Replays, Foreign, AllBut, ApplyAll, Synchronized, MayReset;
  }

  lemma CommandedCore(st: State, st': State, s: byte, r: Result<()>)
    requires CoreOk(st) && st' == st.(w := st'.w) && Commanded(st.w, st'.w, s, r) && s < |st.slots|
    ensures CoreOk(st') && Controlled(st.w, st'.w, s)
    ensures r == Err(InvalidProperty) ==> st' == st
    ensures r.Err? && r.error != InvalidProperty ==> IsLinkError(r.error)
  {
    StepSizes(st.w, st'.w, s);
    CoreForeign(st);
    CoreStep(st, st', s);
    hide SlotStep, CoreOk;
  }

  /** A CA session lives on an active slot and is in sync with its module. */
  lemma CaSlot(st: State, id: u16, retry: nat)
    requires StateOk(st, retry) && WorldOk(st.w) && id in st.w.books.ca
    ensures var s := st.w.books.ca[id];
            && s.slotId < |st.slots| == |st.w.slots| == |st.w.hist| < 0x100
            && st.slots[s.slotId].status == SlotStatus.Active
            && Synced(s, id, st.w.programs, st.w.hist[s.slotId])
            && WellIssued(st.w.hist[s.slotId])
  {
    var s := st.w.books.ca[id];
    BackedAt(st.w, id);
    assert OnSlot(st.w.books.table, id, s.slotId);
    SyncedOn(st.w, id, s.slotId);
    SlotAt(st.slots, st.w, -1, s.slotId);
  }

  /** What the peer of a sound slot hears. */
  lemma OnTheWire(s: byte, t: TransportSlot, h: History)
    requires s < 0xFF && Sound(s, t, h, []) && WellIssued(h) && h.intact
    ensures var heard := Listen(Written(h.trace));
            && heard.legal && heard.received <= h.sent && HalfDuplex(h.trace)
            && (t.queue == [] ==> heard.received == h.sent)
  {
    assert Frames(s, h.sent) + [] == Frames(s, h.sent);
    WrittenPrefix(s, h.sent, Written(h.trace), t.queue);
  }

  lemma FineReceived<T>(a: World, b: World, s: byte, r: Result<T>)
    requires AllFine(a) && SlotStep(a, b, s) && StepBlameless(a, b, s, r) && r.Ok?
    ensures AllFine(b)
  {
    FineStep(a, b, s, r);
  }

  lemma DropFine(a: World, b: World, s: byte)
    requires SlotDropped(a, b, s)
    ensures AllFine(a) ==> AllFine(b)
  {
    hide OtherSlotsKept, NoLoss, Told;
  }

  lemma CommandFine(a: World, b: World, s: byte, r: Result<()>)
    requires AllFine(a) && Commanded(a, b, s, r) && r.Ok?
    ensures AllFine(b)
  {
    FineStep(a, b, s, r);
  }

  // ------------------------------------------------------------ between the ticks

  /** What receiving may do to a slot: without a frame of its own, nothing changes, and no
      traffic moves. */
  predicate FrameKept(c: CSlot, t: TransportSlot, c': CSlot, t': TransportSlot, framed: bool) {
    && CreateKept(c, c') && StatusHeard(c, c')
    && (!framed ==> c' == c && t' == t)
  }

  predicate Arrived(frames: seq<seq<byte>>, s: int) {
    exists k | 0 <= k < |frames| :: ForSlot(frames[k], s)
  }

  /** What was added to a record since. */
  function Since<T(==)>(before: seq<T>, after: seq<T>): (more: seq<T>)
    ensures before <= after ==> after == before + more
  {
    if before <= after then after[|before|..] else []
  }

  lemma SinceBehind<T>(first: seq<T>, before: seq<T>, after: seq<T>)
    requires before <= after
    ensures Since(first + before, first + after) == Since(before, after)
  {
    assert first + before <= first + after;
  }

  /** A handshake never opens the gate. */
  lemma {:induction false} GateUnopened(gate: Gate, told: seq<CaEvent>, lastTick: Option<nat>, settle: nat)
    ensures GateAfter(gate, told, lastTick, settle).Ready? ==> GateAfter(gate, told, lastTick, settle) == gate
    decreases |told|
  {
    if told != [] {
      GateUnopened(gate, told[..|told| - 1], lastTick, settle);
    }
  }

  lemma GateStays(gate: Gate, told: seq<CaEvent>, lastTick: Option<nat>, settle: nat)
    ensures GateAfter(gate, Since(told, told), lastTick, settle) == gate
  {
  }

  /** From one reading of the application's log to the next. */
  lemma GateOn(gate: Gate, a: seq<CaEvent>, b: seq<CaEvent>, c: seq<CaEvent>, lastTick: Option<nat>, settle: nat)
    requires a <= b <= c
    ensures GateAfter(gate, Since(a, c), lastTick, settle)
         == GateAfter(GateAfter(gate, Since(a, b), lastTick, settle), Since(b, c), lastTick, settle)
  {
    hide GateAfter;
    assert c == a + (Since(a, b) + Since(b, c));
    GateConcat(gate, Since(a, b), Since(b, c), lastTick, settle);
  }

  lemma SinceMore(before: seq<seq<byte>>, frames: seq<seq<byte>>)
    ensures Since(before, before + frames) == frames
  {
  }

  /** After receiving `frames`, slots without a frame among them are as they were. */
  predicate PollKept(slots: seq<CSlot>, t: seq<TransportSlot>, slots': seq<CSlot>, t': seq<TransportSlot>,
                     frames: seq<seq<byte>>)
  {
    && |slots| == |slots'| == |t| == |t'|
    && forall s | 0 <= s < |slots| :: FrameKept(slots[s], t[s], slots'[s], t'[s], Arrived(frames, s))
  }

  lemma KeptStatus(slots: seq<CSlot>, t: seq<TransportSlot>, slots': seq<CSlot>, t': seq<TransportSlot>,
                   frames: seq<seq<byte>>, s: nat)
    requires PollKept(slots, t, slots', t', frames) && s < |slots|
    ensures |slots'| == |slots| && StatusHeard(slots[s], slots'[s])
  {
    assert FrameKept(slots[s], t[s], slots'[s], t'[s], Arrived(frames, s));
  }

  lemma PollKeptRefl(slots: seq<CSlot>, t: seq<TransportSlot>, frames: seq<seq<byte>>)
    requires |slots| == |t|
    ensures PollKept(slots, t, slots, t, frames)
  {
  }

  lemma ArrivedMore(f: seq<seq<byte>>, g: seq<seq<byte>>, s: int)
    ensures Arrived(f + g, s) <==> Arrived(f, s) || Arrived(g, s)
  {
    hide ForSlot;
    if Arrived(f, s) {
      var k :| 0 <= k < |f| && ForSlot(f[k], s);
      assert ForSlot((f + g)[k], s);
    }
    if Arrived(g, s) {
      var k :| 0 <= k < |g| && ForSlot(g[k], s);
      assert ForSlot((f + g)[|f| + k], s);
    }
  }

  lemma PollKeptTrans(a: seq<CSlot>, ta: seq<TransportSlot>, b: seq<CSlot>, tb: seq<TransportSlot>,
                      c: seq<CSlot>, tc: seq<TransportSlot>, f: seq<seq<byte>>, g: seq<seq<byte>>)
    requires PollKept(a, ta, b, tb, f) && PollKept(b, tb, c, tc, g)
    ensures PollKept(a, ta, c, tc, f + g)
  {
    hide Arrived;
    forall s | 0 <= s < |a| ensures FrameKept(a[s], ta[s], c[s], tc[s], Arrived(f + g, s)) {
      ArrivedMore(f, g, s);
      assert FrameKept(a[s], ta[s], b[s], tb[s], Arrived(f, s));
      assert FrameKept(b[s], tb[s], c[s], tc[s], Arrived(g, s));
    }
  }

  /** The same from one reading of the link's deliveries to the next. */
  lemma PolledOn(a: seq<CSlot>, ta: seq<TransportSlot>, b: seq<CSlot>, tb: seq<TransportSlot>,
                 c: seq<CSlot>, tc: seq<TransportSlot>, r0: seq<seq<byte>>, r1: seq<seq<byte>>, r2: seq<seq<byte>>)
    requires r0 <= r1 <= r2
    requires PollKept(a, ta, b, tb, Since(r0, r1)) && PollKept(b, tb, c, tc, Since(r1, r2))
    ensures r0 <= r2 && PollKept(a, ta, c, tc, Since(r0, r2))
  {
    PollKeptTrans(a, ta, b, tb, c, tc, Since(r0, r1), Since(r1, r2));
    assert r2 == r0 + (Since(r0, r1) + Since(r1, r2));
    hide PollKept;
  }

  /** A command keeps every slot's state and whatever timer is running. */
  predicate Held(c: CSlot, c': CSlot) {
    && c'.status == c.status && c'.createSince == c.createSince
    && (c.commandSince.Some? || c.status == CreatingTc ==> c'.commandSince == c.commandSince)
  }

  predicate AllHeld(slots: seq<CSlot>, slots': seq<CSlot>) {
    |slots| == |slots'| && forall s | 0 <= s < |slots| :: Held(slots[s], slots'[s])
  }

  lemma StepTraffic(a: World, b: World, s: byte)
    requires SlotStep(a, b, s)
    ensures TrafficSame(a.slots, b.slots, s)
  {
  }

  lemma ControlledTraffic(a: World, b: World, s: byte)
    requires Controlled(a, b, s)
    ensures TrafficSame(a.slots, b.slots, s)
  {
    StepTraffic(a, b, s);
  }

  /** One slot was heard; the others are as they were. */
  predicate HeardOn(slots: seq<CSlot>, t: seq<TransportSlot>, slots': seq<CSlot>, t': seq<TransportSlot>, s: int) {
    && |slots| == |slots'| == |t| == |t'|
    && forall k | 0 <= k < |slots| :: FrameKept(slots[k], t[k], slots'[k], t'[k], k == s)
  }

  /** A slot was heard out, then acknowledged: only that slot saw anything. */
  lemma HandledKept(slots0: seq<CSlot>, t0: seq<TransportSlot>, slots1: seq<CSlot>, t1: seq<TransportSlot>,
                    slots2: seq<CSlot>, t2: seq<TransportSlot>, s: byte)
    requires AllCreateKept(slots0, slots1) && AllStatusHeard(slots0, slots1) && OthersSame(slots0, slots1, s)
    requires AllCreateKept(slots1, slots2) && AllStatusHeard(slots1, slots2) && OthersSame(slots1, slots2, s)
    requires TrafficSame(t0, t1, s) && TrafficSame(t1, t2, s) && |t0| == |slots0|
    ensures HeardOn(slots0, t0, slots2, t2, s)
  {
    forall k | 0 <= k < |slots0| ensures FrameKept(slots0[k], t0[k], slots2[k], t2[k], k == s as int) {
      assert CreateKept(slots0[k], slots1[k]) && CreateKept(slots1[k], slots2[k]);
      assert StatusHeard(slots0[k], slots1[k]) && StatusHeard(slots1[k], slots2[k]);
    }
  }

  /** The frame itself moved only its slot's traffic. */
  lemma FramedKept(slots: seq<CSlot>, t0: seq<TransportSlot>, t1: seq<TransportSlot>, slots': seq<CSlot>,
                   t': seq<TransportSlot>, s: int, frame: seq<byte>)
    requires TrafficSame(t0, t1, s) && HeardOn(slots, t1, slots', t', s) && ForSlot(frame, s)
    ensures PollKept(slots, t0, slots', t', [frame])
  {
    assert ForSlot([frame][0], s);
    forall k | 0 <= k < |slots| ensures FrameKept(slots[k], t0[k], slots'[k], t'[k], Arrived([frame], k)) {
      assert FrameKept(slots[k], t1[k], slots'[k], t'[k], k == s);
    }
  }

  lemma HeardOthers(slots: seq<CSlot>, t: seq<TransportSlot>, slots': seq<CSlot>, t': seq<TransportSlot>, s: byte)
    requires HeardOn(slots, t, slots', t', s)
    ensures OthersSame(slots, slots', s)
  {
    forall k | 0 <= k < |slots| && k != s as int ensures slots'[k] == slots[k] {
      assert FrameKept(slots[k], t[k], slots'[k], t'[k], k == s as int);
    }
  }

  lemma SameKept(slots: seq<CSlot>, t: seq<TransportSlot>, s: int)
    ensures AllCreateKept(slots, slots) && AllStatusHeard(slots, slots)
    ensures OthersSame(slots, slots, s) && TrafficSame(t, t, s)
  {
  }

  lemma GivenUp(st: State, retry: nat)
    requires StateOk(st, retry) && st.suspended
    ensures Resting(st.slots)
  {
  }

  lemma HeldRefl(slots: seq<CSlot>)
    ensures AllHeld(slots, slots)
  {
  }

  lemma MarkedHeld(slots: seq<CSlot>, slots': seq<CSlot>, s: nat, t: TransportSlot, now: nat)
    requires s < |slots| && slots[s].status == SlotStatus.Active && slots' == slots[s := Marked(slots[s], t, now)]
    ensures AllHeld(slots, slots')
  {
  }

  /** After a reset that was asked for, every module is in one state, present or not. */
  predicate Restarted(slots: seq<CSlot>, slots': seq<CSlot>, status: SlotStatus) {
    && |slots| == |slots'|
    && forall s | 0 <= s < |slots| ::
         && slots'[s].present == slots[s].present
         && slots'[s].status == if slots[s].present then status else SlotStatus.Absent
  }

  lemma TrafficRefl(t: seq<TransportSlot>, s: int)
    ensures TrafficSame(t, t, s)
  {
  }

  /** New flags alone, or the arrival of a module, leave every slot in order. */
  lemma FlagsSettled(slots: seq<CSlot>, slots': seq<CSlot>, w: World, s: byte)
    requires AllOk(slots, w) && s < |slots| == |slots'| && slots' == slots[s := slots'[s]]
    requires var c, c' := slots[s], slots'[s];
             c' == c.(present := c'.present, ready := c'.ready)
             || (c.status == SlotStatus.Absent && c' == c.(present := c'.present, ready := c'.ready, status := Present))
    requires slots'[s].status == SlotStatus.Absent <==> !slots'[s].present
    ensures AllOk(slots', w) && OthersSame(slots, slots', s)
  {
    SlotAt(slots, w, -1, s);
    FlagsOk(slots[s], slots'[s], w, s);
    OthersToo(slots, w, s);
    ButOnly(slots, slots', w, s);
    ButThis(slots', w, s);
  }

  /** The first `i` reports have been heard. */
  ghost predicate HeardSoFar(slots0: seq<CSlot>, slots: seq<CSlot>, w: World,
                             events0: seq<CaEvent>, events: seq<CaEvent>,
                             gate0: Gate, gate: Gate, all: seq<CaEvent>, i: nat, lastTick: Option<nat>, settle: nat)
  {
    && i <= |all|
    && slots == HeardAll(slots0, all[..i], w)
    && events == events0 + RelayedAll(slots0, all[..i], w)
    && gate == RearmedAll(gate0, slots0, all[..i], w, lastTick, settle)
  }

  lemma HeardStart(slots: seq<CSlot>, w: World, events: seq<CaEvent>, gate: Gate, all: seq<CaEvent>,
                   lastTick: Option<nat>, settle: nat)
    ensures HeardSoFar(slots, slots, w, events, events, gate, gate, all, 0, lastTick, settle)
  {
    HeardNothing(slots, w, gate, lastTick, settle);
    assert all[..0] == [] && events + [] == events;
  }

  lemma HeardNext(slots0: seq<CSlot>, slots: seq<CSlot>, slots': seq<CSlot>, w: World, events0: seq<CaEvent>,
                  events: seq<CaEvent>, events': seq<CaEvent>, gate0: Gate, gate: Gate, gate': Gate,
                  all: seq<CaEvent>, i: nat, lastTick: Option<nat>, settle: nat)
    requires HeardSoFar(slots0, slots, w, events0, events, gate0, gate, all, i, lastTick, settle)
    requires i < |all| && all[i].slotId < |slots| == |slots0|
    requires slots' == slots[all[i].slotId := Heard(slots[all[i].slotId], all[i], w)]
    requires events' == events + Relayed(slots[all[i].slotId], all[i], w)
    requires gate' == Rearmed(gate, slots[all[i].slotId], all[i], lastTick, settle)
    ensures HeardSoFar(slots0, slots', w, events0, events', gate0, gate', all, i + 1, lastTick, settle)
  {
    hide HeardAll, RelayedAll, RearmedAll, Heard, Relayed, Rearmed;
    HeardAppend(slots0, all[..i], all[i], w, gate0, lastTick, settle);
    assert all[..i + 1] == all[..i] + [all[i]];
    Assoc(events0, RelayedAll(slots0, all[..i], w), Relayed(slots[all[i].slotId], all[i], w));
  }

  lemma HeardWhole(slots0: seq<CSlot>, slots: seq<CSlot>, w: World, events0: seq<CaEvent>, events: seq<CaEvent>,
                   gate0: Gate, gate: Gate, all: seq<CaEvent>, lastTick: Option<nat>, settle: nat)
    requires HeardSoFar(slots0, slots, w, events0, events, gate0, gate, all, |all|, lastTick, settle)
    ensures slots == HeardAll(slots0, all, w) && events == events0 + RelayedAll(slots0, all, w)
    ensures gate == RearmedAll(gate0, slots0, all, w, lastTick, settle)
  {
    assert all[..|all|] == all;
  }

  lemma RunningSizes(st: State, retry: nat, now: nat)
    requires Running(st, retry, now)
    ensures 0 < |st.slots| == |st.w.slots| == |st.w.hist| < 0x100
  {
  }
}
