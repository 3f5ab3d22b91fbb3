/** One tick of the controller as values: what its parts do, and what they amount to. */
module TickSteps {
  import opened Basics
  import opened ControllerState
  import opened Device
  import opened Dispatching
  import opened Events
  import opened Pacer
  import opened Transport
  import opened World
  import DT = DateTime

  /** What a tick can touch, but for the resources' other tables. */
  datatype TickView = TickView(slots: seq<CSlot>, w: World, pace: PaceView, ledger: ResetBook, releases: seq<Release>,
                               readings: seq<Reading>, nextCheck: Option<nat>, writes: seq<Attempt>,
                               log: seq<CaEvent>, suspended: bool)

  predicate Sized(v: TickView) {
    |v.slots| == |v.w.slots| == |v.w.hist| < 0x100 && v.pace.changes == Changes(v.releases)
  }

  // ------------------------------------------------------------------ giving it up

  /** The link was given up, with one reset. */
  predicate Quits(a: TickView, b: TickView) {
    && Sized(b) && |b.slots| == |a.slots|
    && b.suspended && Resting(b.slots)
    && OneReset(a.ledger, b.ledger)
    && b.pace == a.pace.(gate := NotReady) && b.releases == a.releases
    && a.log <= b.log
  }

  /** A part of the tick that does not touch the pacing, nor reset anything. */
  predicate Goes(a: TickView, b: TickView) {
    && Sized(b) && |b.slots| == |a.slots|
    && b.suspended == a.suspended && b.ledger == a.ledger && b.pace == a.pace && b.releases == a.releases
    && a.log <= b.log
  }

  lemma GoesRefl(a: TickView)
    requires Sized(a)
    ensures Goes(a, a)
  {
  }

  lemma QuitsLater(a: TickView, b: TickView, c: TickView)
    requires Goes(a, b) && Quits(b, c)
    ensures Quits(a, c)
  {
    hide OneReset;
  }

  // --------------------------------------------------------------- physical flags

  predicate IsTime(deadline: Option<nat>, now: nat) {
    deadline == None || deadline.value <= now
  }

  function ReadSince(before: seq<Reading>, after: seq<Reading>): seq<Reading> {
    if before <= after then after[|before|..] else []
  }

  /** The flags of every slot were read, one after the other. */
  predicate AllRead(before: seq<Reading>, after: seq<Reading>, n: nat) {
    && before <= after && |ReadSince(before, after)| == n
    && forall s | 0 <= s < n :: IsReading(ReadSince(before, after)[s], s)
  }

  predicate IsReading(r: Reading, s: int) {
    r.slotId as int == s && r.info.Ok?
  }

  /** The flags of the slots were read in order, and those of this one could not be. */
  predicate FailedAt(before: seq<Reading>, after: seq<Reading>, s: byte) {
    && before <= after && |ReadSince(before, after)| == s as nat + 1
    && ReadSince(before, after)[s].slotId == s && ReadSince(before, after)[s].info.Err?
    && forall k | 0 <= k < s as int :: IsReading(ReadSince(before, after)[k], k)
  }

  /** Every slot follows the flags read for it. */
  predicate AllRechecked(slots: seq<CSlot>, slots': seq<CSlot>, before: seq<Reading>, after: seq<Reading>) {
    && |slots| == |slots'| && AllRead(before, after, |slots|)
    && forall s | 0 <= s < |slots| ::
         IsReading(ReadSince(before, after)[s], s)
         && slots'[s] == Rechecked(slots[s], ReadSince(before, after)[s].info.value)
  }

  predicate InfosOf(infos: seq<SlotInfo>, before: seq<Reading>, after: seq<Reading>) {
    && AllRead(before, after, |infos|)
    && forall s | 0 <= s < |infos| :: ReadSince(before, after)[s].info == Ok(infos[s])
  }

  predicate Follow(slots: seq<CSlot>, slots': seq<CSlot>, infos: seq<SlotInfo>) {
    |slots| == |slots'| == |infos| && forall s | 0 <= s < |slots| :: slots'[s] == Rechecked(slots[s], infos[s])
  }

  lemma AllFollow(slots: seq<CSlot>, slots': seq<CSlot>, infos: seq<SlotInfo>, before: seq<Reading>,
                  after: seq<Reading>)
    requires InfosOf(infos, before, after) && Follow(slots, slots', infos)
    ensures AllRechecked(slots, slots', before, after)
  {
    hide Rechecked;
  }

  /** The physical flags are read and followed when it is time, and left alone otherwise. */
  predicate Checks(a: TickView, b: TickView, now: nat, config: Config) {
    && Goes(a, b)
    && AllGoing(a.slots, a.w.slots, b.slots, b.w.slots)
    && DatesKept(a.w.books.dates, b.w.books.dates)
    && if IsTime(a.nextCheck, now) then
         && AllRechecked(a.slots, b.slots, a.readings, b.readings)
         && b.nextCheck == Some(now + config.slotStatusInterval)
       else b.slots == a.slots && b.readings == a.readings && b.nextCheck == a.nextCheck
  }

  // --------------------------------------------------------------- resource timers

  predicate DatesTicked(dates: map<u16, DT.DateTimeSession>, dates': map<u16, DT.DateTimeSession>, now: nat) {
    forall id | id in dates' :: id in dates && dates'[id] == DT.Ticked(dates[id], now)
  }

  /** The resource timers run; nothing else moves. */
  predicate Answers(a: TickView, b: TickView, now: nat) {
    && Goes(a, b) && b.slots == a.slots && b.readings == a.readings && b.nextCheck == a.nextCheck
    && DT.StillPending(a.w.slots, b.w.slots)
    && DatesTicked(a.w.books.dates, b.w.books.dates, now)
  }

  // ----------------------------------------------------------------------- driving

  predicate Drives(a: TickView, b: TickView, now: nat, config: Config) {
    && Goes(a, b) && b.readings == a.readings && b.nextCheck == a.nextCheck
    && AllDriven(a.slots, a.w, b.slots, b.w, a.writes, b.writes, now, config)
    && AllFresh(b.slots, b.w.slots, now, config)
    && b.w.books.dates == a.w.books.dates
  }

  // ------------------------------------------------------------------- dispatching

  /** At most one change is let out; unless the link fails under it, slots are only timed. */
  predicate Paces(a: TickView, b: TickView, now: nat) {
    && Sized(b) && |b.slots| == |a.slots| && a.log <= b.log
    && Dispatches(a.pace, now, b.pace, b.suspended) && AtMostOneRelease(a.releases, b.releases)
    && AllTimersKept(a.slots, b.slots)
    && if b.suspended && !a.suspended then OneReset(a.ledger, b.ledger)
       else b.suspended == a.suspended && b.ledger == a.ledger && OnlyTimed(a.slots, b.slots)
            && b.readings == a.readings && b.nextCheck == a.nextCheck
            && b.w.books.dates == a.w.books.dates
  }

  /** A change that was let out is applied, or the link fails under it. */
  predicate Applies(a: TickView, b: TickView) {
    && Sized(b) && |b.slots| == |a.slots| && a.log <= b.log && b.releases == a.releases
    && AllTimersKept(a.slots, b.slots)
    && b.pace == a.pace.(programs := b.pace.programs, gate := if b.suspended then NotReady else a.pace.gate)
    && if b.suspended then OneReset(a.ledger, b.ledger)
       else b.ledger == a.ledger && OnlyTimed(a.slots, b.slots)
            && b.readings == a.readings && b.nextCheck == a.nextCheck
            && b.w.books.dates == a.w.books.dates
  }

  lemma QuitApplies(a: TickView, b: TickView, c: TickView)
    requires b == a.(w := b.w, pace := a.pace.(programs := b.pace.programs), writes := b.writes) && Quits(b, c)
    ensures Applies(a, c)
  {
    hide OneReset, Changes;
  }

  lemma AppliesPaced(a0: TickView, a: TickView, b: TickView, now: nat, change: Change)
    requires a0.pace.gate.Ready? && IsDue(a0.pace, now) && a0.pace.queue == [change] + a.pace.queue
    requires a == a0.(pace := a.pace, releases := a.releases) && !a0.suspended
    requires a.pace == a0.pace.(gate := Gate.Ready(now), queue := a.pace.queue, changes := a0.pace.changes + [change])
    requires AtMostOneRelease(a0.releases, a.releases) && a0.pace.clock == Some(now)
    requires Applies(a, b) && b.pace.programs == Apply(a.pace.programs, change)
    ensures Paces(a0, b, now)
  {
    hide Apply, Changes, OneReset, AllTimersKept, OnlyTimed;
  }

  lemma NothingPaced(a0: TickView, a: TickView, now: nat)
    requires Sized(a0) && a0.pace.clock == Some(now) && (a0.suspended ==> a0.pace.gate == NotReady)
    requires a == a0.(pace := a0.pace.(gate := if IsDue(a0.pace, now) then Gate.Ready(now) else a0.pace.gate))
    requires !(a0.pace.gate.Ready? && IsDue(a0.pace, now) && a0.pace.queue != [])
    ensures Paces(a0, a, now)
  {
    hide Apply, Changes;
  }

  // ------------------------------------------------------------------- the whole tick

  /** The status a slot has after a tick that saw it so. */
  function NextStatus(c: CSlot, now: nat): SlotStatus {
    match c.status
    case Failed => if !RetryDue(c, now) then SlotStatus.Failed else if c.ready then CreatingTc else Present
    case Present => if c.ready then CreatingTc else Present
    case status => status
  }

  /** The flags were read when it was time; every slot's status follows from what it was
      and what was read, and its flags are those read last; and the date-time sessions
      that remain are ticked. */
  predicate Serviced(a: TickView, b: TickView, now: nat, config: Config) {
    && |b.slots| == |a.slots|
    && (if IsTime(a.nextCheck, now)
        then AllRead(a.readings, b.readings, |a.slots|) && b.nextCheck == Some(now + config.slotStatusInterval)
        else b.readings == a.readings && b.nextCheck == a.nextCheck)
    && (forall s | 0 <= s < |a.slots| ::
          var c := if IsTime(a.nextCheck, now) && IsReading(ReadSince(a.readings, b.readings)[s], s)
                   then Rechecked(a.slots[s], ReadSince(a.readings, b.readings)[s].info.value) else a.slots[s];
          && b.slots[s].status == NextStatus(c, now)
          && b.slots[s].present == c.present && b.slots[s].ready == c.ready && b.slots[s].cam == c.cam)
    && DatesTicked(a.w.books.dates, b.w.books.dates, now)
  }

  /** A tick while the link is in use: either everything is serviced and nothing is reset,
      or the link is given up with one reset. Either way every deadline is kept, and the
      changes are paced. */
  predicate Ticks(a: TickView, b: TickView, now: nat, config: Config) {
    && Sized(b) && |b.slots| == |a.slots| && a.log <= b.log
    && AllFresh(b.slots, b.w.slots, now, config)
    && AllNotPutOff(a.slots, a.w.slots, b.slots)
    && Dispatches(a.pace, now, b.pace, b.suspended) && AtMostOneRelease(a.releases, b.releases)
    && (if b.suspended then OneReset(a.ledger, b.ledger)
        else b.ledger == a.ledger && Serviced(a, b, now, config))
  }

  lemma QuitTicks(a: TickView, b: TickView, now: nat, config: Config)
    requires Sized(a) && Quits(a, b) && a.pace.clock == Some(now)
    ensures Ticks(a, b, now, config) && b.suspended
  {
    hide OneReset, Changes;
  }

  /** The parts of what a tick amounts to; the time of the tick before does not matter. */
  lemma TicksMean(a: TickView, b: TickView, c: TickView, now: nat, config: Config)
    requires Ticks(b, c, now, config) && b == a.(pace := a.pace.(clock := Some(now)))
    ensures Ticks(a, c, now, config) && |c.slots| == |a.slots| && a.log <= c.log
    ensures AllFresh(c.slots, c.w.slots, now, config) && AllNotPutOff(a.slots, a.w.slots, c.slots)
    ensures AtMostOneReset(a.ledger, c.ledger) && AtMostOneRelease(a.releases, c.releases)
    ensures Dispatches(a.pace, now, c.pace, c.suspended)
    ensures c.suspended ==> OneReset(a.ledger, c.ledger)
  {
    hide AllFresh, AllNotPutOff, OneReset, Apply, Changes;
  }

  lemma CheckedQuits(a: TickView, b: TickView, c: TickView, now: nat, config: Config)
    requires Sized(a) && Checks(a, b, now, config) && Quits(b, c) && a.pace.clock == Some(now)
    ensures Ticks(a, c, now, config) && c.suspended
  {
    QuitsLater(a, b, c);
    QuitTicks(a, c, now, config);
    hide Quits, Goes;
  }

  lemma AnsweredQuits(a: TickView, b: TickView, c: TickView, d: TickView, now: nat, config: Config)
    requires Checks(a, b, now, config) && Answers(b, c, now) && Quits(c, d)
    ensures Quits(a, d) && d.suspended
  {
    QuitsLater(b, c, d);
    QuitsLater(a, b, d);
    hide Goes;
  }

  /** Nothing is let out once the link is given up. */
  lemma QuitsStays(a: TickView, b: TickView, c: TickView, now: nat)
    requires Quits(a, b) && Paces(b, c, now) && a.pace.clock == Some(now)
    ensures Quits(a, c)
  {
    hide OneReset, Apply;
    assert Changes(c.releases) == Changes(b.releases);
    assert |c.releases| == |b.releases| && b.releases <= c.releases;
  }

  lemma DriveStatus(c: CSlot, t: TransportSlot, t': TransportSlot, now: nat, config: Config)
    ensures var c' := Drive(c, t, t', now, config);
            c'.status == NextStatus(c, now) && c'.present == c.present && c'.ready == c.ready && c'.cam == c.cam
  {
  }

  lemma ServicedWhole(a: TickView, b: TickView, c: TickView, d: TickView, e: TickView, now: nat, config: Config)
    requires Checks(a, b, now, config) && Answers(b, c, now) && Drives(c, d, now, config) && Paces(d, e, now)
    requires !e.suspended
    ensures Serviced(a, e, now, config)
  {
    hide AllGoing, DT.StillPending, DT.Ticked, AllFresh, OneReset, Dispatches, AllTimersKept, Changes, Rechecked,
      NextStatus, Drive, NotPutOff, Issues, Tried;
    forall s | 0 <= s < |a.slots|
      ensures e.slots[s].status == NextStatus(b.slots[s], now)
      ensures e.slots[s].present == b.slots[s].present && e.slots[s].ready == b.slots[s].ready
      ensures e.slots[s].cam == b.slots[s].cam
    {
      assert Advanced(c.slots[s], c.w.slots[s], c.w.hist[s], d.slots[s], d.w.slots[s], d.w.hist[s], c.writes, d.writes,
                      now, config);
      DriveStatus(c.slots[s], c.w.slots[s], d.w.slots[s], now, config);
    }
  }

  /** All parts of a tick, one after the other. */
  lemma TickWhole(a: TickView, b: TickView, c: TickView, d: TickView, e: TickView, now: nat, config: Config)
    requires Checks(a, b, now, config) && Answers(b, c, now) && Drives(c, d, now, config) && Paces(d, e, now)
    requires !a.suspended && AllFresh(e.slots, e.w.slots, now, config)
    ensures Ticks(a, e, now, config)
  {
    NotPutOffWhole(a.slots, a.w.slots, b.slots, b.w.slots, c.w, d.slots, d.w, c.writes, d.writes, now, config, e.slots);
    if !e.suspended {
      ServicedWhole(a, b, c, d, e, now, config);
    }
    hide AllGoing, DT.StillPending, AllFresh, OneReset, Dispatches, AllTimersKept, Changes, AllDriven, DatesTicked,
      DatesKept, OnlyTimed, AllRechecked, AllNotPutOff, Serviced;
  }
}
