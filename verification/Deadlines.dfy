/** Whole runs of the controller, seen from outside: between any two calls a slot
    keeps its deadlines, so no run lets a connection outlive them. */
module Deadlines {
  import opened Basics
  import opened ControllerState
  import opened Events
  import opened Tpdu
  import opened Transport

  /** The controller between two calls: its slots, their traffic, every frame the link
      has delivered, and its clock. */
  datatype Moment = Moment(slots: seq<CSlot>, traffic: seq<TransportSlot>, received: seq<seq<byte>>,
                           clock: Option<nat>)

  /** The calls an application makes. A poll reads at most `readable` frames. */
  datatype Call = TickCall(now: nat) | PollCall(readable: nat) | CommandCall | ResetCall

  /** What one call may do to the deadlines: give the link up, or keep them. */
  predicate Passes(m: Moment, call: Call, m': Moment, config: Config) {
    && |m.slots| == |m'.slots| == |m.traffic| == |m'.traffic|
    && (call.TickCall? ==> m'.clock == Some(call.now))
    && (!call.TickCall? ==> m'.clock == m.clock)
    && m.received <= m'.received
    && |m'.received| <= |m.received| + (if call.PollCall? then call.readable else 0)
    && (Resting(m'.slots) || Keeps(m, call, m', config))
  }

  predicate Keeps(m: Moment, call: Call, m': Moment, config: Config) {
    match call
    case TickCall(now) =>
      && AllNotPutOff(m.slots, m.traffic, m'.slots)
      && AllFresh(m'.slots, m'.traffic, now, config)
    case PollCall(_) => PollKept(m.slots, m.traffic, m'.slots, m'.traffic, Since(m.received, m'.received))
    case CommandCall => AllHeld(m.slots, m'.slots)
    case ResetCall => forall s | 0 <= s < |m'.slots| :: m'.slots[s].status !in {CreatingTc, SlotStatus.Active}
  }

  /** A call and the moment after it. */
  datatype Entry = Entry(call: Call, after: Moment)

  /** Consecutive moments of one controller. */
  predicate IsRun(run: seq<Entry>, config: Config) {
    && (forall i | 0 <= i < |run| :: TimersPast(run[i].after.slots, run[i].after.clock))
    && (forall i | 0 < i < |run| :: Passes(run[i - 1].after, run[i].call, run[i].after, config))
  }

  predicate Has(m: Moment, s: nat, status: SlotStatus) {
    s < |m.slots| && m.slots[s].status == status
  }

  predicate Outstanding(m: Moment, s: nat) {
    s < |m.traffic| && !Idle(m.traffic[s])
  }

  function CreateTimer(m: Moment, s: nat): Option<nat> {
    if s < |m.slots| then m.slots[s].createSince else None
  }

  function CommandTimer(m: Moment, s: nat): Option<nat> {
    if s < |m.slots| then m.slots[s].commandSince else None
  }

  /** Between the two moments the link delivered no frame for the slot. */
  predicate Silent(m: Moment, m': Moment, s: nat) {
    forall k | |m.received| <= k < |m'.received| :: !ForSlot(m'.received[k], s)
  }

  lemma SilentStep(m: Moment, m': Moment, s: nat)
    requires m.received <= m'.received && Silent(m, m', s)
    ensures !Arrived(Since(m.received, m'.received), s)
  {
    var frames := Since(m.received, m'.received);
    forall k | 0 <= k < |frames| ensures !ForSlot(frames[k], s) {
      assert frames[k] == m'.received[|m.received| + k];
    }
  }

  /** Silence until the end of a run is silence on the way there. */
  lemma SilentBefore(run: seq<Entry>, config: Config, a: nat, b: nat, s: nat)
    requires IsRun(run, config) && a < b < |run| && Silent(run[a].after, run[b].after, s)
    requires run[a].after.received <= run[b - 1].after.received
    ensures Silent(run[a].after, run[b - 1].after, s) && Silent(run[b - 1].after, run[b].after, s)
  {
    assert Passes(run[b - 1].after, run[b].call, run[b].after, config);
    var until, all := run[b - 1].after.received, run[b].after.received;
    forall k | |run[a].after.received| <= k < |until| ensures !ForSlot(until[k], s) {
      assert all[k] == until[k];
    }
  }

  lemma {:induction false} OnlyMore(run: seq<Entry>, config: Config, a: nat, b: nat)
    requires IsRun(run, config) && a <= b < |run|
    ensures run[a].after.received <= run[b].after.received
    decreases b
  {
    if a < b {
      hide Passes;
      OnlyMore(run, config, a, b - 1);
      PassesMore(run[b - 1].after, run[b].call, run[b].after, config);
    }
  }

  lemma PassesMore(m: Moment, call: Call, m': Moment, config: Config)
    requires Passes(m, call, m', config)
    ensures m.received <= m'.received
  {
  }

  /** From one moment to the next, an active slot without a frame keeps the timer of
      what is outstanding. */
  lemma CommandTimerKept(m: Moment, call: Call, m': Moment, config: Config, s: nat, since: nat)
    requires Passes(m, call, m', config) && Silent(m, m', s)
    requires Has(m, s, SlotStatus.Active) && Outstanding(m, s) && m.slots[s].commandSince == Some(since)
    requires Has(m', s, SlotStatus.Active)
    ensures m'.slots[s].commandSince == Some(since)
  {
    match call {
      case TickCall(_) => assert NotPutOff(m.slots[s], m.traffic[s], m'.slots[s]);
      case PollCall(_) =>
        SilentStep(m, m', s);
        hide Silent, Arrived;
        assert FrameKept(m.slots[s], m.traffic[s], m'.slots[s], m'.traffic[s],
                         Arrived(Since(m.received, m'.received), s));
      case CommandCall => assert Held(m.slots[s], m'.slots[s]);
      case ResetCall =>
    }
  }

  /** From one moment to the next, a slot that goes on creating its connection keeps
      the timer of its TT_CREATE_TC. */
  lemma CreateTimerKept(m: Moment, call: Call, m': Moment, config: Config, s: nat)
    requires Passes(m, call, m', config)
    requires Has(m, s, CreatingTc) && Has(m', s, CreatingTc)
    ensures m.slots[s].createSince.Some? ==> m'.slots[s].createSince == m.slots[s].createSince
    ensures m'.slots[s].createSince == None ==> m'.slots[s].commandSince == m.slots[s].commandSince
  {
    match call {
      case TickCall(_) => assert NotPutOff(m.slots[s], m.traffic[s], m'.slots[s]);
      case PollCall(_) =>
        hide Arrived;
        assert FrameKept(m.slots[s], m.traffic[s], m'.slots[s], m'.traffic[s],
                         Arrived(Since(m.received, m'.received), s));
      case CommandCall => assert Held(m.slots[s], m'.slots[s]);
      case ResetCall =>
    }
  }

  /** While the slot stays active and busy without a frame, the timer that the run had
      at `a` is still the timer at `b`. */
  lemma {:induction false} CommandTimerStands(run: seq<Entry>, config: Config, s: nat, a: nat, b: nat, since: nat)
    requires IsRun(run, config) && a <= b < |run|
    requires forall i | a <= i <= b :: Has(run[i].after, s, SlotStatus.Active)
    requires forall i | a <= i < b :: Outstanding(run[i].after, s)
    requires Silent(run[a].after, run[b].after, s)
    requires CommandTimer(run[a].after, s) == Some(since)
    ensures CommandTimer(run[b].after, s) == Some(since)
    decreases b
  {
    if a < b {
      hide Passes, Silent;
      OnlyMore(run, config, a, b - 1);
      SilentBefore(run, config, a, b, s);
      CommandTimerStands(run, config, s, a, b - 1, since);
      assert Passes(run[b - 1].after, run[b].call, run[b].after, config);
      assert Outstanding(run[b - 1].after, s);
      CommandTimerKept(run[b - 1].after, run[b].call, run[b].after, config, s, since);
    }
  }

  lemma {:induction false} CreateTimerStands(run: seq<Entry>, config: Config, s: nat, a: nat, b: nat, since: nat)
    requires IsRun(run, config) && a <= b < |run|
    requires forall i | a <= i <= b :: Has(run[i].after, s, CreatingTc)
    requires CreateTimer(run[a].after, s) == Some(since)
    ensures CreateTimer(run[b].after, s) == Some(since)
    decreases b
  {
    if a < b {
      hide Passes;
      CreateTimerStands(run, config, s, a, b - 1, since);
      assert Passes(run[b - 1].after, run[b].call, run[b].after, config);
      CreateTimerKept(run[b - 1].after, run[b].call, run[b].after, config, s);
    }
  }

  lemma {:induction false} WriteTimerStands(run: seq<Entry>, config: Config, s: nat, a: nat, b: nat)
    requires IsRun(run, config) && a <= b < |run|
    requires forall i | a <= i <= b :: Has(run[i].after, s, CreatingTc)
    requires CreateTimer(run[b].after, s) == None
    ensures CreateTimer(run[a].after, s) == None
    ensures CommandTimer(run[b].after, s) == CommandTimer(run[a].after, s)
    decreases b
  {
    if a < b {
      hide Passes;
      assert Passes(run[b - 1].after, run[b].call, run[b].after, config);
      CreateTimerKept(run[b - 1].after, run[b].call, run[b].after, config, s);
      WriteTimerStands(run, config, s, a, b - 1);
    }
  }

  /** After a tick, everything that is timed is in time. */
  lemma TickFresh(run: seq<Entry>, config: Config, s: nat, b: nat)
    requires IsRun(run, config) && 0 < b < |run| && run[b].call.TickCall? && s < |run[b].after.slots|
    requires run[b].after.slots[s].status in {CreatingTc, SlotStatus.Active}
    ensures s < |run[b].after.traffic|
    ensures Fresh(run[b].after.slots[s], run[b].after.traffic[s], run[b].call.now, config)
  {
    hide Fresh;
    assert Passes(run[b - 1].after, run[b].call, run[b].after, config);
  }

  /** An active slot that stays busy or queued, and for which the link delivers no frame,
      is given up by the first tick at or after the response timeout, counted from the
      first tick that saw it; whatever polls, commands and ticks lie between. */
  lemma ActiveSlotIsRecovered(run: seq<Entry>, config: Config, s: nat, a: nat, b: nat)
    requires IsRun(run, config) && 0 < a < b < |run|
    requires run[a].call.TickCall? && run[b].call.TickCall?
    requires run[a].call.now < run[b].call.now && run[a].call.now + config.responseTimeout <= run[b].call.now
    requires forall i | a <= i < b :: Has(run[i].after, s, SlotStatus.Active) && Outstanding(run[i].after, s)
    requires Silent(run[a].after, run[b].after, s)
    ensures !Has(run[b].after, s, SlotStatus.Active)
  {
    if Has(run[b].after, s, SlotStatus.Active) {
      hide AllNotPutOff, AllFresh, PollKept, AllHeld, Resting, Silent;
      var first := run[a].after;
      TickFresh(run, config, s, a);
      assert Has(first, s, SlotStatus.Active) && Outstanding(first, s);
      var since := CommandTimer(first, s).value;
      assert TimersPast(first.slots, first.clock);
      assert Passes(run[a - 1].after, run[a].call, first, config);
      assert Past(CommandTimer(first, s), first.clock);
      CommandTimerStands(run, config, s, a, b, since);
      TickFresh(run, config, s, b);
      assert false;
    }
  }

  /** No tick leaves a slot creating its connection past the deadline of its
      TT_CREATE_TC, counted from when the link took it; and none leaves it there
      past the response timeout while the link has not taken it. */
  lemma CreatingSlotIsRecovered(run: seq<Entry>, config: Config, s: nat, a: nat, b: nat)
    requires IsRun(run, config) && a < b < |run| && run[b].call.TickCall?
    requires forall i | a <= i < b :: Has(run[i].after, s, CreatingTc)
    ensures CreateTimer(run[a].after, s).Some?
            && CreateTimer(run[a].after, s).value < run[b].call.now
            && CreateTimer(run[a].after, s).value + config.createTcTimeout <= run[b].call.now
            ==> !Has(run[b].after, s, CreatingTc)
    ensures CommandTimer(run[a].after, s).Some?
            && CommandTimer(run[a].after, s).value < run[b].call.now
            && CommandTimer(run[a].after, s).value + config.responseTimeout <= run[b].call.now
            && Has(run[b].after, s, CreatingTc)
            ==> CreateTimer(run[b].after, s).Some?
  {
    assert Has(run[a].after, s, CreatingTc);
    if Has(run[b].after, s, CreatingTc) {
      hide AllNotPutOff, AllFresh, PollKept, AllHeld, Resting;
      TickFresh(run, config, s, b);
      if CreateTimer(run[a].after, s).Some? {
        CreateTimerStands(run, config, s, a, b, CreateTimer(run[a].after, s).value);
      }
      if CreateTimer(run[b].after, s) == None {
        WriteTimerStands(run, config, s, a, b);
      }
    }
  }

  lemma TickPasses(m: Moment, m': Moment, now: nat, config: Config)
    requires AllNotPutOff(m.slots, m.traffic, m'.slots) && AllFresh(m'.slots, m'.traffic, now, config)
    requires m'.clock == Some(now) && m'.received == m.received
    ensures Passes(m, TickCall(now), m', config)
  {
  }

  lemma CommandPasses(m: Moment, m': Moment, config: Config)
    requires |m.slots| == |m'.slots| == |m.traffic| == |m'.traffic|
    requires m'.clock == m.clock && m'.received == m.received
    requires Resting(m'.slots) || AllHeld(m.slots, m'.slots)
    ensures Passes(m, CommandCall, m', config)
  {
  }

  lemma CommandRefl(m: Moment, config: Config)
    requires |m.slots| == |m.traffic|
    ensures Passes(m, CommandCall, m, config)
  {
    HeldRefl(m.slots);
    CommandPasses(m, m, config);
  }

  lemma ResetPasses(m: Moment, m': Moment, status: SlotStatus, config: Config)
    requires |m.slots| == |m'.slots| == |m.traffic| == |m'.traffic| && m'.clock == m.clock
    requires m'.received == m.received
    requires Restarted(m.slots, m'.slots, status) && status in {Present, SlotStatus.Failed}
    ensures Passes(m, ResetCall, m', config)
  {
  }

  /** A poll either kept every slot or gave the link up. */
  lemma Polled(m: Moment, st: State, retry: nat, readable: nat, received: seq<seq<byte>>, config: Config)
    requires StateOk(st, retry) && st.lastTick == m.clock
    requires m.received <= received && |received| <= |m.received| + readable
    requires st.suspended || PollKept(m.slots, m.traffic, st.slots, st.w.slots, Since(m.received, received))
    requires |m.slots| == |m.traffic| == |st.slots|
    ensures Passes(m, PollCall(readable), Moment(st.slots, st.w.slots, received, st.lastTick), config)
  {
    CoreBounds(st, retry);
    if st.suspended {
      GivenUp(st, retry);
    }
    hide StateOk, PollKept, Resting;
  }
}
