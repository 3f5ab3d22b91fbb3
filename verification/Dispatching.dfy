/** Whole runs of the controller, seen by its program changes: what the ticks let out,
    and that a change waits no longer than the pacing makes it. */
module Dispatching {
  import opened Basics
  import opened CaPmt
  import opened Pacer

  /** What can be seen of the pacing between two calls: the gate, the waiting changes, the
      changes let out, the desired programs, the interval, and the time of the last tick. */
  datatype PaceView = PaceView(gate: Gate, queue: seq<Change>, changes: seq<Change>, programs: map<u16, Program>,
                               interval: nat, clock: Option<nat>)

  /** More than an interval has passed since the gate was armed or last used. */
  predicate IsDue(m: PaceView, now: nat) {
    m.gate != NotReady && m.gate.stamp + m.interval < now
  }

  /** The head of the queue is let out and applied. */
  predicate LetsOut(m: PaceView, m': PaceView) {
    && m.queue != [] && m'.queue == m.queue[1..]
    && m'.changes == m.changes + [m.queue[0]]
    && m'.programs == Apply(m.programs, m.queue[0])
  }

  predicate LetsNothingOut(m: PaceView, m': PaceView) {
    m'.queue == m.queue && m'.changes == m.changes && m'.programs == m.programs
  }

  /** One tick. A gate that is due opens; one that was open lets out the head of the queue,
      if there is any. Unless the link is given up, exactly then; giving it up closes the
      gate, and lets out at most that. */
  predicate Dispatches(m: PaceView, now: nat, m': PaceView, givenUp: bool) {
    var open := m.gate.Ready? && IsDue(m, now) && m.queue != [];
    && m'.interval == m.interval && m'.clock == Some(now)
    && m'.gate == (if givenUp then NotReady else if IsDue(m, now) then Ready(now) else m.gate)
    && (open && !givenUp ==> LetsOut(m, m'))
    && (open && givenUp ==> LetsOut(m, m') || LetsNothingOut(m, m'))
    && (!open ==> LetsNothingOut(m, m'))
  }

  /** A tick in which nothing was dispatched, because the gate was closed anyway. */
  lemma DispatchesNothing(m: PaceView, now: nat, m': PaceView)
    requires m.gate == NotReady && m' == m.(clock := Some(now))
    ensures Dispatches(m, now, m', true)
  {
  }

  /** A push, by the rules of coalescing. */
  function Enqueued(queue: seq<Change>, c: Change): seq<Change> {
    match c
    case Set(p) => WithoutSets(queue, p.number) + [c]
    case Remove(n) => Without(queue, n) + [c]
  }

  /** The calls an application makes, and whether a tick leaves the link given up. */
  datatype Turn = TickTurn(now: nat, givenUp: bool) | Push(change: Change) | NewInterval(interval: nat) | OtherCall

  predicate Proceeds(m: PaceView, turn: Turn, m': PaceView) {
    match turn
    case TickTurn(now, givenUp) => Dispatches(m, now, m', givenUp)
    case Push(c) => m' == m.(queue := Enqueued(m.queue, c))
    case NewInterval(interval) => m' == m.(interval := interval)
    case OtherCall => OnlyGate(m, m')
  }

  /** Nothing moves but the gate, and that is not opened. */
  predicate OnlyGate(m: PaceView, m': PaceView) {
    m' == m.(gate := m'.gate) && (m'.gate.Ready? ==> m'.gate == m.gate)
  }

  lemma TickProceeds(m: PaceView, now: nat, m': PaceView, givenUp: bool)
    requires Dispatches(m, now, m', givenUp)
    ensures Proceeds(m, TickTurn(now, givenUp), m')
  {
  }

  lemma OtherProceeds(m: PaceView, m': PaceView)
    requires OnlyGate(m, m')
    ensures Proceeds(m, OtherCall, m')
  {
  }

  // ---------------------------------------------------------------------- the queue

  /** A push of another program moves no change back. */
  lemma {:induction false} WithoutKeeps(queue: seq<Change>, n: u16, q: nat)
    requires q < |queue| && queue[q].ProgramNumber() != n
    ensures exists k | 0 <= k <= q && k < |Without(queue, n)| :: Without(queue, n)[k] == queue[q]
    decreases |queue|
  {
    var front, last := queue[..|queue| - 1], |queue| - 1;
    if q < last {
      WithoutKeeps(front, n, q);
      var k :| 0 <= k <= q && k < |Without(front, n)| && Without(front, n)[k] == front[q];
      assert Without(queue, n)[k] == queue[q];
    } else {
      WithoutShorter(front, n);
      assert Without(queue, n)[|Without(front, n)|] == queue[q];
    }
  }

  lemma {:induction false} WithoutShorter(queue: seq<Change>, n: u16)
    ensures |Without(queue, n)| <= |queue| && |WithoutSets(queue, n)| <= |queue|
    decreases |queue|
  {
    if queue != [] {
      WithoutShorter(queue[..|queue| - 1], n);
    }
  }

  lemma {:induction false} WithoutSetsKeeps(queue: seq<Change>, n: u16, q: nat)
    requires q < |queue| && queue[q].ProgramNumber() != n
    ensures exists k | 0 <= k <= q && k < |WithoutSets(queue, n)| :: WithoutSets(queue, n)[k] == queue[q]
    decreases |queue|
  {
    var front, last := queue[..|queue| - 1], |queue| - 1;
    if q < last {
      WithoutSetsKeeps(front, n, q);
      var k :| 0 <= k <= q && k < |WithoutSets(front, n)| && WithoutSets(front, n)[k] == front[q];
      assert WithoutSets(queue, n)[k] == queue[q];
    } else {
      WithoutShorter(front, n);
      assert WithoutSets(queue, n)[|WithoutSets(front, n)|] == queue[q];
    }
  }

  lemma EnqueuedKeeps(queue: seq<Change>, c: Change, q: nat)
    requires q < |queue| && queue[q].ProgramNumber() != c.ProgramNumber()
    ensures exists k | 0 <= k <= q && k < |Enqueued(queue, c)| :: Enqueued(queue, c)[k] == queue[q]
  {
    match c {
      case Set(p) =>
        WithoutSetsKeeps(queue, p.number, q);
        var k :| 0 <= k <= q && k < |WithoutSets(queue, p.number)| && WithoutSets(queue, p.number)[k] == queue[q];
        assert Enqueued(queue, c)[k] == queue[q];
      case Remove(n) =>
        WithoutKeeps(queue, n, q);
        var k :| 0 <= k <= q && k < |Without(queue, n)| && Without(queue, n)[k] == queue[q];
        assert Enqueued(queue, c)[k] == queue[q];
    }
  }

  // --------------------------------------------------------------------------- runs

  /** A call and what can be seen after it. */
  datatype Step = Step(turn: Turn, after: PaceView)

  /** Consecutive moments of one controller. */
  predicate IsPacedRun(run: seq<Step>) {
    forall i | 0 < i < |run| :: Proceeds(run[i - 1].after, run[i].turn, run[i].after)
  }

  /** From one moment to the next: the gate is not closed, and moved by ticks alone, the
      interval is as it was, ticks come within `gap`, and nobody pushes another change of
      the program. */
  predicate Steady(m: PaceView, turn: Turn, m': PaceView, n: u16, gap: nat) {
    && m.gate != NotReady && m'.gate != NotReady && m'.interval == m.interval
    && (!turn.TickTurn? ==> m'.gate == m.gate)
    && (turn.TickTurn? && m.clock.Some? ==> turn.now <= m.clock.value + gap)
    && (turn.Push? ==> turn.change.ProgramNumber() != n)
  }

  /** How many due ticks a change at place `q` sees before the one that lets it out: those
      for the changes before it, and one that opens the gate. */
  function Turns(gate: Gate, q: nat): nat {
    if gate.Ready? then q else q + 1
  }

  /** The change is at place `q` of the queue, as early as it must be: `start` is when the
      wait began, with `turns` due ticks ahead. */
  predicate WaitsAt(m: PaceView, c: Change, q: nat, turns: nat, start: nat, gap: nat) {
    && q < |m.queue| && m.queue[q] == c && m.gate != NotReady && Turns(m.gate, q) <= turns && m.clock.Some?
    && m.gate.stamp <= start + (turns - Turns(m.gate, q)) * (m.interval + gap)
    && (m.clock.value <= m.gate.stamp + m.interval || m.clock.value <= start)
  }

  ghost predicate Waits(m: PaceView, c: Change, turns: nat, start: nat, gap: nat) {
    exists q: nat :: WaitsAt(m, c, q, turns, start, gap)
  }

  lemma Longer(i: nat, j: nat, pause: nat)
    requires i <= j
    ensures i * pause <= j * pause && (i + 1) * pause == i * pause + pause
  {
  }

  lemma WaitTick(m: PaceView, turn: Turn, m': PaceView, c: Change, q: nat, turns: nat, start: nat, gap: nat)
    requires turn.TickTurn? && Proceeds(m, turn, m') && Steady(m, turn, m', c.ProgramNumber(), gap)
    requires WaitsAt(m, c, q, turns, start, gap)
    ensures Waits(m', c, turns, start, gap) || m'.changes == m.changes + [c]
  {
    hide Apply;
    if !IsDue(m, turn.now) {
      assert WaitsAt(m', c, q, turns, start, gap);
    } else {
      var left := turns - Turns(m.gate, q);
      Longer(left, turns, m.interval + gap);
      assert turn.now <= start + left * (m.interval + gap) + (m.interval + gap);
      if m.gate.Armed? {
        assert WaitsAt(m', c, q, turns, start, gap);
      } else if q > 0 {
        assert m'.queue[q - 1] == c;
        assert WaitsAt(m', c, q - 1, turns, start, gap);
      }
    }
  }

  lemma WaitPush(m: PaceView, turn: Turn, m': PaceView, c: Change, q: nat, turns: nat, start: nat, gap: nat)
    requires turn.Push? && Proceeds(m, turn, m') && Steady(m, turn, m', c.ProgramNumber(), gap)
    requires WaitsAt(m, c, q, turns, start, gap)
    ensures Waits(m', c, turns, start, gap)
  {
    hide Enqueued;
    EnqueuedKeeps(m.queue, turn.change, q);
    var k :| 0 <= k <= q && k < |Enqueued(m.queue, turn.change)| && Enqueued(m.queue, turn.change)[k] == m.queue[q];
    Longer(turns - Turns(m.gate, q), turns - Turns(m.gate, k), m.interval + gap);
    assert WaitsAt(m', c, k, turns, start, gap);
  }

  lemma WaitStep(m: PaceView, turn: Turn, m': PaceView, c: Change, q: nat, turns: nat, start: nat, gap: nat)
    requires Proceeds(m, turn, m') && Steady(m, turn, m', c.ProgramNumber(), gap)
    requires WaitsAt(m, c, q, turns, start, gap)
    ensures Waits(m', c, turns, start, gap) || m'.changes == m.changes + [c]
  {
    match turn {
      case TickTurn(_, _) => WaitTick(m, turn, m', c, q, turns, start, gap);
      case Push(_) => WaitPush(m, turn, m', c, q, turns, start, gap);
      case _ => assert WaitsAt(m', c, q, turns, start, gap);
    }
  }

  lemma ChangesGrow(m: PaceView, turn: Turn, m': PaceView)
    requires Proceeds(m, turn, m')
    ensures m.changes <= m'.changes
  {
  }

  lemma {:induction false} StillWaits(run: seq<Step>, c: Change, turns: nat, a: nat, b: nat, start: nat, gap: nat)
    requires IsPacedRun(run) && a <= b < |run|
    requires forall i | a < i <= b ::
               Steady(run[i - 1].after, run[i].turn, run[i].after, c.ProgramNumber(), gap)
    requires Waits(run[a].after, c, turns, start, gap)
    ensures run[a].after.changes <= run[b].after.changes
    ensures Waits(run[b].after, c, turns, start, gap) || c in run[b].after.changes[|run[a].after.changes|..]
    decreases b
  {
    hide Proceeds, Steady, WaitsAt, Waits;
    if a < b {
      StillWaits(run, c, turns, a, b - 1, start, gap);
      var m, m', base := run[b - 1].after, run[b].after, |run[a].after.changes|;
      assert Proceeds(m, run[b].turn, m') && Steady(m, run[b].turn, m', c.ProgramNumber(), gap);
      ChangesGrow(m, run[b].turn, m');
      if c in m.changes[base..] {
        assert m.changes[base..] <= m'.changes[base..];
      } else {
        var q := WaitPlace(m, c, turns, start, gap);
        WaitStep(m, run[b].turn, m', c, q, turns, start, gap);
        if m'.changes == m.changes + [c] {
          assert m'.changes[base..] == m.changes[base..] + [c];
        }
      }
    }
  }

  lemma WaitPlace(m: PaceView, c: Change, turns: nat, start: nat, gap: nat) returns (q: nat)
    requires Waits(m, c, turns, start, gap)
    ensures WaitsAt(m, c, q, turns, start, gap)
  {
    q :| WaitsAt(m, c, q, turns, start, gap);
  }

  function Latest(x: nat, y: nat): nat {
    if x < y then y else x
  }

  lemma WaitStart(m: PaceView, k: nat, gap: nat)
    requires k < |m.queue| && m.gate != NotReady && m.clock.Some?
    ensures Waits(m, m.queue[k], Turns(m.gate, k), Latest(m.clock.value, m.gate.stamp), gap)
  {
    assert WaitsAt(m, m.queue[k], k, Turns(m.gate, k), Latest(m.clock.value, m.gate.stamp), gap);
  }

  lemma InTime(m: PaceView, c: Change, q: nat, turns: nat, start: nat, gap: nat)
    requires WaitsAt(m, c, q, turns, start, gap)
    ensures m.clock.value <= start + m.interval + turns * (m.interval + gap)
  {
    Longer(turns - Turns(m.gate, q), turns, m.interval + gap);
  }

  lemma {:induction false} SameInterval(run: seq<Step>, a: nat, b: nat, n: u16, gap: nat)
    requires a <= b < |run|
    requires forall i | a < i <= b :: Steady(run[i - 1].after, run[i].turn, run[i].after, n, gap)
    ensures run[b].after.interval == run[a].after.interval
    decreases b
  {
    if a < b {
      SameInterval(run, a, b - 1, n, gap);
      assert Steady(run[b - 1].after, run[b].turn, run[b].after, n, gap);
    }
  }

  /** While the gate is not closed and ticks come within `gap` of each other, a change leaves
      the queue in time. The one at place `k`, with none of its program pushed after it, takes
      `k` due ticks, and one more if the gate is still to open: it has been let out by any
      moment later than an interval, and as many times an interval and a gap, from when it
      was seen there, or from the end of the hold if that is later. */
  lemma ChangeLeavesInTime(run: seq<Step>, a: nat, b: nat, k: nat, gap: nat)
    requires IsPacedRun(run) && a <= b < |run| && k < |run[a].after.queue| && run[a].after.gate != NotReady
    requires forall i | a < i <= b ::
               Steady(run[i - 1].after, run[i].turn, run[i].after, run[a].after.queue[k].ProgramNumber(), gap)
    requires run[a].after.clock.Some? && run[b].after.clock.Some?
    requires var m := run[a].after;
             Latest(m.clock.value, m.gate.stamp) + m.interval + Turns(m.gate, k) * (m.interval + gap)
             < run[b].after.clock.value
    ensures |run[a].after.changes| <= |run[b].after.changes|
    ensures run[a].after.queue[k] in run[b].after.changes[|run[a].after.changes|..]
  {
    hide IsPacedRun, Steady, WaitsAt, Waits;
    var m, c := run[a].after, run[a].after.queue[k];
    var start, turns := Latest(m.clock.value, m.gate.stamp), Turns(m.gate, k);
    WaitStart(m, k, gap);
    StillWaits(run, c, turns, a, b, start, gap);
    if Waits(run[b].after, c, turns, start, gap) {
      SameInterval(run, a, b, c.ProgramNumber(), gap);
      var q := WaitPlace(run[b].after, c, turns, start, gap);
      InTime(run[b].after, c, q, turns, start, gap);
      assert false;
    }
  }
}
