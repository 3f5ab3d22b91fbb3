/** CA_PMT pacing: a deduplicated queue of program changes behind a readiness
    gate. Times are on one unbounded clock that never runs backwards. */
module Pacer {
  import opened Basics
  import opened CaPmt

  datatype Change = Set(program: Program) | Remove(number: u16) {
    function ProgramNumber(): u16 {
      match this
      case Set(p) => p.number
      case Remove(n) => n
    }
  }

  /** `stamp` is the start of the current pacing interval. */
  datatype Gate = NotReady | Armed(stamp: nat) | Ready(stamp: nat)

  // ------------------------------------------------------------ what changes mean

  function Apply(programs: map<u16, Program>, c: Change): map<u16, Program> {
    match c
    case Set(p) => programs[p.number := p]
    case Remove(n) => programs - {n}
  }

  function ApplyAll(programs: map<u16, Program>, changes: seq<Change>): map<u16, Program> {
    if changes == [] then programs
    else Apply(ApplyAll(programs, changes[..|changes| - 1]), changes[|changes| - 1])
  }

  /** The last change of one program. */
  function Last(changes: seq<Change>, n: u16): Option<Change> {
    if changes == [] then None
    else
      var last := changes[|changes| - 1];
      if last.ProgramNumber() == n then Some(last) else Last(changes[..|changes| - 1], n)
  }

  function At(programs: map<u16, Program>, n: u16): Option<Program> {
    if n in programs then Some(programs[n]) else None
  }

  /** Only the last change of a program matters for that program. */
  lemma {:induction false} LastDecides(programs: map<u16, Program>, changes: seq<Change>, n: u16)
    ensures At(ApplyAll(programs, changes), n)
         == match Last(changes, n)
            case None => At(programs, n)
            case Some(Set(p)) => Some(p)
            case Some(Remove(_)) => None
    decreases |changes|
  {
    if changes != [] {
      LastDecides(programs, changes[..|changes| - 1], n);
    }
  }

  ghost predicate SameLast(a: seq<Change>, b: seq<Change>) {
    forall n: u16 :: Last(a, n) == Last(b, n)
  }

  lemma SameEffect(programs: map<u16, Program>, a: seq<Change>, b: seq<Change>)
    requires SameLast(a, b)
    ensures ApplyAll(programs, a) == ApplyAll(programs, b)
  {
    var x, y := ApplyAll(programs, a), ApplyAll(programs, b);
    hide ApplyAll;
    forall n: u16 ensures At(x, n) == At(y, n) {
      LastDecides(programs, a, n);
      LastDecides(programs, b, n);
    }
    SameMap(x, y);
  }

  lemma SameMap(x: map<u16, Program>, y: map<u16, Program>)
    requires forall n: u16 :: At(x, n) == At(y, n)
    ensures x == y
  {
    forall n: u16 ensures n in x <==> n in y {
      assert At(x, n) == At(y, n);
    }
    assert x.Keys == y.Keys;
    forall n | n in x ensures x[n] == y[n] {
      assert At(x, n) == At(y, n);
    }
  }

  lemma {:induction false} ApplyConcat(programs: map<u16, Program>, a: seq<Change>, b: seq<Change>)
    ensures ApplyAll(programs, a + b) == ApplyAll(ApplyAll(programs, a), b)
    decreases |b|
  {
    if b == [] {
      assert a + b == a;
    } else {
      assert (a + b)[..|a + b| - 1] == a + b[..|b| - 1];
      ApplyConcat(programs, a, b[..|b| - 1]);
    }
  }

  lemma LastAppend(a: seq<Change>, c: Change, n: u16)
    ensures Last(a + [c], n) == if c.ProgramNumber() == n then Some(c) else Last(a, n)
  {
    assert (a + [c])[..|a|] == a;
  }

  lemma {:induction false} LastConcat(a: seq<Change>, b: seq<Change>, n: u16)
    ensures Last(a + b, n) == if Last(b, n) == None then Last(a, n) else Last(b, n)
    decreases |b|
  {
    if b == [] {
      assert a + b == a;
    } else {
      assert (a + b)[..|a + b| - 1] == a + b[..|b| - 1];
      LastConcat(a, b[..|b| - 1], n);
    }
  }

  // -------------------------------------------------------------------- coalescing

  /** The queue without the queued selects of one program. */
  function WithoutSets(queue: seq<Change>, n: u16): seq<Change> {
    if queue == [] then []
    else
      var front, last := WithoutSets(queue[..|queue| - 1], n), queue[|queue| - 1];
      if last.Set? && last.ProgramNumber() == n then front else front + [last]
  }

  /** The queue without any change of one program. */
  function Without(queue: seq<Change>, n: u16): seq<Change> {
    if queue == [] then []
    else
      var front, last := Without(queue[..|queue| - 1], n), queue[|queue| - 1];
      if last.ProgramNumber() == n then front else front + [last]
  }

  /** The queued changes of one program, in order. */
  function Of(queue: seq<Change>, n: u16): seq<Change> {
    if queue == [] then []
    else
      var front, last := Of(queue[..|queue| - 1], n), queue[|queue| - 1];
      if last.ProgramNumber() == n then front + [last] else front
  }

  /** Nothing, a select, a remove, or a remove ahead of a select. */
  predicate Coalesced(changes: seq<Change>) {
    || changes == []
    || (|changes| == 1)
    || (|changes| == 2 && changes[0].Remove? && changes[1].Set?)
  }

  ghost predicate QueueOk(queue: seq<Change>) {
    forall n: u16 :: Coalesced(Of(queue, n))
  }

  lemma OfAppend(queue: seq<Change>, c: Change, n: u16)
    ensures Of(queue + [c], n) == if c.ProgramNumber() == n then Of(queue, n) + [c] else Of(queue, n)
  {
    assert (queue + [c])[..|queue|] == queue;
  }

  function RemovesOf(changes: seq<Change>): seq<Change> {
    if changes == [] then []
    else
      var front, last := RemovesOf(changes[..|changes| - 1]), changes[|changes| - 1];
      if last.Set? then front else front + [last]
  }

  lemma {:induction false} WithoutSetsOf(queue: seq<Change>, n: u16, m: u16)
    ensures Of(WithoutSets(queue, n), m) == if m == n then RemovesOf(Of(queue, n)) else Of(queue, m)
    ensures m != n ==> Last(WithoutSets(queue, n), m) == Last(queue, m)
    decreases |queue|
  {
    if queue != [] {
      var front, last := queue[..|queue| - 1], queue[|queue| - 1];
      WithoutSetsOf(front, n, m);
      OfAppend(WithoutSets(front, n), last, m);
      LastAppend(WithoutSets(front, n), last, m);
      var own := Of(front, n) + [last];
      assert own[..|own| - 1] == Of(front, n);
    }
  }

  lemma {:induction false} WithoutOf(queue: seq<Change>, n: u16, m: u16)
    ensures Of(Without(queue, n), m) == if m == n then [] else Of(queue, m)
    ensures m != n ==> Last(Without(queue, n), m) == Last(queue, m)
    decreases |queue|
  {
    if queue != [] {
      var front, last := queue[..|queue| - 1], queue[|queue| - 1];
      WithoutOf(front, n, m);
      OfAppend(Without(front, n), last, m);
      LastAppend(Without(front, n), last, m);
    }
  }

  lemma CoalescedRemoves(changes: seq<Change>)
    requires Coalesced(changes)
    ensures RemovesOf(changes) == [] || (|RemovesOf(changes)| == 1 && RemovesOf(changes)[0].Remove?)
  {
    if |changes| == 2 {
      assert changes[..1] == [changes[0]];
      assert [changes[0]][..0] == [];
    } else if |changes| == 1 {
      assert changes[..0] == [];
    }
  }

  /** A select replaces the queued select and stays behind a queued remove. */
  lemma PushSetKeeps(released: seq<Change>, queue: seq<Change>, history: seq<Change>, p: Program)
    requires QueueOk(queue) && SameLast(released + queue, history)
    ensures var queue' := WithoutSets(queue, p.number) + [Set(p)];
            && QueueOk(queue') && SameLast(released + queue', history + [Set(p)])
            && Of(queue', p.number) == RemovesOf(Of(queue, p.number)) + [Set(p)]
            && forall m: u16 | m != p.number :: Of(queue', m) == Of(queue, m)
  {
    var kept := WithoutSets(queue, p.number);
    var queue' := kept + [Set(p)];
    forall m: u16
      ensures Coalesced(Of(queue', m)) && Last(released + queue', m) == Last(history + [Set(p)], m)
      ensures Of(queue', m) == if m == p.number then RemovesOf(Of(queue, m)) + [Set(p)] else Of(queue, m)
    {
      WithoutSetsOf(queue, p.number, m);
      OfAppend(kept, Set(p), m);
      CoalescedRemoves(Of(queue, p.number));
      LastConcat(released, queue', m);
      LastConcat(released, queue, m);
      LastAppend(kept, Set(p), m);
      LastAppend(history, Set(p), m);
      assert Last(released + queue, m) == Last(history, m) && Coalesced(Of(queue, m));
    }
  }

  /** A remove replaces every queued change of its program. */
  lemma PushRemoveKeeps(released: seq<Change>, queue: seq<Change>, history: seq<Change>, n: u16)
    requires QueueOk(queue) && SameLast(released + queue, history)
    ensures var queue' := Without(queue, n) + [Remove(n)];
            && QueueOk(queue') && SameLast(released + queue', history + [Remove(n)])
            && Of(queue', n) == [Remove(n)]
            && forall m: u16 | m != n :: Of(queue', m) == Of(queue, m)
  {
    var kept := Without(queue, n);
    var queue' := kept + [Remove(n)];
    forall m: u16
      ensures Coalesced(Of(queue', m)) && Last(released + queue', m) == Last(history + [Remove(n)], m)
      ensures Of(queue', m) == if m == n then [Remove(n)] else Of(queue, m)
    {
      WithoutOf(queue, n, m);
      OfAppend(kept, Remove(n), m);
      LastConcat(released, queue', m);
      LastConcat(released, queue, m);
      LastAppend(kept, Remove(n), m);
      LastAppend(history, Remove(n), m);
      assert Last(released + queue, m) == Last(history, m) && Coalesced(Of(queue, m));
    }
  }

  lemma {:induction false} OfTail(queue: seq<Change>, n: u16)
    requires queue != []
    ensures Of(queue, n) == (if queue[0].ProgramNumber() == n then [queue[0]] else []) + Of(queue[1..], n)
    decreases |queue|
  {
    if |queue| > 1 {
      var front, last := queue[..|queue| - 1], queue[|queue| - 1];
      OfTail(front, n);
      assert front[1..] == queue[1..][..|queue| - 2];
    }
  }

  /** Taking the head out keeps the queue coalesced. */
  lemma PopKeeps(queue: seq<Change>)
    requires QueueOk(queue) && queue != []
    ensures QueueOk(queue[1..])
  {
    forall n: u16 ensures Coalesced(Of(queue[1..], n)) {
      OfTail(queue, n);
      assert Coalesced(Of(queue, n));
    }
  }

  // ------------------------------------------------------------------------ pacing

  /** A released change: when, the interval then in force, and the opening of the
      gate it went through. */
  datatype Release = Release(at: nat, interval: nat, change: Change, opening: Opening)

  /** The handshake that armed the gate, the extra hold it asked for, and the poll
      that opened the gate. */
  datatype Opening = Opening(armedAt: nat, hold: nat, openedAt: nat, interval: nat)

  /** The gate was closed at a time when so many changes had been let out. */
  datatype GateClosing = GateClosing(at: nat, released: nat)

  /** The gate opened more than an interval (and the hold) after the handshake. */
  predicate OpeningOk(o: Opening) {
    o.armedAt + o.hold + o.interval < o.openedAt
  }

  /** Whatever is let out after a closing went through an opening whose handshake
      came no earlier than that closing. */
  predicate Reopened(closings: seq<GateClosing>, releases: seq<Release>) {
    forall k, i | 0 <= k < |closings| && closings[k].released <= i < |releases| ::
      closings[k].at <= releases[i].opening.armedAt
  }

  /** More than an interval since the opening, and since the release before. */
  predicate Paced(releases: seq<Release>) {
    && (forall i | 0 <= i < |releases| ::
          OpeningOk(releases[i].opening) && releases[i].opening.openedAt + releases[i].interval < releases[i].at)
    && (forall i, j | 0 <= i < j < |releases| :: releases[i].at + releases[j].interval < releases[j].at)
  }

  function Changes(releases: seq<Release>): (changes: seq<Change>)
    ensures |changes| == |releases|
  {
    seq(|releases|, i requires 0 <= i < |releases| => releases[i].change)
  }

  /** Between two releases lies more than the interval in force at the later one.
      After the gate closes, the next release takes a new handshake, then the hold it
      asked for, then more than two intervals. */
  lemma TwoIntervals(releases: seq<Release>, closings: seq<GateClosing>, i: nat, k: nat)
    requires Paced(releases) && Reopened(closings, releases) && i < |releases|
    ensures var r := releases[i];
            r.opening.armedAt + r.opening.hold + r.opening.interval + r.interval < r.at
    ensures k < i ==> releases[k].at + releases[i].interval < releases[i].at
    ensures k < |closings| && closings[k].released <= i ==>
              && closings[k].at <= releases[i].opening.armedAt
              && closings[k].at + releases[i].opening.hold + releases[i].opening.interval + releases[i].interval
                 < releases[i].at
  {
    assert OpeningOk(releases[i].opening);
  }

  predicate After(closings: seq<GateClosing>, time: nat) {
    forall k | 0 <= k < |closings| :: closings[k].at <= time
  }

  class CaPmtPacer {
    var interval: nat
    const settle: nat
    var gate: Gate
    var queue: seq<Change>
    /** Every change ever pushed, and every one let out. */
    ghost var history: seq<Change>
    ghost var releases: seq<Release>
    /** The latest time the pacer was told of. */
    ghost var clock: nat
    ghost var closings: seq<GateClosing>
    ghost var opening: Opening

    ghost predicate GateOk()
      reads this
    {
      && Paced(releases) && Reopened(closings, releases)
      && (forall i | 0 <= i < |releases| :: releases[i].at <= clock)
      && (forall k | 0 <= k < |closings| :: closings[k].at <= clock && closings[k].released <= |releases|)
      && match gate
         case NotReady => true
         case Armed(stamp) =>
           && opening.armedAt <= clock && stamp == opening.armedAt + opening.hold
           && After(closings, opening.armedAt)
           && forall i | 0 <= i < |releases| :: releases[i].at <= stamp
         case Ready(stamp) =>
           && OpeningOk(opening) && opening.openedAt <= stamp <= clock
           && After(closings, opening.armedAt)
           && forall i | 0 <= i < |releases| :: releases[i].at <= stamp
    }

    ghost predicate Valid()
      reads this
    {
      && GateOk()
      && QueueOk(queue)
      && SameLast(Changes(releases) + queue, history)
    }

    constructor (interval: nat, settle: nat)
      ensures Valid() && this.interval == interval && this.settle == settle
      ensures gate == NotReady && queue == history == [] && releases == [] && clock == 0
    {
      this.interval := interval;
      this.settle := settle;
      gate := NotReady;
      queue := [];
      history, releases, clock, closings := [], [], 0, [];
      opening := Opening(0, 0, 0, 0);
    }

    /** The registry that the released changes made, with the queue applied to it,
        is always what applying every push in order would have made. */
    lemma NothingLost(programs: map<u16, Program>)
      requires Valid()
      ensures ApplyAll(ApplyAll(programs, Changes(releases)), queue) == ApplyAll(programs, history)
    {
      ApplyConcat(programs, Changes(releases), queue);
      SameEffect(programs, Changes(releases) + queue, history);
    }

    method SetInterval(interval: nat)
      requires Valid()
      modifies this`interval
      ensures Valid() && this.interval == interval
    {
      this.interval := interval;
    }

    /** Queues a program select. */
    method PushSet(program: Program)
      requires Valid()
      modifies this`queue, this`history
      ensures Valid() && history == old(history) + [Set(program)]
      ensures queue == WithoutSets(old(queue), program.number) + [Set(program)]
      ensures Of(queue, program.number) == RemovesOf(Of(old(queue), program.number)) + [Set(program)]
      ensures forall m: u16 | m != program.number :: Of(queue, m) == Of(old(queue), m)
    {
      PushSetKeeps(Changes(releases), queue, history, program);
      hide Paced, Changes, QueueOk, SameLast, WithoutSets, Of;
      queue := WithoutSets(queue, program.number) + [Set(program)];
      history := history + [Set(program)];
    }

    /** Queues a program remove. */
    method PushRemove(n: u16)
      requires Valid()
      modifies this`queue, this`history
      ensures Valid() && history == old(history) + [Remove(n)]
      ensures queue == Without(old(queue), n) + [Remove(n)]
      ensures Of(queue, n) == [Remove(n)]
      ensures forall m: u16 | m != n :: Of(queue, m) == Of(old(queue), m)
    {
      PushRemoveKeeps(Changes(releases), queue, history, n);
      hide Paced, Changes, QueueOk, SameLast, Without, Of;
      queue := Without(queue, n) + [Remove(n)];
      history := history + [Remove(n)];
    }

    /** (Re)arms the countdown with the extra hold. */
    method ArmApplicationInfo(now: nat)
      requires Valid() && clock <= now
      modifies this`gate, this`clock, this`opening
      ensures Valid() && gate == Armed(now + settle) && clock == now
    {
      hide Paced, Reopened, Changes, QueueOk, SameLast;
      gate := Armed(now + settle);
      opening := Opening(now, settle, 0, 0);
      clock := now;
    }

    method ArmCaInfo(now: nat)
      requires Valid() && clock <= now
      modifies this`gate, this`clock, this`opening
      ensures Valid() && gate == Armed(now) && clock == now
    {
      hide Paced, Reopened, Changes, QueueOk, SameLast;
      gate := Armed(now);
      opening := Opening(now, 0, 0, 0);
      clock := now;
    }

    /** Closes the gate; queued changes are kept for the next handshake. */
    method ResetGate(ghost now: nat)
      requires Valid() && clock <= now
      modifies this`gate, this`closings, this`clock
      ensures Valid() && gate == NotReady && clock == now
      ensures closings == old(closings) + [GateClosing(now, |releases|)]
    {
      hide Paced, Reopened, Changes, QueueOk, SameLast;
      ClosingAppend(closings, releases, now);
      gate := NotReady;
      clock := now;
      closings := closings + [GateClosing(now, |releases|)];
    }

    /** One pacing pass: at most one change, and only through an open gate. */
    method Poll(now: nat) returns (change: Option<Change>)
      requires Valid() && clock <= now
      modifies this`gate, this`queue, this`releases, this`clock, this`opening
      ensures Valid() && clock == now
      ensures old(gate) == NotReady || now <= old(gate).stamp + interval ==>
                change == None && gate == old(gate) && queue == old(queue)
      ensures old(gate) != NotReady && old(gate).stamp + interval < now ==> gate == Ready(now)
      ensures change.Some? <==> old(gate).Ready? && old(gate).stamp + interval < now && old(queue) != []
      ensures change == None ==> queue == old(queue) && releases == old(releases)
      ensures old(releases) <= releases && |releases| <= |old(releases)| + 1
      ensures change.Some? ==> old(queue) == [change.value] + queue
      ensures change.Some? ==> Changes(releases) == Changes(old(releases)) + [change.value]
    {
      hide Paced, Reopened, Changes, QueueOk, SameLast;
      clock := now;
      if gate == NotReady || now <= gate.stamp + interval {
        return None;
      }
      var open := gate.Ready?;
      if !open {
        opening := opening.(openedAt := now, interval := interval);
      }
      ghost var stamp := gate.stamp;
      gate := Ready(now);
      if !open || queue == [] {
        return None;
      }
      change := Some(queue[0]);
      ghost var release := Release(now, interval, queue[0], opening);
      Released(queue, releases, history, release, stamp);
      ReopenedAppend(closings, releases, release);
      queue := queue[1..];
      releases := releases + [release];
    }
  }

  /** Letting the head of the queue out keeps everything in order. */
  lemma Released(queue: seq<Change>, releases: seq<Release>, history: seq<Change>, r: Release, stamp: nat)
    requires QueueOk(queue) && queue != [] && r.change == queue[0]
    requires SameLast(Changes(releases) + queue, history)
    requires Paced(releases) && OpeningOk(r.opening) && r.opening.openedAt <= stamp && stamp + r.interval < r.at
    requires forall i | 0 <= i < |releases| :: releases[i].at <= stamp
    ensures QueueOk(queue[1..]) && SameLast(Changes(releases + [r]) + queue[1..], history)
    ensures Changes(releases + [r]) == Changes(releases) + [r.change] && Paced(releases + [r])
  {
    PopKeeps(queue);
    ChangesAppend(releases, r);
    PacedAppend(releases, r, stamp);
    assert Changes(releases) + [queue[0]] + queue[1..] == Changes(releases) + queue;
    hide Paced, Changes, QueueOk, SameLast, OpeningOk;
  }

  lemma ReopenedAppend(closings: seq<GateClosing>, releases: seq<Release>, r: Release)
    requires Reopened(closings, releases) && After(closings, r.opening.armedAt)
    ensures Reopened(closings, releases + [r])
  {
  }

  lemma ClosingAppend(closings: seq<GateClosing>, releases: seq<Release>, now: nat)
    requires Reopened(closings, releases)
    ensures Reopened(closings + [GateClosing(now, |releases|)], releases)
  {
  }

  lemma ChangesAppend(releases: seq<Release>, r: Release)
    ensures Changes(releases + [r]) == Changes(releases) + [r.change]
  {
  }

  lemma PacedAppend(releases: seq<Release>, r: Release, stamp: nat)
    requires Paced(releases) && OpeningOk(r.opening) && r.opening.openedAt <= stamp && stamp + r.interval < r.at
    requires forall i | 0 <= i < |releases| :: releases[i].at <= stamp
    ensures Paced(releases + [r])
  {
  }
}
