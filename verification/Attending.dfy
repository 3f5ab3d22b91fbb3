/** What the controller owes a module that announces data: a TT_RCV, issued once nothing
    else is in flight or queued, or still owed. */
module Attending {
  import opened Basics
  import opened ControllerState
  import opened Events
  import opened SessionSteps
  import opened Tpdu
  import opened Transport
  import opened Wire
  import opened World

  /** A TT_RCV was issued since, or is still owed. */
  predicate AskedFor(c: CSlot, sent: seq<Item>, sent': seq<Item>) {
    sent <= sent' && (c.receivePending || Single(RCV, []) in sent'[|sent|..])
  }

  predicate HistSame(hist: seq<History>, hist': seq<History>, but: int) {
    |hist| == |hist'| && forall s | 0 <= s < |hist| && s != but :: hist'[s] == hist[s]
  }

  lemma StepHist(a: World, b: World, s: byte)
    requires SlotStep(a, b, s)
    ensures HistSame(a.hist, b.hist, s) && s < |a.hist| && a.hist[s].sent <= b.hist[s].sent
  {
  }

  lemma ControlledHist(a: World, b: World, s: byte)
    requires Controlled(a, b, s)
    ensures HistSame(a.hist, b.hist, s)
  {
    StepHist(a, b, s);
    hide SlotStep;
  }

  /** A slot creating its connection becomes active with the reply; nothing else moves it. */
  function Advance(status: SlotStatus, ready: bool): SlotStatus {
    if status == CreatingTc && ready then SlotStatus.Active else status
  }

  /** What hearing a frame out does to its slot, before anything is asked for. */
  predicate Noted(c: CSlot, t: TransportSlot, c': CSlot, t': TransportSlot, ready: bool) {
    && t' == t.(dataPending := false) && c'.status == Advance(c.status, ready)
    && (c'.status == SlotStatus.Active ==>
          c'.receivePending == (c.receivePending || t.dataPending) && c'.commandSince == None)
  }

  /** What is owed is asked for if nothing is in the way, and what is outstanding is timed. */
  predicate Acknowledged(c: CSlot, t: TransportSlot, sent: seq<Item>, c': CSlot, t': TransportSlot, sent': seq<Item>,
                         now: nat)
  {
    var due := c.status == SlotStatus.Active && c.receivePending && Idle(t);
    && sent' == (if due then sent + [Single(RCV, [])] else sent)
    && c'.receivePending == (c.receivePending && !due)
    && c'.status == c.status
    && (c.status == SlotStatus.Active ==>
          c'.commandSince == if c.commandSince.Some? || Idle(t') then c.commandSince else Some(now))
  }

  /** A slot that is active after a frame was read: nothing that was outstanding before it
      is timed any more, and data the module has announced is asked for at once if nothing
      is in flight or queued, and owed otherwise. */
  predicate Attended(c: CSlot, t: TransportSlot, sent: seq<Item>, c': CSlot, t': TransportSlot, sent': seq<Item>,
                     ready: bool, clock: Option<nat>)
  {
    && sent <= sent' && c'.status == Advance(c.status, ready)
    && (c'.status == SlotStatus.Active && clock.Some? ==>
          var due := c.receivePending || t.dataPending;
          && (if due && Idle(t) then !c'.receivePending && sent' == sent + [Single(RCV, [])]
              else c'.receivePending == due && sent' == sent)
          && c'.commandSince == if Idle(t') then None else clock)
  }

  lemma HeardNoted(c: CSlot, t: TransportSlot, slots: seq<CSlot>, slots1: seq<CSlot>, slots2: seq<CSlot>, w: World,
                   s: byte, events: seq<CaEvent>)
    requires WorldOk(w) && s < |slots| == |w.slots| == |w.hist| && w.slots[s] == t.(dataPending := false)
    requires slots[s] == if c.status == SlotStatus.Active then c.(commandSince := None) else c
    requires slots1 == HeardAll(slots, events, w)
    requires slots2 == if t.dataPending && slots1[s].status == SlotStatus.Active
                       then slots1[s := slots1[s].(receivePending := true)] else slots1
    ensures Noted(c, t, slots2[s], w.slots[s], Readied(events, s))
  {
    HeardEach(slots, events, w, s);
    hide WorldOk, CamDue, CamSound, NoSessions, HeardAll, Readied;
  }

  /** A slot was acknowledged; no other slot saw anything. */
  predicate Answered(slots: seq<CSlot>, t: seq<TransportSlot>, hist: seq<History>, slots': seq<CSlot>,
                     t': seq<TransportSlot>, hist': seq<History>, s: nat, now: nat)
  {
    && s < |slots| == |t| == |hist| == |slots'| == |t'| == |hist'|
    && AllCreateKept(slots, slots') && AllStatusHeard(slots, slots')
    && OthersSame(slots, slots', s) && TrafficSame(t, t', s) && HistSame(hist, hist', s)
    && Acknowledged(slots[s], t[s], hist[s].sent, slots'[s], t'[s], hist'[s].sent, now)
  }

  lemma AnsweredSo(slots: seq<CSlot>, slots1: seq<CSlot>, slots2: seq<CSlot>, s: byte, a: World, b: World, now: nat)
    requires s < |slots| == |slots1| == |a.slots| == |a.hist| && Settled(slots[s], a, s) && Controlled(a, b, s)
    requires slots1 == slots || (slots[s].status == SlotStatus.Active == slots1[s].status
                                 && slots1 == slots[s := slots1[s]])
    requires var due := slots[s].status == SlotStatus.Active && slots[s].receivePending && Idle(a.slots[s]);
             if due then slots1[s] == Marked(slots[s].(receivePending := false), b.slots[s], now)
                         && b.hist[s].sent == a.hist[s].sent + [Single(RCV, [])]
             else slots1 == slots && b == a
    requires slots2 == slots1[s := Marked(slots1[s], b.slots[s], now)]
    ensures Answered(slots, a.slots, a.hist, slots2, b.slots, b.hist, s, now)
  {
    ControlledTraffic(a, b, s);
    ControlledHist(a, b, s);
    AcknowledgedKept(slots, slots1, slots2, s, a, b.slots[s], now);
    hide Controlled, Settled, AllCreateKept, AllStatusHeard, OthersSame, TrafficSame, HistSame;
  }

  lemma AttendedWhole(c: CSlot, t: TransportSlot, c1: CSlot, t1: TransportSlot, c2: CSlot, t2: TransportSlot,
                      sent: seq<Item>, sent': seq<Item>, ready: bool, now: nat)
    requires Noted(c, t, c1, t1, ready) && Acknowledged(c1, t1, sent, c2, t2, sent', now)
    ensures Attended(c, t, sent, c2, t2, sent', ready, Some(now))
  {
  }

  // ---------------------------------------------------------------------- one frame

  /** The slot of the frame is attended to; the logs of the others are as they were. */
  ghost predicate Heeded(slots: seq<CSlot>, t: seq<TransportSlot>, hist: seq<History>, slots': seq<CSlot>,
                         t': seq<TransportSlot>, hist': seq<History>, frame: seq<byte>, now: nat)
  {
    && |slots| == |t| == |slots'| == |t'| == |hist| == |hist'| < 0x100 && FrameSlotId(frame, |slots|).Some?
    && var s := FrameSlotId(frame, |slots|).value;
       && s < |slots| && OthersSame(slots, slots', s) && HistSame(hist, hist', s) && hist[s].sent <= hist'[s].sent
       && (slots'[s].status == SlotStatus.Active ==>
             && (slots[s].receivePending || Announces(frame, |slots|) ==>
                   AskedFor(slots'[s], hist[s].sent, hist'[s].sent))
             && (!slots[s].receivePending && !Announces(frame, |slots|) && !t[s].dataPending ==>
                   !slots'[s].receivePending)
             && slots'[s].commandSince == if Idle(t'[s]) then None else Some(now))
       && slots'[s].status == Advance(slots[s].status, Replies(frame, |slots|))
  }

  /** A slot was heard out, then acknowledged. */
  predicate Handled(slots: seq<CSlot>, t: seq<TransportSlot>, hist: seq<History>, slots': seq<CSlot>,
                    t': seq<TransportSlot>, hist': seq<History>, s: nat, ready: bool, clock: Option<nat>)
  {
    && s < |slots| == |t| == |hist| == |slots'| == |t'| == |hist'|
    && HeardOn(slots, t, slots', t', s) && HistSame(hist, hist', s)
    && Attended(slots[s], t[s], hist[s].sent, slots'[s], t'[s], hist'[s].sent, ready, clock)
  }

  lemma HandledWhole(slots: seq<CSlot>, t: seq<TransportSlot>, slots1: seq<CSlot>, t1: seq<TransportSlot>,
                     hist: seq<History>, slots2: seq<CSlot>, t2: seq<TransportSlot>, hist': seq<History>, s: byte,
                     ready: bool, now: nat)
    requires AllCreateKept(slots, slots1) && AllStatusHeard(slots, slots1) && OthersSame(slots, slots1, s)
    requires TrafficSame(t, t1, s) && s < |slots| == |t| && Noted(slots[s], t[s], slots1[s], t1[s], ready)
    requires Answered(slots1, t1, hist, slots2, t2, hist', s, now)
    ensures Handled(slots, t, hist, slots2, t2, hist', s, ready, Some(now))
  {
    HandledKept(slots, t, slots1, t1, slots2, t2, s);
    AttendedWhole(slots[s], t[s], slots1[s], t1[s], slots2[s], t2[s], hist[s].sent, hist'[s].sent, ready, now);
    hide AllCreateKept, AllStatusHeard, OthersSame, TrafficSame, HistSame, HeardOn, Attended, Noted, Acknowledged;
  }

  /** Before the first tick nothing is asked for. */
  lemma HandledEarly(slots: seq<CSlot>, t: seq<TransportSlot>, slots1: seq<CSlot>, t1: seq<TransportSlot>,
                     hist: seq<History>, s: byte, ready: bool)
    requires AllCreateKept(slots, slots1) && AllStatusHeard(slots, slots1) && OthersSame(slots, slots1, s)
    requires TrafficSame(t, t1, s) && s < |slots| == |t| == |hist| && Noted(slots[s], t[s], slots1[s], t1[s], ready)
    ensures Handled(slots, t, hist, slots1, t1, hist, s, ready, None)
  {
    SameKept(slots1, t1, s);
    HandledKept(slots, t, slots1, t1, slots1, t1, s);
    hide AllCreateKept, AllStatusHeard, OthersSame, TrafficSame, HeardOn;
  }

  lemma HeededReceived(slots: seq<CSlot>, a: World, b: World, slots': seq<CSlot>, t': seq<TransportSlot>,
                       hist': seq<History>, frame: seq<byte>, s: byte, accepted: bool, reports: seq<CaEvent>,
                       clock: Option<nat>)
    requires |slots| == |a.slots| && SlotStep(a, b, s) && FrameHandled(a, b, s, frame, accepted, true)
    requires b.log == a.log + reports && s < |slots| && (accepted <==> slots[s].status == SlotStatus.Active)
    requires Handled(slots, b.slots, b.hist, slots', t', hist', s, Readied(reports, s), clock)
    ensures PollKept(slots, a.slots, slots', t', [frame])
    ensures clock.Some? ==> Heeded(slots, a.slots, a.hist, slots', t', hist', frame, clock.value)
  {
    StepTraffic(a, b, s);
    StepHist(a, b, s);
    FrameFlag(a, b, s, frame, accepted, true);
    if !accepted {
      FrameReplies(a, b, s, frame, reports);
    }
    hide SlotStep, FrameHandled, Readied, Replies;
    FramedKept(slots, a.slots, b.slots, slots', t', s, frame);
    if clock.Some? {
      HeardOthers(slots, b.slots, slots', t', s);
      HeededFrame(slots, a.slots, a.hist, b.slots, b.hist, slots', t', hist', frame, s,
                  Readied(reports, s), clock.value);
    }
    hide PollKept, HeardOn, HistSame, Attended, Heeded, TrafficSame;
  }

  /** A slot without a connection hears of the reply exactly from the frame that is one. */
  lemma FrameReplies(a: World, b: World, s: byte, frame: seq<byte>, reports: seq<CaEvent>)
    requires FrameHandled(a, b, s, frame, false, true) && b.log == a.log + reports
    ensures Readied(reports, s) <==> Replies(frame, |a.slots|)
  {
    var recv := Receive(a.slots[s], frame, |a.slots|).1;
    RepliesExact(a.slots[s], frame, |a.slots|);
    assert (a.log + reports)[|a.log|..] == reports;
    match recv {
      case TcReply(_) =>
        assert (a.log + [TransportReady(s)])[|a.log|..] == [TransportReady(s)];
        assert reports[0].TransportReady?;
      case Status(_) => assert a.log[|a.log|..] == [];
      case _ => assert (a.log + [MalformedData(s)])[|a.log|..] == [MalformedData(s)];
    }
    hide Receive, Replies;
  }

  lemma FrameFlag(a: World, b: World, s: byte, frame: seq<byte>, accepted: bool, ok: bool)
    requires FrameHandled(a, b, s, frame, accepted, ok)
    ensures s < |a.slots| == |b.slots| < 0x100 && FrameSlotId(frame, |a.slots|) == Some(s) && ForSlot(frame, s)
    ensures b.slots[s].dataPending == Receive(a.slots[s], frame, |a.slots|).0.dataPending
  {
    FrameSlot(a, b, s, frame, accepted, ok);
    hide Receive, Processed;
  }

  lemma HeededFrame(slots: seq<CSlot>, t: seq<TransportSlot>, hist: seq<History>, t1: seq<TransportSlot>,
                    hist1: seq<History>, slots': seq<CSlot>, t': seq<TransportSlot>, hist': seq<History>,
                    frame: seq<byte>, s: byte, ready: bool, now: nat)
    requires s < |slots| == |t| == |t1| == |t'| == |hist| < 0x100 && FrameSlotId(frame, |slots|) == Some(s)
    requires slots[s].status != SlotStatus.Active ==> (ready <==> Replies(frame, |slots|))
    requires t1[s].dataPending == Receive(t[s], frame, |slots|).0.dataPending
    requires HistSame(hist, hist1, s) && HistSame(hist1, hist', s) && OthersSame(slots, slots', s)
    requires hist[s].sent <= hist1[s].sent
    requires Attended(slots[s], t1[s], hist1[s].sent, slots'[s], t'[s], hist'[s].sent, ready, Some(now))
    ensures Heeded(slots, t, hist, slots', t', hist', frame, now)
  {
    AnnouncedPending(t[s], frame, |slots|);
    hide Receive, Announces, FrameSlotId, Replies;
    var sent, sent' := hist1[s].sent, hist'[s].sent;
    if sent' == sent + [Single(RCV, [])] {
      assert sent'[|hist[s].sent|..] == sent[|hist[s].sent|..] + [Single(RCV, [])];
    }
  }

  // ------------------------------------------------------------------- several frames

  /** Some frame of the slot announces data. */
  ghost predicate Announced(frames: seq<seq<byte>>, s: byte, slotsNum: byte) {
    exists k | 0 <= k < |frames| :: FrameSlotId(frames[k], slotsNum) == Some(s) && Announces(frames[k], slotsNum)
  }

  /** On a slot that was and still is active, data that was to be asked for or was announced
      since is owed or has been asked for. */
  predicate SlotAsked(c: CSlot, sent: seq<Item>, c': CSlot, sent': seq<Item>, announced: bool) {
    && sent <= sent'
    && (c.status == SlotStatus.Active == c'.status && (c.receivePending || announced) ==> AskedFor(c', sent, sent'))
  }

  ghost predicate AllAsked(slots: seq<CSlot>, hist: seq<History>, slots': seq<CSlot>, hist': seq<History>,
                           frames: seq<seq<byte>>)
  {
    && |slots| == |slots'| == |hist| == |hist'| < 0x100
    && forall s: byte | 0 <= s < |slots| ::
         SlotAsked(slots[s], hist[s].sent, slots'[s], hist'[s].sent, Announced(frames, s, |slots|))
  }

  lemma AllAskedRefl(slots: seq<CSlot>, hist: seq<History>)
    requires |slots| == |hist| < 0x100
    ensures AllAsked(slots, hist, slots, hist, [])
  {
  }

  lemma HeededAsked(slots: seq<CSlot>, t: seq<TransportSlot>, hist: seq<History>, slots': seq<CSlot>,
                    t': seq<TransportSlot>, hist': seq<History>, frame: seq<byte>, now: nat)
    requires Heeded(slots, t, hist, slots', t', hist', frame, now)
    ensures AllAsked(slots, hist, slots', hist', [frame])
  {
    hide Announces, FrameSlotId, Replies;
    var f := FrameSlotId(frame, |slots|).value;
    forall s: byte | 0 <= s < |slots|
      ensures SlotAsked(slots[s], hist[s].sent, slots'[s], hist'[s].sent, Announced([frame], s, |slots|))
    {
      if s != f {
        assert slots'[s] == slots[s] && hist'[s] == hist[s];
      }
    }
  }

  lemma AnnouncedMore(f: seq<seq<byte>>, g: seq<seq<byte>>, s: byte, slotsNum: byte)
    requires Announced(f + g, s, slotsNum)
    ensures Announced(f, s, slotsNum) || Announced(g, s, slotsNum)
  {
    hide Announces, FrameSlotId;
    var k :| 0 <= k < |f + g| && FrameSlotId((f + g)[k], slotsNum) == Some(s) && Announces((f + g)[k], slotsNum);
    if k < |f| {
      assert (f + g)[k] == f[k];
    } else {
      assert (f + g)[k] == g[k - |f|];
    }
  }

  lemma AllAskedTrans(a: seq<CSlot>, ha: seq<History>, b: seq<CSlot>, hb: seq<History>, c: seq<CSlot>,
                      hc: seq<History>, f: seq<seq<byte>>, g: seq<seq<byte>>)
    requires AllAsked(a, ha, b, hb, f) && AllAsked(b, hb, c, hc, g)
    requires AllStatusHeard(a, b)
    ensures AllAsked(a, ha, c, hc, f + g)
  {
    hide Announced;
    forall s: byte | 0 <= s < |a|
      ensures SlotAsked(a[s], ha[s].sent, c[s], hc[s].sent, Announced(f + g, s, |a|))
    {
      assert StatusHeard(a[s], b[s]);
      assert SlotAsked(a[s], ha[s].sent, b[s], hb[s].sent, Announced(f, s, |a|));
      assert SlotAsked(b[s], hb[s].sent, c[s], hc[s].sent, Announced(g, s, |a|));
      if Announced(f + g, s, |a|) {
        AnnouncedMore(f, g, s, |a|);
      }
      AskedStill(b[s], c[s], ha[s].sent, hb[s].sent, hc[s].sent);
    }
  }

  /** What was asked for once stays asked for. */
  lemma AskedStill(b: CSlot, c: CSlot, s0: seq<Item>, s1: seq<Item>, s2: seq<Item>)
    requires s0 <= s1 <= s2
    ensures !b.receivePending && AskedFor(b, s0, s1) ==> AskedFor(c, s0, s2)
    ensures AskedFor(c, s1, s2) ==> AskedFor(c, s0, s2)
  {
    assert s2[|s0|..] == s1[|s0|..] + s2[|s1|..];
  }

  /** One more frame was read. */
  lemma AskedOnce(a: seq<CSlot>, ta: seq<TransportSlot>, ha: seq<History>, b: seq<CSlot>, tb: seq<TransportSlot>,
                  hb: seq<History>, c: seq<CSlot>, tc: seq<TransportSlot>, hc: seq<History>,
                  r0: seq<seq<byte>>, r1: seq<seq<byte>>, r2: seq<seq<byte>>, now: nat)
    requires r0 <= r1 <= r2 && |r2| == |r1| + 1
    requires PollKept(a, ta, b, tb, Since(r0, r1)) && AllAsked(a, ha, b, hb, Since(r0, r1))
    requires Heeded(b, tb, hb, c, tc, hc, r2[|r1|], now)
    ensures AllAsked(a, ha, c, hc, Since(r0, r2))
  {
    HeededAsked(b, tb, hb, c, tc, hc, r2[|r1|], now);
    forall s | 0 <= s < |a| ensures StatusHeard(a[s], b[s]) {
      KeptStatus(a, ta, b, tb, Since(r0, r1), s);
    }
    AllAskedTrans(a, ha, b, hb, c, hc, Since(r0, r1), [r2[|r1|]]);
    assert r2 == r0 + (Since(r0, r1) + [r2[|r1|]]);
    hide AllAsked, Heeded, PollKept;
  }
}
