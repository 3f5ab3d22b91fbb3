/** Date-Time resource (EN 50221, section 8.4.5): periodic answers. The encoded
    time itself is an arbitrary body. Times are in milliseconds. */
module DateTime {
  import opened Basics
  import opened Cam
  import opened Sending
  import opened Transport
  import opened Wire
  import Apdu

  datatype DateTimeSession = DateTimeSession(slotId: byte, interval: byte, sent: Option<nat>)

  type TimeBody = body: seq<byte> | |body| == 5 witness [0, 0, 0, 0, 0]

  method NowBody() returns (body: TimeBody)
  {
    var a: byte, b: byte, c: byte, d: byte, e: byte := *, *, *, *, *;
    body := [a, b, c, d, e];
  }

  /** One DATE_TIME object was handed over. */
  ghost predicate TimeTold(sent: seq<Item>, sent': seq<Item>, id: u16) {
    exists body: TimeBody :: sent' == sent + [ApduItem(id, 0x9F_8441, body)]
  }

  /** The interval a module asked for has passed. */
  predicate Due(s: DateTimeSession, now: nat) {
    s.interval != 0 && s.sent.Some? && s.sent.value + 1000 * (s.interval as int) <= now
  }

  /** One DATE_TIME object, sent to one session. */
  datatype Answer = Answer(id: u16, slotId: byte, body: TimeBody)

  /** The objects of those answers that go to one slot, in order. */
  function AnswersOn(answers: seq<Answer>, slotId: int): seq<Item> {
    if answers == [] then []
    else
      var last := answers[|answers| - 1];
      AnswersOn(answers[..|answers| - 1], slotId)
      + if last.slotId == slotId then [ApduItem(last.id, Apdu.DATE_TIME, last.body)] else []
  }

  lemma AnswersAppend(answers: seq<Answer>, a: Answer, slotId: int)
    ensures AnswersOn(answers + [a], slotId)
         == AnswersOn(answers, slotId)
            + if a.slotId == slotId then [ApduItem(a.id, Apdu.DATE_TIME, a.body)] else []
  {
    assert (answers + [a])[..|answers|] == answers;
  }

  /** Exactly the answers were handed over, each on the slot of its session. */
  predicate HandedOver(hist: seq<History>, hist': seq<History>, answers: seq<Answer>) {
    && |hist| == |hist'|
    && forall s | 0 <= s < |hist| :: hist'[s].sent == hist[s].sent + AnswersOn(answers, s)
  }

  lemma NothingHandedOver(hist: seq<History>)
    ensures HandedOver(hist, hist, [])
  {
  }

  lemma OneMoreHanded(slots: seq<TransportSlot>, slots': seq<TransportSlot>, hist0: seq<History>,
                      hist: seq<History>, hist': seq<History>, answers: seq<Answer>, a: Answer)
    requires HandedOver(hist0, hist, answers) && OnlySlot(slots, slots', hist, hist', a.slotId)
    requires a.slotId < |hist|
    requires hist'[a.slotId].sent == hist[a.slotId].sent + [ApduItem(a.id, Apdu.DATE_TIME, a.body)]
    ensures HandedOver(hist0, hist', answers + [a])
  {
    hide AnswersOn, ApduItem;
    forall s | 0 <= s < |hist0| ensures hist'[s].sent == hist0[s].sent + AnswersOn(answers + [a], s) {
      AnswersAppend(answers, a, s);
    }
  }

  predicate AnswerTo(sessions: map<u16, DateTimeSession>, now: nat, a: Answer) {
    a.id in sessions && Due(sessions[a.id], now) && a.slotId == sessions[a.id].slotId
  }

  /** Every due session not in `left` has one answer, and nobody else has any. */
  ghost predicate EachAnswered(sessions: map<u16, DateTimeSession>, now: nat, left: set<u16>, answers: seq<Answer>) {
    && (forall i | 0 <= i < |answers| :: answers[i].id !in left && AnswerTo(sessions, now, answers[i]))
    && (forall i, j | 0 <= i < j < |answers| :: answers[i].id != answers[j].id)
    && (forall id | id in sessions && id !in left && Due(sessions[id], now) ::
          exists i :: 0 <= i < |answers| && answers[i].id == id)
  }

  lemma AnsweredNext(sessions: map<u16, DateTimeSession>, now: nat, left: set<u16>, answers: seq<Answer>,
                     id: u16, answers': seq<Answer>)
    requires EachAnswered(sessions, now, left, answers) && id in left && id in sessions
    requires if Due(sessions[id], now)
             then answers' != [] && answers'[..|answers'| - 1] == answers
                  && answers'[|answers'| - 1].id == id && answers'[|answers'| - 1].slotId == sessions[id].slotId
             else answers' == answers
    ensures EachAnswered(sessions, now, left - {id}, answers')
  {
    if Due(sessions[id], now) {
      var last := answers'[|answers'| - 1];
      assert answers' == answers + [last];
      forall k | k in sessions && k !in left - {id} && Due(sessions[k], now)
        ensures exists i :: 0 <= i < |answers'| && answers'[i].id == k
      {
        if k == id {
          assert answers'[|answers|].id == k;
        } else {
          var i :| 0 <= i < |answers| && answers[i].id == k;
          assert answers'[i].id == k;
        }
      }
    }
  }

  /** What one tick does to one session. */
  function Ticked(s: DateTimeSession, now: nat): DateTimeSession {
    if s.interval == 0 then s
    else if s.sent == None then s.(sent := Some(now))
    else if now < s.sent.value + 1000 * (s.interval as int) then s
    else s.(sent := Some(now))
  }

  /** Slots outside those of the date-time sessions are as they were, and no
      module's beliefs moved. */
  ghost predicate OnlyHosts(sessions: map<u16, DateTimeSession>,
                            slots: seq<TransportSlot>, slots': seq<TransportSlot>,
                            hist: seq<History>, hist': seq<History>)
  {
    && |slots'| == |slots| == |hist| == |hist'|
    && forall s | 0 <= s < |slots| ::
         && Quiet(hist[s], hist'[s])
         && ((forall id | id in sessions :: sessions[id].slotId != s) ==>
               slots'[s] == slots[s] && hist'[s] == hist[s])
  }

  lemma OnlyHostsRefl(sessions: map<u16, DateTimeSession>, slots: seq<TransportSlot>, hist: seq<History>)
    requires |slots| == |hist|
    ensures OnlyHosts(sessions, slots, slots, hist, hist)
  {
    forall s | 0 <= s < |slots| ensures Quiet(hist[s], hist[s]) {
      QuietRefl(hist[s]);
    }
  }

  lemma OnlyHostsStep(sessions: map<u16, DateTimeSession>, sessions': map<u16, DateTimeSession>, id: u16,
                      a: seq<TransportSlot>, b: seq<TransportSlot>, c: seq<TransportSlot>,
                      ha: seq<History>, hb: seq<History>, hc: seq<History>)
    requires id in sessions && sessions[id].slotId < |b|
    requires SameHosts(sessions, sessions')
    requires OnlyHosts(sessions, a, b, ha, hb) && OnlySlot(b, c, hb, hc, sessions[id].slotId)
    requires Quiet(hb[sessions[id].slotId], hc[sessions[id].slotId])
    ensures OnlyHosts(sessions', a, c, ha, hc)
  {
    hide Quiet;
    forall s | 0 <= s < |a| ensures Quiet(ha[s], hc[s]) {
      if s == sessions[id].slotId {
        QuietTrans(ha[s], hb[s], hc[s]);
      }
    }
    forall s | 0 <= s < |a| && (forall k | k in sessions' :: sessions'[k].slotId != s)
      ensures c[s] == a[s] && hc[s] == ha[s]
    {
      assert sessions'[id].slotId != s;
      forall k | k in sessions ensures sessions[k].slotId != s {
        assert k in sessions';
      }
    }
  }

  /** What was outstanding is not idle now. */
  predicate StillPending(slots: seq<TransportSlot>, slots': seq<TransportSlot>) {
    |slots'| == |slots| && forall s | 0 <= s < |slots| :: !Idle(slots[s]) ==> !Idle(slots'[s])
  }

  lemma StillPendingStep(a: seq<TransportSlot>, b: seq<TransportSlot>, c: seq<TransportSlot>,
                         hb: seq<History>, hc: seq<History>, s: nat)
    requires StillPending(a, b) && OnlySlot(b, c, hb, hc, s) && s < |c|
    requires c[s] == b[s] || !Idle(c[s])
    ensures StillPending(a, c)
  {
  }

  predicate SameHosts(was: map<u16, DateTimeSession>, now: map<u16, DateTimeSession>) {
    was.Keys == now.Keys && forall id | id in was :: now[id].slotId == was[id].slotId
  }

  class DateTimeResource {
    var sessions: map<u16, DateTimeSession>

    constructor ()
      ensures sessions == map[]
    {
      sessions := map[];
    }

    method OnOpen(transport: CiTransport, slotId: byte, sessionId: u16) returns (r: Result<()>)
      requires transport.Valid() && slotId < |transport.slots| == |transport.hist|
      modifies this, transport`slots, transport`hist, transport.link`writes
      ensures transport.Valid()
      ensures sessions == old(sessions)[sessionId := DateTimeSession(slotId, 0, None)]
      ensures OnlySlot(old(transport.slots), transport.slots, old(transport.hist), transport.hist, slotId)
      ensures |transport.hist| == |transport.slots| == old(|transport.slots|)
      ensures Quiet(old(transport.hist)[slotId], transport.hist[slotId])
      ensures Kept(old(transport.At(slotId)), transport.At(slotId), r)
      ensures r.Err? ==> IsLinkError(r.error) && !transport.hist[slotId].intact
      ensures r.Ok? ==> TimeTold(old(transport.hist)[slotId].sent, transport.hist[slotId].sent, sessionId)
    {
      sessions := sessions[sessionId := DateTimeSession(slotId, 0, None)];
      var body := NowBody();
      r := SendQuiet(transport, slotId, sessionId, Apdu.DATE_TIME, body);
    }

    method OnApdu(transport: CiTransport, slotId: byte, sessionId: u16, tag: Apdu.ApduTag, data: seq<byte>)
      returns (r: Result<()>)
      requires transport.Valid() && slotId < |transport.slots| == |transport.hist|
      modifies this, transport`slots, transport`hist, transport.link`writes
      ensures transport.Valid()
      ensures OnlySlot(old(transport.slots), transport.slots, old(transport.hist), transport.hist, slotId)
      ensures |transport.hist| == |transport.slots| == old(|transport.slots|)
      ensures Quiet(old(transport.hist)[slotId], transport.hist[slotId])
      ensures Kept(old(transport.At(slotId)), transport.At(slotId), r)
      ensures tag != Apdu.DATE_TIME_ENQ ==>
                r == Err(InvalidData) && sessions == old(sessions) && transport.slots == old(transport.slots)
      ensures tag == Apdu.DATE_TIME_ENQ && r.Err? ==> IsLinkError(r.error) && !transport.hist[slotId].intact
      ensures tag == Apdu.DATE_TIME_ENQ ==>
                sessions == if sessionId in old(sessions)
                            then old(sessions)[sessionId := DateTimeSession(old(sessions)[sessionId].slotId,
                                                              if data == [] then 0 else data[0], None)]
                            else old(sessions)
      ensures r.Ok? ==> TimeTold(old(transport.hist)[slotId].sent, transport.hist[slotId].sent, sessionId)
    {
      QuietRefl(transport.hist[slotId]);
      if tag != Apdu.DATE_TIME_ENQ {
        return Err(InvalidData);
      }
      var interval: byte := if data == [] then 0 else data[0];
      if sessionId in sessions {
        sessions := sessions[sessionId := DateTimeSession(sessions[sessionId].slotId, interval, None)];
      }
      var body := NowBody();
      r := SendQuiet(transport, slotId, sessionId, Apdu.DATE_TIME, body);
    }

    method OnClose(sessionId: u16)
      modifies this
      ensures sessions == old(sessions) - {sessionId}
    {
      sessions := sessions - {sessionId};
    }

    /** Resends the time to every session whose interval has passed. */
    method OnTick(transport: CiTransport, now: nat) returns (r: Result<()>, ghost answers: seq<Answer>)
      requires transport.Valid() && |transport.slots| == |transport.hist|
      requires forall id | id in sessions :: sessions[id].slotId < |transport.slots|
      modifies this, transport`slots, transport`hist, transport.link`writes
      ensures transport.Valid() && |transport.slots| == |transport.hist| == old(|transport.slots|)
      ensures SameHosts(old(sessions), sessions)
      ensures r.Ok? ==> forall id | id in sessions :: sessions[id] == Ticked(old(sessions)[id], now)
      ensures OnlyHosts(sessions, old(transport.slots), transport.slots, old(transport.hist), transport.hist)
      ensures r.Err? ==> IsLinkError(r.error)
      ensures r.Ok? ==> StillPending(old(transport.slots), transport.slots)
      ensures r.Ok? ==> EachFine(old(transport.hist), transport.hist)
      ensures r.Ok? ==>
                && HandedOver(old(transport.hist), transport.hist, answers)
                && EachAnswered(old(sessions), now, {}, answers)
    {
      OnlyHostsRefl(sessions, transport.slots, transport.hist);
      NothingHandedOver(transport.hist);
      r, answers := Ok(()), [];
      var left := sessions.Keys;
      hide OnlyHosts, Quiet, AllSound, OnRecord, HandedOver;
      while left != {} && r.Ok?
        invariant left <= sessions.Keys && transport.Valid()
        invariant |transport.slots| == |transport.hist| == old(|transport.slots|)
        invariant SameHosts(old(sessions), sessions)
        invariant forall id | id in sessions && id !in left && r.Ok? :: sessions[id] == Ticked(old(sessions)[id], now)
        invariant forall id | id in left :: sessions[id] == old(sessions)[id]
        invariant OnlyHosts(sessions, old(transport.slots), transport.slots, old(transport.hist), transport.hist)
        invariant r.Err? ==> IsLinkError(r.error)
        invariant r.Ok? ==> StillPending(old(transport.slots), transport.slots)
        invariant r.Ok? ==> EachFine(old(transport.hist), transport.hist)
        invariant r.Ok? ==> HandedOver(old(transport.hist), transport.hist, answers)
        invariant r.Ok? ==> EachAnswered(old(sessions), now, left, answers)
        decreases left
      {
        var id :| id in left;
        ghost var answers', left' := answers, left;
        left := left - {id};
        r, answers := TickOne(transport, id, now, old(transport.slots), old(transport.hist), answers);
        if r.Ok? {
          AnsweredNext(old(sessions), now, left', answers', id, answers);
        }
      }
    }

    method TickOne(transport: CiTransport, id: u16, now: nat,
                   ghost slots0: seq<TransportSlot>, ghost hist0: seq<History>, ghost answers: seq<Answer>)
      returns (r: Result<()>, ghost answers': seq<Answer>)
      requires transport.Valid() && |transport.slots| == |transport.hist|
      requires HandedOver(hist0, transport.hist, answers)
      requires id in sessions && sessions[id].slotId < |transport.slots|
      requires OnlyHosts(sessions, slots0, transport.slots, hist0, transport.hist)
      requires StillPending(slots0, transport.slots) && EachFine(hist0, transport.hist)
      modifies this, transport`slots, transport`hist, transport.link`writes
      ensures transport.Valid() && |transport.slots| == |transport.hist| == old(|transport.slots|)
      ensures SameHosts(old(sessions), sessions) && id in sessions
      ensures sessions == old(sessions)[id := sessions[id]]
      ensures r.Ok? ==> sessions[id] == Ticked(old(sessions)[id], now)
      ensures OnlyHosts(sessions, slots0, transport.slots, hist0, transport.hist)
      ensures r.Err? ==> IsLinkError(r.error)
      ensures r.Ok? ==> StillPending(slots0, transport.slots) && EachFine(hist0, transport.hist)
      ensures r.Ok? ==> HandedOver(hist0, transport.hist, answers')
      ensures r.Ok? ==>
                if Due(old(sessions)[id], now)
                then answers' != [] && answers'[..|answers'| - 1] == answers
                     && answers'[|answers'| - 1].id == id
                     && answers'[|answers'| - 1].slotId == old(sessions)[id].slotId
                else answers' == answers
    {
      var session := sessions[id];
      r, answers' := Ok(()), answers;
      hide HandedOver;
      assert sessions == sessions[id := sessions[id]];
      OnlySlotRefl(transport.slots, transport.hist, session.slotId);
      QuietRefl(transport.hist[session.slotId]);
      ghost var slots, hist := transport.slots, transport.hist;
      if session.interval != 0 {
        if session.sent == None {
          sessions := sessions[id := session.(sent := Some(now))];
        } else if now >= session.sent.value + 1000 * (session.interval as int) {
          var body := NowBody();
          r := SendQuiet(transport, session.slotId, id, Apdu.DATE_TIME, body);
          if r.Ok? {
            OneMoreHanded(slots, transport.slots, hist0, hist, transport.hist, answers,
                          Answer(id, session.slotId, body));
            answers' := answers + [Answer(id, session.slotId, body)];
            sessions := sessions[id := session.(sent := Some(now))];
          }
        }
      }
      hide OnlyHosts, Quiet, OnlySlot, StillPending, EachFine;
      if r.Ok? {
        EachFineStep(slots, transport.slots, hist0, hist, transport.hist, session.slotId);
        StillPendingStep(slots0, slots, transport.slots, hist, transport.hist, session.slotId);
      }
      OnlyHostsStep(old(sessions), sessions, id, slots0, slots, transport.slots, hist0, hist, transport.hist);
    }
  }
}
