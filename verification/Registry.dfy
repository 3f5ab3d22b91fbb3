/** The CA_PMT registry as values: what a session should have selected, what the
    module then believes, and how one message moves both together. */
module Registry {
  import opened Basics
  import opened CaPmt
  import opened Cam
  import opened Transport
  import opened Wire
  import Apdu

  datatype CaSession = CaSession(slotId: byte, caids: Option<seq<u16>>, selected: map<u16, Program>)

  /** Desired programs that have a descriptor for one of the confirmed CAIDs. */
  function Wanted(programs: map<u16, Program>, caids: Option<seq<u16>>): map<u16, Program> {
    if caids == None then map[]
    else map n | n in programs && Matches(programs[n], caids.value) :: programs[n]
  }

  function Confirmed(s: CaSession): seq<u16> {
    if s.caids == None then [] else s.caids.value
  }

  predicate Keyed(programs: map<u16, Program>) {
    forall n | n in programs :: programs[n].number == n
  }

  /** What is selected was confirmed and matches. */
  predicate Selectable(s: CaSession) {
    && Keyed(s.selected)
    && (s.selected != map[] ==> s.caids.Some?)
    && forall n | n in s.selected :: Matches(s.selected[n], Confirmed(s))
  }

  predicate RegistryOk(sessions: map<u16, CaSession>, programs: map<u16, Program>) {
    && Keyed(programs)
    && forall id | id in sessions :: Selectable(sessions[id])
  }

  /** The module's list for the session is `list`, provided the slot's log is intact. */
  predicate Shown(h: History, id: u16, list: ProgramList) {
    h.intact ==> id in Believes(h.sent) && Believes(h.sent)[id] == Some(list)
  }

  /** The session's selection is exactly what is wanted, and the module agrees. */
  predicate Synced(s: CaSession, id: u16, programs: map<u16, Program>, h: History) {
    h.intact ==> (s.selected == Wanted(programs, s.caids) && Shown(h, id, ListOf(s.selected, Confirmed(s))))
  }

  predicate InSync(sessions: map<u16, CaSession>, programs: map<u16, Program>, hist: seq<History>) {
    forall id | id in sessions ::
      sessions[id].slotId < |hist| && Synced(sessions[id], id, programs, hist[sessions[id].slotId])
  }

  /** Everything handed over is something a well-behaved host issues. */
  predicate AllIssued(items: seq<Item>) {
    forall i | 0 <= i < |items| :: Issued(items[i])
  }

  /** The log goes on, and what was handed over since is well-formed too. */
  predicate StillIssued(h: History, h': History) {
    && Grown(h, h')
    && (h'.intact ==> h.intact && (AllIssued(h.sent) ==> AllIssued(h'.sent)))
  }

  /** No session but `id` can tell the two logs apart. */
  predicate ViewsKept(h: History, h': History, id: u16) {
    && StillIssued(h, h') && h'.swallowed == h.swallowed
    && (h'.intact ==> Believes(h'.sent) - {id} == Believes(h.sent) - {id})
  }

  lemma ViewsKeptTrans(a: History, b: History, c: History, id: u16)
    requires ViewsKept(a, b, id) && ViewsKept(b, c, id)
    ensures ViewsKept(a, c, id)
  {
    GrownTrans(a, b, c);
  }

  lemma ViewsKeptLog(h: History, h': History, id: u16)
    requires ViewsKept(h, h', id)
    ensures Grown(h, h') && h'.swallowed == h.swallowed
  {
  }

  lemma SyncedKept(s: CaSession, other: u16, id: u16, programs: map<u16, Program>, h: History, h': History)
    requires Synced(s, other, programs, h) && ViewsKept(h, h', id) && other != id
    ensures Synced(s, other, programs, h')
  {
    if h'.intact {
      assert other in Believes(h.sent) - {id};
      assert (Believes(h'.sent) - {id})[other] == (Believes(h.sent) - {id})[other];
    }
  }

  lemma HandedIssued(before: TransportSlot, after: TransportSlot, h: History, h': History, item: Item, ok: bool)
    requires Issued(item) && Handed(before, after, h, h', item, ok)
    ensures StillIssued(h, h') && h'.swallowed == h.swallowed
  {
  }

  /** Handing one APDU over moves the module's beliefs by exactly that APDU. */
  lemma ApduBelieved(before: TransportSlot, after: TransportSlot, h: History, h': History,
                     id: u16, tag: Apdu.ApduTag, body: seq<byte>, ok: bool)
    requires |body| < 0x1_0000 && Handed(before, after, h, h', ApduItem(id, tag, body), ok)
    ensures ViewsKept(h, h', id)
    ensures tag != Apdu.CA_PMT && h'.intact ==> h.intact && Believes(h'.sent) == Believes(h.sent)
    ensures tag == Apdu.CA_PMT && h'.intact && id in Believes(h.sent) ==>
              Believes(h'.sent) == Believes(h.sent)[id := TakePmt(Believes(h.sent)[id], body)]
  {
    assert Issued(ApduItem(id, tag, body));
    HandedIssued(before, after, h, h', ApduItem(id, tag, body), ok);
    hide Believes, Read, TakePmt, ApduItem, AllIssued, Issued;
    if ok {
      BelievesAppend(h.sent, ApduItem(id, tag, body));
      ReadApdu(Believes(h.sent), id, tag, body);
    }
  }

  lemma ListOfEmpty(caids: seq<u16>)
    ensures ListOf(map[], caids) == map[]
  {
  }

  lemma ListOfInsert(selected: map<u16, Program>, caids: seq<u16>, n: u16, p: Program)
    ensures ListOf(selected[n := p], caids) == ListOf(selected, caids)[n := EntryOf(p, caids)]
  {
    hide EntryOf;
  }

  lemma ListOfRemove(selected: map<u16, Program>, caids: seq<u16>, n: u16)
    ensures ListOf(selected - {n}, caids) == ListOf(selected, caids) - {n}
  {
    hide EntryOf;
  }

  lemma ListOfDomain(selected: map<u16, Program>, caids: seq<u16>)
    ensures ListOf(selected, caids).Keys == selected.Keys
    ensures ListOf(selected, caids) == map[] <==> selected == map[]
  {
    hide EntryOf;
    assert ListOf(selected, caids).Keys == selected.Keys;
    assert selected.Keys == {} ==> selected == map[];
  }

  lemma WantedInsert(programs: map<u16, Program>, caids: seq<u16>, p: Program)
    requires Matches(p, caids)
    ensures Wanted(programs[p.number := p], Some(caids)) == Wanted(programs, Some(caids))[p.number := p]
  {
    hide Matches;
  }

  lemma WantedReject(programs: map<u16, Program>, caids: seq<u16>, p: Program)
    requires !Matches(p, caids)
    ensures Wanted(programs[p.number := p], Some(caids)) == Wanted(programs, Some(caids)) - {p.number}
  {
    hide Matches;
  }

  lemma WantedRemove(programs: map<u16, Program>, caids: Option<seq<u16>>, n: u16)
    ensures Wanted(programs - {n}, caids) == Wanted(programs, caids) - {n}
  {
    hide Matches;
  }

  /** The list management the host picks for a select. */
  function ManagementFor(selected: map<u16, Program>, n: u16): ListManagement {
    if n in selected then Update else if selected == map[] then Only else Add
  }

  /** A select sent with the right list management lands in the module's list. */
  lemma SelectShown(h: History, h': History, id: u16, selected: map<u16, Program>, caids: seq<u16>, p: Program,
                    body: seq<byte>)
    requires Matches(p, caids)
    requires !TooLarge(p.descriptors, caids) && NoneTooLarge(p.streams, caids)
    requires body == Body(p, caids, ManagementFor(selected, p.number), OkDescrambling)
    requires Shown(h, id, ListOf(selected, caids))
    requires h'.intact ==> h.intact
    requires h'.intact && id in Believes(h.sent) ==>
               Believes(h'.sent) == Believes(h.sent)[id := TakePmt(Believes(h.sent)[id], body)]
    ensures Shown(h', id, ListOf(selected[p.number := p], caids))
  {
    hide Matches, TooLarge, NoneTooLarge, Body, ListOf, TakePmt, EntryOf, Believes;
    if h'.intact {
      ListOfDomain(selected, caids);
      ListOfInsert(selected, caids, p.number, p);
      SelectReceived(ListOf(selected, caids), p, caids, ManagementFor(selected, p.number));
    }
  }

  /** The first select after a new CA_INFO replaces whatever the module had. */
  lemma ReplaceShown(h: History, h': History, id: u16, list: ProgramList, caids: seq<u16>, p: Program,
                     body: seq<byte>)
    requires Matches(p, caids)
    requires !TooLarge(p.descriptors, caids) && NoneTooLarge(p.streams, caids)
    requires body == Body(p, caids, Only, OkDescrambling)
    requires Shown(h, id, list)
    requires h'.intact ==> h.intact
    requires h'.intact && id in Believes(h.sent) ==>
               Believes(h'.sent) == Believes(h.sent)[id := TakePmt(Believes(h.sent)[id], body)]
    ensures Shown(h', id, ListOf(map[p.number := p], caids))
  {
    hide Matches, TooLarge, NoneTooLarge, Body, ListOf, TakePmt, EntryOf, Believes;
    if h'.intact {
      ListOfEmpty(caids);
      ListOfInsert(map[], caids, p.number, p);
      SelectReceived(list, p, caids, Only);
    }
  }

  /** A withdrawal removes exactly its program from the module's list. */
  lemma WithdrawShown(h: History, h': History, id: u16, selected: map<u16, Program>, caids: seq<u16>, p: Program,
                      body: seq<byte>)
    requires Matches(p, caids) && p.number in selected
    requires !TooLarge(p.descriptors, caids) && NoneTooLarge(p.streams, caids)
    requires body == Body(p, caids, Update, NotSelected)
    requires Shown(h, id, ListOf(selected, caids))
    requires h'.intact ==> h.intact
    requires h'.intact && id in Believes(h.sent) ==>
               Believes(h'.sent) == Believes(h.sent)[id := TakePmt(Believes(h.sent)[id], body)]
    ensures Shown(h', id, ListOf(selected - {p.number}, caids))
  {
    hide Matches, TooLarge, NoneTooLarge, Body, ListOf, TakePmt, EntryOf, Believes;
    if h'.intact {
      ListOfDomain(selected, caids);
      ListOfRemove(selected, caids, p.number);
      WithdrawReceived(ListOf(selected, caids), p, caids);
    }
  }

  // ------------------------------------------------- how a session stays in sync

  lemma ViewsKeptRefl(h: History, id: u16)
    ensures ViewsKept(h, h, id)
  {
  }

  lemma UnconfirmedSynced(s: CaSession, id: u16, before: map<u16, Program>, after: map<u16, Program>, h: History)
    requires s.caids == None && Synced(s, id, before, h)
    ensures Synced(s, id, after, h)
  {
  }

  lemma UnmatchedSynced(s: CaSession, id: u16, before: map<u16, Program>, p: Program, h: History)
    requires s.caids.Some? && Synced(s, id, before, h)
    requires !Matches(p, s.caids.value) && p.number !in s.selected
    ensures Synced(s, id, before[p.number := p], h)
  {
    hide Matches, Shown;
    if h.intact {
      WantedReject(before, s.caids.value, p);
      assert s.selected - {p.number} == s.selected;
    }
  }

  lemma SelectSynced(s: CaSession, id: u16, before: map<u16, Program>, p: Program, h: History, h': History,
                     body: seq<byte>)
    requires s.caids.Some? && Synced(s, id, before, h) && Matches(p, s.caids.value)
    requires !TooLarge(p.descriptors, s.caids.value) && NoneTooLarge(p.streams, s.caids.value)
    requires body == Body(p, s.caids.value, ManagementFor(s.selected, p.number), OkDescrambling)
    requires h'.intact ==> h.intact
    requires h'.intact && id in Believes(h.sent) ==>
               Believes(h'.sent) == Believes(h.sent)[id := TakePmt(Believes(h.sent)[id], body)]
    ensures Synced(s.(selected := s.selected[p.number := p]), id, before[p.number := p], h')
  {
    hide Matches, TooLarge, NoneTooLarge, Body, ListOf, TakePmt, Believes, Shown, ManagementFor, Wanted;
    if h'.intact {
      WantedInsert(before, s.caids.value, p);
      SelectShown(h, h', id, s.selected, s.caids.value, p, body);
    }
  }

  lemma WithdrawSynced(s: CaSession, id: u16, before: map<u16, Program>, p: Program, h: History, h': History,
                       body: seq<byte>)
    requires s.caids.Some? && Synced(s, id, before, h) && !Matches(p, s.caids.value)
    requires p.number in s.selected && Matches(s.selected[p.number], s.caids.value)
    requires s.selected[p.number].number == p.number
    requires var was := s.selected[p.number];
             && !TooLarge(was.descriptors, s.caids.value) && NoneTooLarge(was.streams, s.caids.value)
             && body == Body(was, s.caids.value, Update, NotSelected)
    requires h'.intact ==> h.intact
    requires h'.intact && id in Believes(h.sent) ==>
               Believes(h'.sent) == Believes(h.sent)[id := TakePmt(Believes(h.sent)[id], body)]
    ensures Synced(s.(selected := s.selected - {p.number}), id, before[p.number := p], h')
  {
    hide Matches, TooLarge, NoneTooLarge, Body, ListOf, TakePmt, Believes, Shown, Wanted;
    if h'.intact {
      WantedReject(before, s.caids.value, p);
      WithdrawShown(h, h', id, s.selected, s.caids.value, s.selected[p.number], body);
    }
  }

  lemma RemoveSynced(s: CaSession, id: u16, before: map<u16, Program>, n: u16, h: History, h': History,
                     body: seq<byte>)
    requires s.caids.Some? && Synced(s, id, before, h)
    requires n in s.selected && Matches(s.selected[n], s.caids.value) && s.selected[n].number == n
    requires var p := s.selected[n];
             && !TooLarge(p.descriptors, s.caids.value) && NoneTooLarge(p.streams, s.caids.value)
             && body == Body(p, s.caids.value, Update, NotSelected)
    requires h'.intact ==> h.intact
    requires h'.intact && id in Believes(h.sent) ==>
               Believes(h'.sent) == Believes(h.sent)[id := TakePmt(Believes(h.sent)[id], body)]
    ensures Synced(s.(selected := s.selected - {n}), id, before - {n}, h')
  {
    hide Matches, TooLarge, NoneTooLarge, Body, ListOf, TakePmt, Believes, Shown, Wanted;
    if h'.intact {
      WantedRemove(before, s.caids, n);
      WithdrawShown(h, h', id, s.selected, s.caids.value, s.selected[n], body);
    }
  }

  lemma NotSelectedSynced(s: CaSession, id: u16, before: map<u16, Program>, n: u16, h: History)
    requires Synced(s, id, before, h) && n !in s.selected
    ensures Synced(s, id, before - {n}, h)
  {
    hide Shown, Wanted;
    if h.intact {
      WantedRemove(before, s.caids, n);
      assert s.selected - {n} == s.selected;
    }
  }

  lemma SelectedMatches(sessions: map<u16, CaSession>, programs: map<u16, Program>, id: u16, n: u16)
    requires RegistryOk(sessions, programs) && id in sessions && n in sessions[id].selected
    ensures sessions[id].caids.Some? && sessions[id].selected[n].number == n
    ensures Matches(sessions[id].selected[n], sessions[id].caids.value)
  {
  }

  lemma SelectRegistry(sessions: map<u16, CaSession>, programs: map<u16, Program>, id: u16, p: Program)
    requires RegistryOk(sessions, programs) && id in sessions && sessions[id].caids.Some?
    requires Matches(p, sessions[id].caids.value)
    ensures RegistryOk(sessions[id := sessions[id].(selected := sessions[id].selected[p.number := p])], programs)
  {
    hide Matches;
  }

  lemma WithdrawRegistry(sessions: map<u16, CaSession>, programs: map<u16, Program>, id: u16, n: u16)
    requires RegistryOk(sessions, programs) && id in sessions
    ensures RegistryOk(sessions[id := sessions[id].(selected := sessions[id].selected - {n})], programs)
  {
    hide Matches;
  }

  // ------------------------------------------------------- a new CA_INFO arrives

  function Restrict(programs: map<u16, Program>, keys: set<u16>): map<u16, Program> {
    map n | n in programs && n in keys :: programs[n]
  }

  /** While the selection is rebuilt for `caids`: nothing sent yet means the module
      still shows the previous list, otherwise it shows what is selected so far. */
  predicate Rebuilding(h: History, id: u16, list: ProgramList, selected: map<u16, Program>, caids: seq<u16>) {
    Shown(h, id, if selected == map[] then list else ListOf(selected, caids))
  }

  lemma RebuildStart(h: History, id: u16, list: ProgramList, caids: seq<u16>)
    requires Shown(h, id, list)
    ensures Rebuilding(h, id, list, map[], caids)
  {
  }

  lemma RebuildSelect(h: History, h': History, id: u16, list: ProgramList, selected: map<u16, Program>,
                      caids: seq<u16>, p: Program, body: seq<byte>)
    requires Rebuilding(h, id, list, selected, caids) && p.number !in selected
    requires Matches(p, caids)
    requires !TooLarge(p.descriptors, caids) && NoneTooLarge(p.streams, caids)
    requires body == Body(p, caids, if selected == map[] then Only else Add, OkDescrambling)
    requires h'.intact ==> h.intact
    requires h'.intact && id in Believes(h.sent) ==>
               Believes(h'.sent) == Believes(h.sent)[id := TakePmt(Believes(h.sent)[id], body)]
    ensures Rebuilding(h', id, list, selected[p.number := p], caids)
  {
    hide Matches, TooLarge, NoneTooLarge, Body, ListOf, TakePmt, Believes, Shown;
    assert selected[p.number := p] != map[] by {
      assert p.number in selected[p.number := p];
    }
    if selected == map[] {
      ReplaceShown(h, h', id, list, caids, p, body);
    } else {
      SelectShown(h, h', id, selected, caids, p, body);
    }
  }

  lemma RestrictStep(programs: map<u16, Program>, keys: set<u16>, n: u16, caids: seq<u16>)
    requires n in programs && n !in keys
    ensures Wanted(Restrict(programs, keys + {n}), Some(caids))
         == if Matches(programs[n], caids) then Wanted(Restrict(programs, keys), Some(caids))[n := programs[n]]
            else Wanted(Restrict(programs, keys), Some(caids))
    ensures n !in Wanted(Restrict(programs, keys), Some(caids))
  {
    hide Matches;
  }

  lemma RestrictBounds(programs: map<u16, Program>, caids: seq<u16>)
    ensures Wanted(Restrict(programs, {}), Some(caids)) == map[]
    ensures Restrict(programs, programs.Keys) == programs
  {
    hide Matches;
  }

  lemma WantedSelectable(slotId: byte, programs: map<u16, Program>, caids: seq<u16>)
    requires Keyed(programs)
    ensures Selectable(CaSession(slotId, Some(caids), Wanted(programs, Some(caids))))
  {
    hide Matches;
  }

  lemma ResetRegistry(sessions: map<u16, CaSession>, programs: map<u16, Program>, id: u16, s: CaSession)
    requires RegistryOk(sessions, programs) && Selectable(s)
    ensures RegistryOk(sessions[id := s], programs)
  {
    hide Selectable;
  }

  /** Nothing of what was selected is left for the module to hold on to. */
  lemma WithdrawnAll(h: History, id: u16, selected: map<u16, Program>, caids: seq<u16>)
    requires Shown(h, id, ListOf(selected, caids)) && selected == map[]
    ensures Shown(h, id, map[])
  {
    ListOfEmpty(caids);
  }

  lemma EmptySelectable(slotId: byte, caids: seq<u16>)
    ensures Selectable(CaSession(slotId, Some(caids), map[]))
  {
  }

  lemma ShownIfSynced(s: CaSession, id: u16, programs: map<u16, Program>, h: History)
    requires Synced(s, id, programs, h)
    ensures Shown(h, id, ListOf(s.selected, Confirmed(s)))
  {
  }

  lemma SelectableUnconfirmed(sessions: map<u16, CaSession>, programs: map<u16, Program>, id: u16)
    requires RegistryOk(sessions, programs) && id in sessions
    ensures Selectable(sessions[id]) && Keyed(programs)
    ensures sessions[id].caids == None ==> sessions[id].selected == map[]
  {
  }

  lemma UnconfirmedRegistry(sessions: map<u16, CaSession>, programs: map<u16, Program>, id: u16, slotId: byte)
    requires RegistryOk(sessions, programs)
    ensures RegistryOk(sessions[id := CaSession(slotId, None, map[])], programs)
  {
    hide Matches;
  }

  lemma CloseRegistry(sessions: map<u16, CaSession>, programs: map<u16, Program>, id: u16)
    requires RegistryOk(sessions, programs)
    ensures RegistryOk(sessions - {id}, programs)
  {
    hide Matches;
  }
}
