/** The session table: numbers shared by all slots, a quota for each of them. */
module SessionTable {
  import opened Basics
  import opened Resources

  /** Highest number of concurrent sessions per slot. */
  const MAX_SLOT_SESSIONS: nat := 16

  datatype SessionState = Active | Closing

  datatype Session = Session(slotId: byte, resource: Kind, state: SessionState)

  /** Indexed by session number - 1. */
  type Table = seq<Option<Session>>

  function Live(table: Table, id: u16): Option<Session> {
    if id == 0 || id > |table| then None else table[id - 1]
  }

  predicate On(entry: Option<Session>, slotId: int) {
    entry.Some? && entry.value.slotId == slotId
  }

  /** How many sessions of the slot are in the table. */
  function Used(table: Table, slotId: int): nat {
    if table == [] then 0
    else Used(table[..|table| - 1], slotId) + (if On(table[|table| - 1], slotId) then 1 else 0)
  }

  function FirstFree(table: Table): (index: nat)
    ensures index <= |table|
    ensures forall i | 0 <= i < index :: table[i].Some?
    ensures index < |table| ==> table[index] == None
  {
    if table == [] || table[0] == None then 0
    else
      var rest := FirstFree(table[1..]);
      assert forall i | 0 < i < rest + 1 :: table[i] == table[1..][i - 1];
      rest + 1
  }

  function Place(table: Table, index: nat, session: Session): Table
    requires index <= |table|
  {
    if index == |table| then table + [Some(session)] else table[index := Some(session)]
  }

  predicate Quotas(table: Table, slotsNum: byte) {
    && |table| <= MAX_SLOT_SESSIONS * slotsNum
    && (forall i | 0 <= i < |table| && table[i].Some? :: table[i].value.slotId < slotsNum)
    && (forall s | 0 <= s < slotsNum :: Used(table, s) <= MAX_SLOT_SESSIONS)
  }

  // ----------------------------------------------------------------- counting

  lemma {:induction false} UsedUpdate(table: Table, index: nat, entry: Option<Session>, slotId: int)
    requires index < |table|
    ensures Used(table[index := entry], slotId)
         == Used(table, slotId) - (if On(table[index], slotId) then 1 else 0)
            + (if On(entry, slotId) then 1 else 0)
  {
    var front := table[..|table| - 1];
    var after := table[index := entry];
    if index == |table| - 1 {
      assert after[..|table| - 1] == front;
    } else {
      assert after[..|table| - 1] == front[index := entry];
      UsedUpdate(front, index, entry, slotId);
    }
  }

  lemma UsedAppend(table: Table, entry: Option<Session>, slotId: int)
    ensures Used(table + [entry], slotId) == Used(table, slotId) + (if On(entry, slotId) then 1 else 0)
  {
    assert (table + [entry])[..|table|] == table;
  }

  /** Sessions of the first `n` slots together. */
  function Together(table: Table, n: nat): nat {
    if n == 0 then 0 else Together(table, n - 1) + Used(table, n - 1)
  }

  lemma {:induction false} TogetherAppend(table: Table, entry: Session, n: nat)
    ensures Together(table + [Some(entry)], n) == Together(table, n) + (if entry.slotId < n then 1 else 0)
  {
    if n > 0 {
      TogetherAppend(table, entry, n - 1);
      UsedAppend(table, Some(entry), n - 1);
    }
  }

  lemma {:induction false} TogetherEmpty(n: nat)
    ensures Together([], n) == 0
  {
    if n > 0 {
      TogetherEmpty(n - 1);
    }
  }

  /** A table without free entries is as long as its slots' sessions together. */
  lemma {:induction false} FullTable(table: Table, n: nat)
    requires forall i | 0 <= i < |table| :: table[i].Some? && table[i].value.slotId < n
    ensures |table| == Together(table, n)
    decreases |table|
  {
    if table == [] {
      TogetherEmpty(n);
    } else {
      var front := table[..|table| - 1];
      assert table == front + [table[|table| - 1]];
      FullTable(front, n);
      TogetherAppend(front, table[|table| - 1].value, n);
    }
  }

  lemma {:induction false} TogetherBound(table: Table, n: nat, slotId: nat)
    requires forall s | 0 <= s < n :: Used(table, s) <= MAX_SLOT_SESSIONS
    requires slotId < n ==> Used(table, slotId) < MAX_SLOT_SESSIONS
    ensures Together(table, n) <= MAX_SLOT_SESSIONS * n - (if slotId < n then 1 else 0)
  {
    if n > 0 {
      TogetherBound(table, n - 1, slotId);
    }
  }

  /** A slot below its quota always gets a number, and the table never outgrows
      the quotas: at most 16 * 255 = 4080 entries, so every number fits 16 bits. */
  lemma PlaceKeepsQuotas(table: Table, slotsNum: byte, session: Session)
    requires Quotas(table, slotsNum) && session.slotId < slotsNum
    requires Used(table, session.slotId) < MAX_SLOT_SESSIONS
    ensures var after := Place(table, FirstFree(table), session);
            Quotas(after, slotsNum) && |after| <= 4080
  {
    var index := FirstFree(table);
    var after := Place(table, index, session);
    forall s | 0 <= s < slotsNum ensures Used(after, s) <= MAX_SLOT_SESSIONS {
      if index == |table| {
        UsedAppend(table, Some(session), s);
      } else {
        UsedUpdate(table, index, Some(session), s);
      }
    }
    if index == |table| {
      FullTable(table, slotsNum);
      TogetherBound(table, slotsNum, session.slotId);
    }
  }

  lemma UpdateKeepsQuotas(table: Table, slotsNum: byte, index: nat, entry: Option<Session>)
    requires Quotas(table, slotsNum) && index < |table|
    requires entry.Some? ==> table[index].Some? && table[index].value.slotId == entry.value.slotId
    ensures Quotas(table[index := entry], slotsNum)
  {
    var after := table[index := entry];
    forall s | 0 <= s < slotsNum ensures Used(after, s) <= MAX_SLOT_SESSIONS {
      UsedUpdate(table, index, entry, s);
    }
  }

  /** The new number is non-zero, was free, and is the lowest free one; every
      other number keeps its session. */
  lemma PlaceFresh(table: Table, session: Session)
    requires FirstFree(table) < 0xFFFF
    ensures var index := FirstFree(table);
            var after := Place(table, index, session);
            && Live(table, index + 1) == None && Live(after, index + 1) == Some(session)
            && (forall id: u16 | id != index + 1 :: Live(after, id) == Live(table, id))
            && (forall id: u16 | 0 < id <= index :: Live(table, id).Some?)
  {
  }
}
