/** An ideal module: what it believes after reading everything the host sent on a
    slot. It keeps one program list per Conditional Access session and obeys the
    list management of EN 50221, section 8.4.3.4, strictly: any misuse confuses
    it for the rest of the session. */
module Cam {
  import opened Basics
  import opened Wire
  import opened CaPmt
  import Apdu
  import Spdu

  /** What the module keeps of one selected program. */
  datatype Entry = Entry(version: byte, info: CaInfo, streams: seq<CaStream>)

  type ProgramList = map<u16, Entry>

  /** Every command present in the object is `command`, and there is at least one. */
  predicate Commands(o: CaPmt, command: byte) {
    && (o.info.Info? || exists i | 0 <= i < |o.streams| :: o.streams[i].info.Info?)
    && (o.info.Info? ==> o.info.command == command)
    && forall i | 0 <= i < |o.streams| ::
         o.streams[i].info.Info? ==> o.streams[i].info.command == command
  }

  /** One CA_PMT object arrives, read by the codes of section 8.4.3.4. With
      ok_descrambling (1), only (3) replaces the list, add (4) extends a non-empty list
      by a new program, and update (5) replaces a listed program; update with
      not_selected (4) withdraws one. Nothing else is meaningful. */
  function Obey(list: ProgramList, o: CaPmt): Option<ProgramList> {
    var entry := Entry(o.version, o.info, o.streams);
    if Commands(o, 1) then
      if o.list == 3 then Some(map[o.number := entry])
      else if o.list == 4 && list != map[] && o.number !in list then Some(list[o.number := entry])
      else if o.list == 5 && o.number in list then Some(list[o.number := entry])
      else None
    else if Commands(o, 4) && o.list == 5 && o.number in list then
      Some(list - {o.number})
    else None
  }

  function TakePmt(list: Option<ProgramList>, body: seq<byte>): Option<ProgramList> {
    if list == None || ParseCaPmt(body) == None then None
    else Obey(list.value, ParseCaPmt(body).value)
  }

  /** The entry a program selected under these CAIDs must have in the module. */
  function EntryOf(p: ProgramData, caids: seq<u16>): Entry {
    Entry(p.version % 0x20, InfoOf(p.descriptors, caids, 1), StreamsOf(p.streams, caids, 1))
  }

  /** The list a session's selection must correspond to. */
  function ListOf(selected: map<u16, Program>, caids: seq<u16>): ProgramList {
    map n | n in selected :: EntryOf(selected[n], caids)
  }

  lemma MeaningCommands(p: ProgramData, caids: seq<u16>, list: byte, command: byte)
    requires Matches(p, caids)
    ensures Commands(Meaning(p, caids, list, command), command)
  {
    var o := Meaning(p, caids, list, command);
    if AnyMatches(p.descriptors, caids) {
      MatchingEmpty(p.descriptors, caids);
    } else {
      var i :| 0 <= i < |p.streams| && AnyMatches(p.streams[i].descriptors, caids);
      MatchingEmpty(p.streams[i].descriptors, caids);
      assert o.streams[i].info.Info?;
    }
  }

  /** A selecting body reaches the module as the program's own entry. */
  lemma SelectReceived(list: ProgramList, p: Program, caids: seq<u16>, management: ListManagement)
    requires Matches(p, caids)
    requires !TooLarge(p.descriptors, caids) && NoneTooLarge(p.streams, caids)
    requires management == Add ==> list != map[] && p.number !in list
    requires management == Update ==> p.number in list
    ensures TakePmt(Some(list), Body(p, caids, management, OkDescrambling))
         == Some((if management == Only then map[] else list)[p.number := EntryOf(p, caids)])
  {
    BodyRoundTrip(p, caids, management, OkDescrambling);
    MeaningCommands(p, caids, ListByte(management), 1);
    hide Commands, Body, TooLarge, NoneTooLarge, InfoOf, StreamsOf, ParseCaPmt, Matches;
  }

  lemma WithdrawReceived(list: ProgramList, p: Program, caids: seq<u16>)
    requires Matches(p, caids)
    requires !TooLarge(p.descriptors, caids) && NoneTooLarge(p.streams, caids)
    requires p.number in list
    ensures TakePmt(Some(list), Body(p, caids, Update, NotSelected)) == Some(list - {p.number})
  {
    BodyRoundTrip(p, caids, Update, NotSelected);
    MeaningCommands(p, caids, 5, 4);
    assert !Commands(Meaning(p, caids, 5, 4), 1) by {
      var o := Meaning(p, caids, 5, 4);
      if o.info.NoInfo? {
        var i :| 0 <= i < |o.streams| && o.streams[i].info.Info?;
        assert o.streams[i].info.command == 4;
      }
    }
    hide Commands, Body, TooLarge, NoneTooLarge, InfoOf, StreamsOf, ParseCaPmt, Matches;
  }

  // ------------------------------------------------------- the module's sessions

  /** The program list of each CA session the module has open; `None` once confused. */
  type View = map<u16, Option<ProgramList>>

  /** Class 3, type 1, of any version. */
  predicate IsConditionalAccess(resourceId: u32) {
    resourceId / 0x40 == 0x0003_0040 / 0x40
  }

  /** One SPDU from the host, by the tags of section 7.2.7: open_session_response,
      close_session_response and session_number; of the objects behind the last one
      only ca_pmt matters here. */
  function ReadSpdu(view: View, spdu: seq<byte>): View {
    if |spdu| == 9 && spdu[0] == 0x92 && spdu[1] == 7 then
      var sessionId := ReadU16(spdu[7..9]);
      if spdu[2] != 0 then view
      else if IsConditionalAccess(ReadU32(spdu[3..7])) then view[sessionId := Some(map[])]
      else view - {sessionId}
    else if |spdu| == 5 && spdu[0] == 0x96 && spdu[1] == 3 then
      if spdu[2] == 0 then view - {ReadU16(spdu[3..5])} else view
    else if |spdu| >= 4 && spdu[0] == 0x90 && spdu[1] == 2 then
      var sessionId := ReadU16(spdu[2..4]);
      match Apdu.ParseAt(spdu[4..])
      case Err(_) => view
      case Ok((apdu, _)) =>
        if apdu.tag == 0x9F_8032 && sessionId in view
        then view[sessionId := TakePmt(view[sessionId], apdu.body)]
        else view
    else view
  }

  function Read(view: View, item: Item): View {
    match item
    case Single(_, _) => view
    case Spdu(bytes) => ReadSpdu(view, bytes)
  }

  /** What the module believes after everything the host sent it. */
  function Believes(items: seq<Item>): View {
    if items == [] then map[] else Read(Believes(items[..|items| - 1]), items[|items| - 1])
  }

  lemma BelievesAppend(items: seq<Item>, item: Item)
    ensures Believes(items + [item]) == Read(Believes(items), item)
  {
    assert (items + [item])[..|items|] == items;
  }

  function ApduItem(sessionId: u16, tag: Apdu.ApduTag, body: seq<byte>): Item
    requires |body| < 0x1_0000
  {
    Item.Spdu(Spdu.BuildSessionNumber(sessionId) + Apdu.Build(tag, body))
  }

  lemma ReadApdu(view: View, sessionId: u16, tag: Apdu.ApduTag, body: seq<byte>)
    requires |body| < 0x1_0000
    ensures Read(view, ApduItem(sessionId, tag, body))
         == if tag == Apdu.CA_PMT && sessionId in view
            then view[sessionId := TakePmt(view[sessionId], body)] else view
  {
    var coded := Apdu.Build(tag, body);
    var spdu := Spdu.BuildSessionNumber(sessionId) + coded;
    assert |spdu| > 9 || |spdu| == 4 + |coded|;
    assert spdu[0] == Spdu.SESSION_NUMBER;
    assert spdu[2..4] == BigEndian(sessionId) && spdu[4..] == coded;
    ReadU16Inverse(sessionId, BigEndian(sessionId));
    Apdu.BuildRoundTrip(Apdu.Apdu(tag, body), []);
    assert coded + [] == coded;
    hide Apdu.ParseAt, TakePmt, Apdu.Build;
  }

  lemma ReadOpenResponse(view: View, status: byte, resourceId: u32, sessionId: u16)
    ensures Read(view, Item.Spdu(Spdu.BuildOpenSessionResponse(status, resourceId, sessionId)))
         == if status != Spdu.SS_OK then view
            else if IsConditionalAccess(resourceId) then view[sessionId := Some(map[])]
            else view - {sessionId}
  {
    var spdu := Spdu.BuildOpenSessionResponse(status, resourceId, sessionId);
    assert spdu[3..7] == BigEndian32(resourceId) && spdu[7..9] == BigEndian(sessionId);
    ReadU32Inverse(resourceId, BigEndian32(resourceId));
    ReadU16Inverse(sessionId, BigEndian(sessionId));
    hide IsConditionalAccess;
  }

  lemma ReadCloseResponse(view: View, status: byte, sessionId: u16)
    ensures Read(view, Item.Spdu(Spdu.BuildCloseSessionResponse(status, sessionId)))
         == if status == Spdu.SS_OK then view - {sessionId} else view
  {
    var spdu := Spdu.BuildCloseSessionResponse(status, sessionId);
    assert spdu[3..5] == BigEndian(sessionId);
    ReadU16Inverse(sessionId, BigEndian(sessionId));
  }

  lemma ReadCloseRequest(view: View, sessionId: u16)
    ensures Read(view, Item.Spdu(Spdu.BuildCloseSessionRequest(sessionId))) == view
  {
  }
}
