/** What the application must be told of the objects on a session, by the tags and bodies
    of EN 50221, section 8, and by nothing the resources compute. */
module Reports {
  import opened Basics
  import opened Events
  import opened Mmi
  import opened Resources
  import opened World
  import AI = ApplicationInformation
  import Apdu
  import CA = ConditionalAccess

  /** The reports of one object on a session of `kind`; `fragment` is what came of an MMI
      object so far. A refused object is reported as malformed data. */
  function ObjectReports(kind: Kind, slotId: byte, id: u16, fragment: Option<seq<byte>>, a: Apdu.Apdu): seq<CaEvent> {
    match kind
    case ResourceManager => if 0x9F_8010 <= a.tag <= 0x9F_8012 then [] else [MalformedData(slotId)]
    case ApplicationInformation =>
      var info := AI.ParseApplicationInfo(a.body);
      if a.tag == 0x9F_8021 && info.Ok? then [AppInfoReceived(slotId, info.value)] else [MalformedData(slotId)]
    case ConditionalAccess =>
      var caids := CA.ParseCaInfo(a.body);
      if a.tag == 0x9F_8031 && caids.Ok? then [CaInfoReceived(slotId, id, caids.value)]
      else if a.tag == 0x9F_8033 || a.tag == 0x9F_8034 then []
      else [MalformedData(slotId)]
    case HostControl =>
      if (a.tag == 0x9F_8400 && |a.body| >= 8) || (a.tag == 0x9F_8401 && |a.body| >= 5)
         || (a.tag == 0x9F_8402 && |a.body| >= 1)
      then [HostRequest(slotId, a.tag, a.body)] else [MalformedData(slotId)]
    case DateTime => if a.tag == 0x9F_8440 then [] else [MalformedData(slotId)]
    case Mmi => Dialogue(slotId, id, SoFar(fragment), a.tag, a.body)
  }

  /** What is collected of an MMI object behind this one. */
  function Collected(kind: Kind, fragment: Option<seq<byte>>, a: Apdu.Apdu): Option<seq<byte>> {
    if kind != Mmi then fragment
    else if a.tag in {0x9F_8804, 0x9F_880A, 0x9F_880D} then
      var whole := SoFar(fragment) + a.body;
      if |whole| > 65536 then None else Some(whole)
    else if a.tag in {0x9F_8803, 0x9F_8809, 0x9F_880C} then None
    else fragment
  }

  /** The reports of a whole payload, in order and up to the first damaged object. */
  function ReportsAll(kind: Kind, slotId: byte, id: u16, fragment: Option<seq<byte>>, objects: seq<Result<Apdu.Apdu>>)
    : seq<CaEvent>
    decreases |objects|
  {
    if objects == [] then []
    else if objects[0].Err? then [MalformedData(slotId)]
    else
      ObjectReports(kind, slotId, id, fragment, objects[0].value)
      + ReportsAll(kind, slotId, id, Collected(kind, fragment, objects[0].value), objects[1..])
  }

  lemma NothingReported(kind: Kind, slotId: byte, id: u16, fragment: Option<seq<byte>>)
    ensures ReportsAll(kind, slotId, id, fragment, []) == [] && Apdu.ParseAll([]) == []
  {
  }

  lemma MmiReports(slotId: byte, b: Books, id: u16, a: Apdu.Apdu)
    ensures ObjectReports(Mmi, slotId, id, DigestOf(b, id).fragment, a)
         == Dialogue(slotId, id, SoFar(FragmentOf(b.fragments, id)), a.tag, a.body)
  {
    hide Dialogue;
  }

  /** The reports still to come, seen from the next object. */
  lemma ReportsStep(kind: Kind, slotId: byte, id: u16, fragment: Option<seq<byte>>,
                    all: seq<Result<Apdu.Apdu>>, item: Result<Apdu.Apdu>, rest: seq<Result<Apdu.Apdu>>)
    requires all == [item] + rest
    ensures ReportsAll(kind, slotId, id, fragment, all)
         == if item.Err? then [MalformedData(slotId)]
            else ObjectReports(kind, slotId, id, fragment, item.value)
                 + ReportsAll(kind, slotId, id, Collected(kind, fragment, item.value), rest)
  {
    assert all[1..] == rest;
    hide ObjectReports, Collected;
  }

  /** What the session layer keeps of an MMI object is what is collected of it. */
  lemma DigestCollects(d: Digest, kind: Kind, a: Apdu.Apdu)
    ensures Digested(d, kind, a.tag, a.body).fragment == Collected(kind, d.fragment, a)
  {
  }

  function CollectedAll(kind: Kind, fragment: Option<seq<byte>>, objects: seq<Apdu.Apdu>): Option<seq<byte>>
    decreases |objects|
  {
    if objects == [] then fragment else CollectedAll(kind, Collected(kind, fragment, objects[0]), objects[1..])
  }

  /** Objects may come in one payload or in several. */
  lemma {:induction false} ReportsSplit(kind: Kind, slotId: byte, id: u16, fragment: Option<seq<byte>>,
                                        first: seq<Apdu.Apdu>, rest: seq<Result<Apdu.Apdu>>)
    ensures ReportsAll(kind, slotId, id, fragment, Apdu.AllOk(first) + rest)
         == ReportsAll(kind, slotId, id, fragment, Apdu.AllOk(first))
            + ReportsAll(kind, slotId, id, CollectedAll(kind, fragment, first), rest)
    decreases |first|
  {
    hide ObjectReports, Collected, ReportsAll;
    var all := Apdu.AllOk(first);
    if first == [] {
      NothingReported(kind, slotId, id, fragment);
      assert all + rest == rest;
    } else {
      var tail := Apdu.AllOk(first[1..]);
      assert all == [Ok(first[0])] + tail && all + rest == [Ok(first[0])] + (tail + rest);
      ReportsStep(kind, slotId, id, fragment, all, Ok(first[0]), tail);
      ReportsStep(kind, slotId, id, fragment, all + rest, Ok(first[0]), tail + rest);
      ReportsSplit(kind, slotId, id, Collected(kind, fragment, first[0]), first[1..], rest);
    }
  }

  /** The pieces of a menu, as the module sends them. */
  function MenuPieces(pieces: seq<seq<byte>>): seq<Apdu.Apdu> {
    seq(|pieces|, i requires 0 <= i < |pieces| => Apdu.Apdu(0x9F_880A, pieces[i]))
  }

  /** Pieces within the cap are collected and not reported. */
  lemma {:induction false} PiecesSilent(slotId: byte, id: u16, fragment: Option<seq<byte>>, pieces: seq<seq<byte>>)
    requires |SoFar(fragment) + Flatten(pieces)| <= MAX_OBJECT_SIZE
    ensures ReportsAll(Mmi, slotId, id, fragment, Apdu.AllOk(MenuPieces(pieces))) == []
    ensures var got := CollectedAll(Mmi, fragment, MenuPieces(pieces));
            SoFar(got) == SoFar(fragment) + Flatten(pieces)
    decreases |pieces|
  {
    var soFar := SoFar(fragment);
    if pieces == [] {
      assert soFar + [] == soFar;
    } else {
      var objects := MenuPieces(pieces);
      assert objects[1..] == MenuPieces(pieces[1..]);
      assert Apdu.AllOk(objects)[1..] == Apdu.AllOk(objects[1..]);
      assert (soFar + pieces[0]) + Flatten(pieces[1..]) == soFar + Flatten(pieces);
      PiecesSilent(slotId, id, Some(soFar + pieces[0]), pieces[1..]);
    }
  }

  /** A menu sent in pieces, cut anywhere within the cap, is reported once, as that menu;
      the same whatever payloads the pieces come in (`ReportsSplit`). */
  lemma MenuReported(slotId: byte, id: u16, pieces: seq<seq<byte>>, last: seq<byte>,
                     choiceNb: byte, title: seq<seq<byte>>, subTitle: seq<seq<byte>>, bottom: seq<seq<byte>>,
                     items: seq<seq<seq<byte>>>, rest: seq<byte>)
    requires |Flatten(pieces)| <= MAX_OBJECT_SIZE
    requires ChunksFit(title) && ChunksFit(subTitle) && ChunksFit(bottom)
    requires forall i | 0 <= i < |items| :: ChunksFit(items[i])
    requires TextAt(rest) == None
    requires Flatten(pieces) + last
          == [choiceNb] + EncodeText(title) + EncodeText(subTitle) + EncodeText(bottom) + EncodeTexts(items) + rest
    ensures ReportsAll(Mmi, slotId, id, None, Apdu.AllOk(MenuPieces(pieces) + [Apdu.Apdu(0x9F_8809, last)]))
         == [MmiMenuShown(slotId, id, MmiMenu(Flatten(title), Flatten(subTitle), Flatten(bottom), Whole(items)))]
  {
    var more := MenuPieces(pieces);
    var end := [Apdu.Apdu(0x9F_8809, last)];
    assert [] + Flatten(pieces) == Flatten(pieces);
    PiecesSilent(slotId, id, None, pieces);
    assert Apdu.AllOk(more + end) == Apdu.AllOk(more) + Apdu.AllOk(end);
    ReportsSplit(Mmi, slotId, id, None, more, Apdu.AllOk(end));
    MenuRoundTrip(choiceNb, title, subTitle, bottom, items, rest);
    LastReported(slotId, id, CollectedAll(Mmi, None, more), last);
    hide TextAt, EncodeText, EncodeTexts, MenuOf, Whole, ReportsAll, CollectedAll, ChunksFit, Flatten;
  }

  lemma LastReported(slotId: byte, id: u16, fragment: Option<seq<byte>>, last: seq<byte>)
    ensures ReportsAll(Mmi, slotId, id, fragment, Apdu.AllOk([Apdu.Apdu(0x9F_8809, last)]))
         == [MmiMenuShown(slotId, id, MenuOf(SoFar(fragment) + last))]
  {
    hide MenuOf;
    var objects := Apdu.AllOk([Apdu.Apdu(0x9F_8809, last)]);
    assert ReportsAll(Mmi, slotId, id, None, objects[1..]) == [];
  }
}
