/** Man-Machine Interface resource (EN 50221, section 8.6): dialogue objects, their
    reassembly, and the menu parser. */
module Mmi {
  import opened Basics
  import opened Cam
  import opened Events
  import opened Sending
  import opened Transport
  import Apdu

  const MAX_OBJECT_SIZE: nat := 65536

  // ------------------------------------------------------------- text objects

  /** A text_more chain closed by text_last at the start of `data`. */
  function TextAt(data: seq<byte>): Option<(seq<byte>, nat)> {
    match Apdu.ParseAt(data)
    case Err(_) => None
    case Ok((a, size)) =>
      if a.tag == Apdu.TEXT_LAST then Some((a.body, size))
      else if a.tag == Apdu.TEXT_MORE then
        assert 0 < size <= |data| by { Apdu.ParseAtExact(data, a, size); }
        match TextAt(data[size..])
        case None => None
        case Some((text, used)) => Some((a.body + text, size + used))
      else None
  }

  lemma {:induction false} TextAtUses(data: seq<byte>)
    ensures TextAt(data).Some? ==> 0 < TextAt(data).value.1 <= |data|
    decreases |data|
  {
    match Apdu.ParseAt(data)
    case Err(_) =>
    case Ok((a, size)) =>
      Apdu.ParseAtExact(data, a, size);
      if a.tag == Apdu.TEXT_MORE {
        TextAtUses(data[size..]);
      }
  }

  /** What the loop has already read, put in front of what is still to be read. */
  function Continue(text: seq<byte>, offset: nat, rest: Option<(seq<byte>, nat)>): Option<(seq<byte>, nat)> {
    match rest
    case None => None
    case Some((more, used)) => Some((text + more, offset + used))
  }

  /** How one object decides what a text is. */
  lemma TextAtCases(data: seq<byte>, offset: nat, text: seq<byte>)
    requires offset <= |data|
    ensures match Apdu.ParseAt(data[offset..])
            case Err(_) => TextAt(data[offset..]) == None
            case Ok((a, size)) =>
              && 0 < size <= |data| - offset
              && (a.tag == Apdu.TEXT_LAST ==>
                    Continue(text, offset, TextAt(data[offset..])) == Some((text + a.body, offset + size)))
              && (a.tag == Apdu.TEXT_MORE ==>
                    Continue(text, offset, TextAt(data[offset..]))
                    == Continue(text + a.body, offset + size, TextAt(data[offset + size..])))
              && (a.tag != Apdu.TEXT_LAST && a.tag != Apdu.TEXT_MORE ==> TextAt(data[offset..]) == None)
  {
    match Apdu.ParseAt(data[offset..])
    case Err(_) => TextErr(data[offset..]);
    case Ok((a, size)) =>
      Apdu.ParseAtExact(data[offset..], a, size);
      TextOk(data[offset..], a, size);
      assert data[offset..][size..] == data[offset + size..];
      hide Apdu.ParseAt, TextAt;
      if a.tag == Apdu.TEXT_MORE {
        ContinueStep(text, offset, a.body, size, TextAt(data[offset + size..]));
      }
  }

  lemma TextErr(data: seq<byte>)
    requires Apdu.ParseAt(data).Err?
    ensures TextAt(data) == None
  {
    hide Apdu.ParseAt;
  }

  lemma TextOk(data: seq<byte>, a: Apdu.Apdu, size: nat)
    requires Apdu.ParseAt(data) == Ok((a, size)) && 0 < size <= |data|
    ensures a.tag == Apdu.TEXT_LAST ==> TextAt(data) == Some((a.body, size))
    ensures a.tag == Apdu.TEXT_MORE ==> TextAt(data) == Continue(a.body, size, TextAt(data[size..]))
    ensures a.tag != Apdu.TEXT_LAST && a.tag != Apdu.TEXT_MORE ==> TextAt(data) == None
  {
    hide Apdu.ParseAt;
  }

  method ParseText(data: seq<byte>) returns (r: Option<(seq<byte>, nat)>)
    ensures r == TextAt(data)
  {
    hide *;
    var text: seq<byte> := [];
    var offset := 0;
    assert data[0..] == data;
    ContinueStart(TextAt(data));
    while true
      invariant offset <= |data|
      invariant TextAt(data) == Continue(text, offset, TextAt(data[offset..]))
      decreases |data| - offset
    {
      TextAtCases(data, offset, text);
      ContinueNone(text, offset);
      var parsed := Apdu.ParseAt(data[offset..]);
      if parsed.Err? {
        return None;
      }
      var (a, size) := parsed.value;
      if a.tag == Apdu.TEXT_LAST {
        return Some((text + a.body, offset + size));
      }
      if a.tag != Apdu.TEXT_MORE {
        return None;
      }
      text := text + a.body;
      offset := offset + size;
    }
  }

  lemma ContinueNone(text: seq<byte>, offset: nat)
    ensures Continue(text, offset, None) == None
  {
  }

  lemma ContinueStart(rest: Option<(seq<byte>, nat)>)
    ensures Continue([], 0, rest) == rest
  {
    if rest.Some? {
      assert [] + rest.value.0 == rest.value.0;
    }
  }

  lemma ContinueStep(text: seq<byte>, offset: nat, body: seq<byte>, size: nat, rest: Option<(seq<byte>, nat)>)
    ensures Continue(text, offset, Continue(body, size, rest)) == Continue(text + body, offset + size, rest)
  {
    if rest.Some? {
      assert text + (body + rest.value.0) == text + body + rest.value.0;
    }
  }

  predicate ChunksFit(chunks: seq<seq<byte>>) {
    chunks != [] && forall i | 0 <= i < |chunks| :: |chunks[i]| < 0x1_0000
  }

  /** One text, cut into any chunks: text_more for all but the last. */
  function EncodeText(chunks: seq<seq<byte>>): seq<byte>
    requires ChunksFit(chunks)
  {
    assert |chunks[0]| < 0x1_0000;
    if |chunks| == 1 then Apdu.Build(Apdu.TEXT_LAST, chunks[0])
    else Apdu.Build(Apdu.TEXT_MORE, chunks[0]) + EncodeText(chunks[1..])
  }

  lemma LastRead(chunk: seq<byte>, rest: seq<byte>)
    requires |chunk| < 0x1_0000
    ensures TextAt(Apdu.Build(Apdu.TEXT_LAST, chunk) + rest) == Some((chunk, |Apdu.Build(Apdu.TEXT_LAST, chunk)|))
  {
    Apdu.BuildRoundTrip(Apdu.Apdu(Apdu.TEXT_LAST, chunk), rest);
    hide Apdu.Build, Apdu.ParseAt;
  }

  lemma MoreRead(chunk: seq<byte>, rest: seq<byte>)
    requires |chunk| < 0x1_0000
    ensures TextAt(Apdu.Build(Apdu.TEXT_MORE, chunk) + rest)
         == Continue(chunk, |Apdu.Build(Apdu.TEXT_MORE, chunk)|, TextAt(rest))
  {
    var first := Apdu.Build(Apdu.TEXT_MORE, chunk);
    Apdu.BuildRoundTrip(Apdu.Apdu(Apdu.TEXT_MORE, chunk), rest);
    hide Apdu.Build, Apdu.ParseAt;
    assert (first + rest)[|first|..] == rest;
  }

  lemma MoreText(chunk: seq<byte>, more: seq<byte>, text: seq<byte>, rest: seq<byte>)
    requires |chunk| < 0x1_0000 && TextAt(more + rest) == Some((text, |more|))
    ensures var first := Apdu.Build(Apdu.TEXT_MORE, chunk);
            TextAt((first + more) + rest) == Some((chunk + text, |first + more|))
  {
    hide TextAt, Apdu.Build;
    var first := Apdu.Build(Apdu.TEXT_MORE, chunk);
    MoreRead(chunk, more + rest);
    assert (first + more) + rest == first + (more + rest);
  }

  lemma TextUnfold(chunks: seq<seq<byte>>)
    requires ChunksFit(chunks)
    ensures |chunks[0]| < 0x1_0000
    ensures |chunks| == 1 ==>
              && EncodeText(chunks) == Apdu.Build(Apdu.TEXT_LAST, chunks[0])
              && Flatten(chunks) == chunks[0]
    ensures |chunks| > 1 ==>
              && ChunksFit(chunks[1..])
              && EncodeText(chunks) == Apdu.Build(Apdu.TEXT_MORE, chunks[0]) + EncodeText(chunks[1..])
              && Flatten(chunks) == chunks[0] + Flatten(chunks[1..])
  {
    assert |chunks[0]| < 0x1_0000;
    hide Apdu.Build;
    if |chunks| == 1 {
      assert Flatten(chunks) == chunks[0] + Flatten<byte>([]) == chunks[0];
    }
  }

  /** However a text is cut, and whatever follows it, it is read back whole. */
  lemma {:induction false} TextRoundTrip(chunks: seq<seq<byte>>, rest: seq<byte>)
    requires ChunksFit(chunks)
    ensures TextAt(EncodeText(chunks) + rest) == Some((Flatten(chunks), |EncodeText(chunks)|))
    decreases |chunks|
  {
    assert |chunks[0]| < 0x1_0000;
    hide TextAt, Apdu.Build, EncodeText, Flatten;
    TextUnfold(chunks);
    if |chunks| == 1 {
      LastRead(chunks[0], rest);
    } else {
      TextRoundTrip(chunks[1..], rest);
      MoreText(chunks[0], EncodeText(chunks[1..]), Flatten(chunks[1..]), rest);
    }
  }

  // -------------------------------------------------------------------- menus

  /** Items up to the first damaged text. */
  function ItemsAt(data: seq<byte>): seq<seq<byte>>
    decreases |data|
  {
    match TextAt(data)
    case None => []
    case Some((text, used)) =>
      TextAtUses(data);
      [text] + ItemsAt(data[used..])
  }

  function AfterText(data: seq<byte>): seq<byte> {
    match TextAt(data)
    case None => data
    case Some((_, used)) => TextAtUses(data); data[used..]
  }

  function TextOrEmpty(data: seq<byte>): seq<byte> {
    match TextAt(data)
    case None => []
    case Some((text, _)) => text
  }

  /** The menu of a menu_last or list_last body: title, sub-title and bottom as far
      as they are complete, and the items only behind a complete header. */
  function MenuOf(body: seq<byte>): MmiMenu {
    if body == [] then MmiMenu([], [], [], [])
    else
      var at1 := body[1..];
      if TextAt(at1) == None then MmiMenu([], [], [], [])
      else
        var at2 := AfterText(at1);
        if TextAt(at2) == None then MmiMenu(TextOrEmpty(at1), [], [], [])
        else
          var at3 := AfterText(at2);
          if TextAt(at3) == None then MmiMenu(TextOrEmpty(at1), TextOrEmpty(at2), [], [])
          else MmiMenu(TextOrEmpty(at1), TextOrEmpty(at2), TextOrEmpty(at3), ItemsAt(AfterText(at3)))
  }

  lemma TextParts(body: seq<byte>, offset: nat)
    requires offset <= |body| && TextAt(body[offset..]).Some?
    ensures var (text, used) := TextAt(body[offset..]).value;
            && 0 < used <= |body| - offset && TextOrEmpty(body[offset..]) == text
            && AfterText(body[offset..]) == body[offset + used..]
  {
    TextAtUses(body[offset..]);
    hide TextAt;
    var used := TextAt(body[offset..]).value.1;
    assert body[offset..][used..] == body[offset + used..];
  }

  /** The items read so far, and those behind `offset`. */
  predicate ItemsRead(body: seq<byte>, start: nat, items: seq<seq<byte>>, offset: nat) {
    start <= offset <= |body| && items + ItemsAt(body[offset..]) == ItemsAt(body[start..])
  }

  lemma ItemsStep(body: seq<byte>, start: nat, items: seq<seq<byte>>, offset: nat, text: seq<byte>, used: nat)
    requires ItemsRead(body, start, items, offset) && TextAt(body[offset..]) == Some((text, used))
    ensures 0 < used <= |body| - offset && ItemsRead(body, start, items + [text], offset + used)
  {
    TextAtUses(body[offset..]);
    hide TextAt;
    assert body[offset..][used..] == body[offset + used..];
    assert ItemsAt(body[offset..]) == [text] + ItemsAt(body[offset + used..]);
  }

  lemma ItemsEnds(body: seq<byte>, start: nat, items: seq<seq<byte>>, offset: nat)
    requires start <= |body|
    ensures ItemsRead(body, start, [], start)
    ensures ItemsRead(body, start, items, offset) && TextAt(body[offset..]) == None ==> items == ItemsAt(body[start..])
  {
    hide TextAt;
    assert [] + ItemsAt(body[start..]) == ItemsAt(body[start..]);
  }

  method ParseItems(body: seq<byte>, start: nat) returns (items: seq<seq<byte>>)
    requires start <= |body|
    ensures items == ItemsAt(body[start..])
  {
    hide *;
    items := [];
    var offset := start;
    ItemsEnds(body, start, items, offset);
    var text := ParseText(body[offset..]);
    while text.Some?
      invariant offset <= |body| && text == TextAt(body[offset..])
      invariant ItemsRead(body, start, items, offset)
      decreases |body| - offset
    {
      ItemsStep(body, start, items, offset, text.value.0, text.value.1);
      items := items + [text.value.0];
      offset := offset + text.value.1;
      text := ParseText(body[offset..]);
    }
    ItemsEnds(body, start, items, offset);
  }

  method ParseMenu(body: seq<byte>) returns (menu: MmiMenu)
    ensures menu == MenuOf(body)
  {
    hide *;
    MenuBare(body);
    menu := MmiMenu([], [], [], []);
    if body == [] {
      return;
    }
    var offset := 1;
    var header: seq<seq<byte>> := [];
    var text := ParseText(body[offset..]);
    while |header| < 3 && text.Some?
      invariant |header| <= 3 && Headed(body, header, offset) && offset <= |body|
      invariant text == TextAt(body[offset..])
      decreases 3 - |header|
    {
      HeadedStep(body, header, offset, text.value.0, text.value.1);
      header := header + [text.value.0];
      offset := offset + text.value.1;
      text := ParseText(body[offset..]);
    }
    HeadedMenu(body, header, offset);
    if |header| == 0 {
    } else if |header| == 1 {
      menu := MmiMenu(header[0], [], [], []);
    } else if |header| == 2 {
      menu := MmiMenu(header[0], header[1], [], []);
    } else {
      var items := ParseItems(body, offset);
      menu := MmiMenu(header[0], header[1], header[2], items);
    }
  }

  /** What is left of the body behind its first `k` texts. */
  function Rest(body: seq<byte>, k: nat): seq<byte>
    requires body != []
  {
    if k == 0 then body[1..] else AfterText(Rest(body, k - 1))
  }

  /** The texts read so far and the offset behind them. */
  predicate Headed(body: seq<byte>, header: seq<seq<byte>>, offset: nat) {
    body != [] && offset <= |body| && body[offset..] == Rest(body, |header|) && HeaderRead(body, header)
  }

  predicate HeaderRead(body: seq<byte>, header: seq<seq<byte>>)
    requires body != []
  {
    forall k | 0 <= k < |header| :: TextAt(Rest(body, k)).Some? && header[k] == TextOrEmpty(Rest(body, k))
  }

  lemma MenuBare(body: seq<byte>)
    ensures body == [] ==> MenuOf(body) == MmiMenu([], [], [], [])
    ensures body != [] ==> Headed(body, [], 1)
  {
  }

  lemma HeadedStep(body: seq<byte>, header: seq<seq<byte>>, offset: nat, text: seq<byte>, used: nat)
    requires Headed(body, header, offset) && TextAt(body[offset..]) == Some((text, used))
    ensures 0 < used <= |body| - offset && Headed(body, header + [text], offset + used)
  {
    TextParts(body, offset);
    RestNext(body, |header|, offset, used);
    ReadNext(body, header, text);
    hide TextAt, AfterText, TextOrEmpty, Rest, HeaderRead;
  }

  lemma ReadNext(body: seq<byte>, header: seq<seq<byte>>, text: seq<byte>)
    requires body != [] && HeaderRead(body, header)
    requires TextAt(Rest(body, |header|)).Some? && text == TextOrEmpty(Rest(body, |header|))
    ensures HeaderRead(body, header + [text])
  {
    hide TextAt, TextOrEmpty, Rest;
  }

  lemma RestNext(body: seq<byte>, k: nat, offset: nat, used: nat)
    requires body != [] && offset + used <= |body| && body[offset..] == Rest(body, k)
    requires AfterText(body[offset..]) == body[offset + used..]
    ensures Rest(body, k + 1) == body[offset + used..]
  {
    hide AfterText;
  }

  lemma HeadedMenu(body: seq<byte>, header: seq<seq<byte>>, offset: nat)
    requires |header| <= 3 && Headed(body, header, offset)
    requires |header| < 3 ==> TextAt(body[offset..]) == None
    ensures MenuOf(body)
         == if |header| == 0 then MmiMenu([], [], [], [])
            else if |header| == 1 then MmiMenu(header[0], [], [], [])
            else if |header| == 2 then MmiMenu(header[0], header[1], [], [])
            else MmiMenu(header[0], header[1], header[2], ItemsAt(body[offset..]))
  {
    hide TextAt, AfterText, TextOrEmpty, ItemsAt;
    assert Rest(body, 1) == AfterText(Rest(body, 0));
    assert Rest(body, 2) == AfterText(Rest(body, 1));
    assert Rest(body, 3) == AfterText(Rest(body, 2));
  }

  function EncodeTexts(texts: seq<seq<seq<byte>>>): seq<byte>
    requires forall i | 0 <= i < |texts| :: ChunksFit(texts[i])
  {
    if texts == [] then []
    else assert ChunksFit(texts[0]); EncodeText(texts[0]) + EncodeTexts(texts[1..])
  }

  function Whole(texts: seq<seq<seq<byte>>>): seq<seq<byte>> {
    seq(|texts|, i requires 0 <= i < |texts| => Flatten(texts[i]))
  }

  lemma {:induction false} ItemsRoundTrip(texts: seq<seq<seq<byte>>>, rest: seq<byte>)
    requires forall i | 0 <= i < |texts| :: ChunksFit(texts[i])
    requires TextAt(rest) == None
    ensures ItemsAt(EncodeTexts(texts) + rest) == Whole(texts)
    decreases |texts|
  {
    if texts == [] {
      assert EncodeTexts(texts) + rest == rest;
    } else {
      assert ChunksFit(texts[0]);
      var first := EncodeText(texts[0]);
      var more := EncodeTexts(texts[1..]) + rest;
      TextRoundTrip(texts[0], more);
      hide TextAt, EncodeText, ChunksFit;
      assert EncodeTexts(texts) + rest == first + more;
      assert (first + more)[|first|..] == more;
      ItemsRoundTrip(texts[1..], rest);
      assert Whole(texts) == [Flatten(texts[0])] + Whole(texts[1..]);
    }
  }

  lemma AfterTextRoundTrip(chunks: seq<seq<byte>>, rest: seq<byte>)
    requires ChunksFit(chunks)
    ensures TextAt(EncodeText(chunks) + rest).Some?
    ensures TextOrEmpty(EncodeText(chunks) + rest) == Flatten(chunks)
    ensures AfterText(EncodeText(chunks) + rest) == rest
  {
    TextRoundTrip(chunks, rest);
    assert (EncodeText(chunks) + rest)[|EncodeText(chunks)|..] == rest;
  }

  /** Any menu, with every text cut in any way, whatever its choice_nb byte says and
      whatever damaged bytes trail it, is read back exactly. */
  lemma MenuRoundTrip(choiceNb: byte, title: seq<seq<byte>>, subTitle: seq<seq<byte>>, bottom: seq<seq<byte>>,
                      items: seq<seq<seq<byte>>>, rest: seq<byte>)
    requires ChunksFit(title) && ChunksFit(subTitle) && ChunksFit(bottom)
    requires forall i | 0 <= i < |items| :: ChunksFit(items[i])
    requires TextAt(rest) == None
    ensures MenuOf([choiceNb] + EncodeText(title) + EncodeText(subTitle) + EncodeText(bottom)
                   + EncodeTexts(items) + rest)
         == MmiMenu(Flatten(title), Flatten(subTitle), Flatten(bottom), Whole(items))
  {
    var at4 := EncodeTexts(items) + rest;
    var at3 := EncodeText(bottom) + at4;
    var at2 := EncodeText(subTitle) + at3;
    AfterTextRoundTrip(title, at2);
    AfterTextRoundTrip(subTitle, at3);
    AfterTextRoundTrip(bottom, at4);
    ItemsRoundTrip(items, rest);
    hide TextAt, TextOrEmpty, AfterText, EncodeText, EncodeTexts, ItemsAt, Whole;
    MenuParts([choiceNb], EncodeText(title), EncodeText(subTitle), EncodeText(bottom), EncodeTexts(items), rest);
    assert ([choiceNb] + (EncodeText(title) + at2))[1..] == EncodeText(title) + at2;
  }

  lemma MenuParts(a: seq<byte>, b: seq<byte>, c: seq<byte>, d: seq<byte>, e: seq<byte>, f: seq<byte>)
    ensures a + b + c + d + e + f == a + (b + (c + (d + (e + f))))
  {
  }

  // --------------------------------------------------------------- reassembly

  function SoFar(fragment: Option<seq<byte>>): seq<byte> {
    if fragment == None then [] else fragment.value
  }

  function FragmentOf(fragments: map<u16, seq<byte>>, id: u16): Option<seq<byte>> {
    if id in fragments then Some(fragments[id]) else None
  }

  /** What one object of a dialogue must be reported as, in its own bytes: the three
      completed objects with what was collected before them, the enquiry, and the close
      with the delay of command 1. A piece within the cap and a display query are not
      reported; anything else is malformed. */
  function Dialogue(slotId: byte, id: u16, soFar: seq<byte>, tag: Apdu.ApduTag, body: seq<byte>): seq<CaEvent> {
    if tag == 0x9F_8803 then [MmiText(slotId, id, soFar + body)]
    else if tag == 0x9F_8809 then [MmiMenuShown(slotId, id, MenuOf(soFar + body))]
    else if tag == 0x9F_880C then [MmiListShown(slotId, id, MenuOf(soFar + body))]
    else if tag == 0x9F_8807 && |body| >= 2 then [MmiEnq(slotId, id, body[0] % 2 == 1, body[1], body[2..])]
    else if tag == 0x9F_8800 then
      [MmiClose(slotId, id, if |body| >= 2 && body[0] == 1 then Some(body[1]) else None)]
    else if tag == 0x9F_8801 then []
    else if (tag == 0x9F_8804 || tag == 0x9F_880A || tag == 0x9F_880D) && |soFar + body| <= 65536 then []
    else [MalformedData(slotId)]
  }

  /** The answer to a display query: high-level mode (1, 1) is confirmed, any other mode
      is unknown (F1), and so is any other command (F0). */
  function DisplayReply(body: seq<byte>): seq<byte> {
    if |body| >= 2 && body[0] == 1 && body[1] == 1 then [1, 1]
    else if |body| >= 1 && body[0] == 1 then [0xF1]
    else [0xF0]
  }

  /** A `*_more` APDU arrives: the session's object grows, or overflows and is dropped. */
  function Grow(fragments: map<u16, seq<byte>>, id: u16, body: seq<byte>): map<u16, seq<byte>> {
    var soFar := SoFar(FragmentOf(fragments, id));
    if |soFar| + |body| > MAX_OBJECT_SIZE then fragments - {id} else fragments[id := soFar + body]
  }

  function GrowAll(fragments: map<u16, seq<byte>>, id: u16, pieces: seq<seq<byte>>): map<u16, seq<byte>> {
    if pieces == [] then fragments
    else Grow(GrowAll(fragments, id, pieces[..|pieces| - 1]), id, pieces[|pieces| - 1])
  }

  /** The object a `*_last` APDU completes. */
  function Completed(fragments: map<u16, seq<byte>>, id: u16, last: seq<byte>): seq<byte> {
    SoFar(FragmentOf(fragments, id)) + last
  }

  lemma {:induction false} GrowAllBound(fragments: map<u16, seq<byte>>, id: u16, pieces: seq<seq<byte>>)
    requires id !in fragments
    ensures var f := GrowAll(fragments, id, pieces);
            && f - {id} == fragments
            && (id in f ==> |f[id]| <= MAX_OBJECT_SIZE)
            && (|Flatten(pieces)| <= MAX_OBJECT_SIZE ==> Completed(f, id, []) == Flatten(pieces))
    decreases |pieces|
  {
    if pieces == [] {
      assert fragments - {id} == fragments;
    } else {
      var front := pieces[..|pieces| - 1];
      GrowAllBound(fragments, id, front);
      assert pieces == front + [pieces[|pieces| - 1]];
      FlattenOne(front, pieces[|pieces| - 1]);
      var f := GrowAll(fragments, id, front);
      var g := GrowAll(fragments, id, pieces);
      assert g - {id} == f - {id};
    }
  }

  /** An object cut into `*_more` pieces is completed to the same bytes exactly
      when the pieces before the last stay within the cap; no other session's
      object is disturbed either way. */
  lemma PiecesComplete(fragments: map<u16, seq<byte>>, id: u16, pieces: seq<seq<byte>>, last: seq<byte>)
    requires id !in fragments
    ensures Completed(GrowAll(fragments, id, pieces), id, last) == Flatten(pieces) + last
       <==> |Flatten(pieces)| <= MAX_OBJECT_SIZE
    ensures GrowAll(fragments, id, pieces) - {id} == fragments
  {
    GrowAllBound(fragments, id, pieces);
    var f := GrowAll(fragments, id, pieces);
    if |Flatten(pieces)| > MAX_OBJECT_SIZE {
      assert |Completed(f, id, last)| <= MAX_OBJECT_SIZE + |last|;
    } else {
      assert Completed(f, id, last) == Completed(f, id, []) + last;
    }
  }

  /** A menu sent in pieces, cut anywhere, is shown as that menu exactly as if it had
      come whole, as long as the pieces before the last stay within the cap. */
  lemma MenuInPieces(fragments: map<u16, seq<byte>>, id: u16, pieces: seq<seq<byte>>, last: seq<byte>,
                     choiceNb: byte, title: seq<seq<byte>>, subTitle: seq<seq<byte>>, bottom: seq<seq<byte>>,
                     items: seq<seq<seq<byte>>>, rest: seq<byte>)
    requires id !in fragments && |Flatten(pieces)| <= MAX_OBJECT_SIZE
    requires ChunksFit(title) && ChunksFit(subTitle) && ChunksFit(bottom)
    requires forall i | 0 <= i < |items| :: ChunksFit(items[i])
    requires TextAt(rest) == None
    requires Flatten(pieces) + last
          == [choiceNb] + EncodeText(title) + EncodeText(subTitle) + EncodeText(bottom) + EncodeTexts(items) + rest
    ensures MenuOf(Completed(GrowAll(fragments, id, pieces), id, last))
         == MmiMenu(Flatten(title), Flatten(subTitle), Flatten(bottom), Whole(items))
  {
    PiecesComplete(fragments, id, pieces, last);
    MenuRoundTrip(choiceNb, title, subTitle, bottom, items, rest);
    hide TextAt, EncodeText, EncodeTexts, MenuOf, Whole;
  }

  /** One byte over the cap: what was collected is dropped, and the pieces that still
      come are shown as if they were the object. */
  lemma PiecesLost(id: u16)
    ensures var pieces: seq<seq<byte>> := [seq(MAX_OBJECT_SIZE, _ => 0), [1], [2]];
            Completed(GrowAll(map[], id, pieces), id, [3]) == [2, 3] != Flatten(pieces) + [3]
  {
    var full: seq<byte> := seq(MAX_OBJECT_SIZE, _ => 0);
    var pieces: seq<seq<byte>> := [full, [1], [2]];
    assert pieces[..2] == [full, [1]] && pieces[..2][..1] == [full] && [full][..0] == [];
    assert [] + full == full;
    assert GrowAll(map[], id, []) == map[];
    assert GrowAll(map[], id, [full]) == map[id := full];
    assert GrowAll(map[], id, [full, [1]]) == map[];
    var second: seq<byte> := [2];
    assert [] + second == second;
    assert GrowAll(map[], id, pieces) == Grow(GrowAll(map[], id, pieces[..2]), id, second) == map[id := second];
    assert Flatten(pieces) == full + Flatten(pieces[1..]);
  }

  class MmiResource {
    var fragments: map<u16, seq<byte>>

    constructor ()
      ensures fragments == map[]
    {
      fragments := map[];
    }

    method TakeObject(sessionId: u16, last: seq<byte>) returns (body: seq<byte>)
      modifies this
      ensures body == Completed(old(fragments), sessionId, last)
      ensures fragments == old(fragments) - {sessionId}
    {
      body := if sessionId in fragments then fragments[sessionId] + last else last;
      fragments := fragments - {sessionId};
    }

    method OnApdu(transport: CiTransport, slotId: byte, sessionId: u16, tag: Apdu.ApduTag, body: seq<byte>)
      returns (r: Result<()>, events: seq<CaEvent>, close: bool)
      requires transport.Valid() && slotId < |transport.slots| == |transport.hist|
      modifies this, transport`slots, transport`hist, transport.link`writes
      ensures transport.Valid()
      ensures OnlySlot(old(transport.slots), transport.slots, old(transport.hist), transport.hist, slotId)
      ensures |transport.hist| == |transport.slots| == old(|transport.slots|)
      ensures Quiet(old(transport.hist)[slotId], transport.hist[slotId])
      ensures Kept(old(transport.At(slotId)), transport.At(slotId), r)
      ensures r.Err? ==> r.error == InvalidData || (IsLinkError(r.error) && !transport.hist[slotId].intact)
      ensures fragments.Keys <= old(fragments).Keys + {sessionId}
      ensures fragments - {sessionId} == old(fragments) - {sessionId}
      ensures tag in {Apdu.TEXT_MORE, Apdu.MENU_MORE, Apdu.LIST_MORE} ==>
                fragments == Grow(old(fragments), sessionId, body)
      ensures tag in {Apdu.TEXT_LAST, Apdu.MENU_LAST, Apdu.LIST_LAST} ==> fragments == old(fragments) - {sessionId}
      ensures Uncut(r) ==>
                events + Refusal(slotId, r)
                == Dialogue(slotId, sessionId, SoFar(FragmentOf(old(fragments), sessionId)), tag, body)
      ensures r.Ok? ==>
                transport.hist[slotId].sent
                == old(transport.hist)[slotId].sent
                   + if tag == Apdu.DISPLAY_CONTROL
                     then [ApduItem(sessionId, Apdu.DISPLAY_REPLY, DisplayReply(body))] else []
      ensures (tag !in {Apdu.TEXT_MORE, Apdu.MENU_MORE, Apdu.LIST_MORE}
               && tag !in {Apdu.TEXT_LAST, Apdu.MENU_LAST, Apdu.LIST_LAST}) ==> fragments == old(fragments)
      ensures close <==> tag == Apdu.CLOSE_MMI
      ensures forall e | e in events :: e.MmiText? || e.MmiMenuShown? || e.MmiListShown? || e.MmiClose? || e.MmiEnq?
      ensures forall e | e in events :: e.slotId == slotId
    {
      r, events, close := Ok(()), [], false;
      QuietRefl(transport.hist[slotId]);
      OnlySlotRefl(transport.slots, transport.hist, slotId);
      KeptRefl(transport.At(slotId), r);
      hide Quiet, OnlySlot, AllSound, OnRecord, MenuOf, Kept;
      if tag == Apdu.TEXT_MORE || tag == Apdu.MENU_MORE || tag == Apdu.LIST_MORE {
        var soFar := SoFar(FragmentOf(fragments, sessionId));
        if |soFar| + |body| > MAX_OBJECT_SIZE {
          fragments := fragments - {sessionId};
          r := Err(InvalidData);
        } else {
          fragments := fragments[sessionId := soFar + body];
        }
      } else if tag == Apdu.CLOSE_MMI {
        var delay := if |body| > 1 && body[0] == 0x01 then Some(body[1]) else None;
        events := [MmiClose(slotId, sessionId, delay)];
        close := true;
      } else if tag == Apdu.DISPLAY_CONTROL {
        var reply := if |body| > 1 && body[0] == 0x01 && body[1] == 0x01 then [0x01, 0x01]
                     else if |body| > 0 && body[0] == 0x01 then [0xF1] else [0xF0];
        r := SendQuiet(transport, slotId, sessionId, Apdu.DISPLAY_REPLY, reply);
      } else if tag == Apdu.TEXT_LAST {
        var text := TakeObject(sessionId, body);
        events := [MmiText(slotId, sessionId, text)];
      } else if tag == Apdu.ENQ {
        if |body| < 2 {
          r := Err(InvalidData);
        } else {
          events := [MmiEnq(slotId, sessionId, body[0] % 2 == 1, body[1], body[2..])];
        }
      } else if tag == Apdu.MENU_LAST {
        var whole := TakeObject(sessionId, body);
        var menu := ParseMenu(whole);
        events := [MmiMenuShown(slotId, sessionId, menu)];
      } else if tag == Apdu.LIST_LAST {
        var whole := TakeObject(sessionId, body);
        var menu := ParseMenu(whole);
        events := [MmiListShown(slotId, sessionId, menu)];
      } else {
        r := Err(InvalidData);
      }
    }

    method OnClose(sessionId: u16)
      modifies this
      ensures fragments == old(fragments) - {sessionId}
    {
      fragments := fragments - {sessionId};
    }
  }
}
