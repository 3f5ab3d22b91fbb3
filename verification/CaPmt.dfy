/** CA_PMT coding (EN 50221, section 8.4.3.4): the programs the host keeps, the
    bodies it builds from them, and the grammar a module reads them with. */
module CaPmt {
  import opened Basics

  datatype ListManagement = Only | Add | Update {
    function Code(): byte {
      match this
      case Only => 0x03
      case Add => 0x04
      case Update => 0x05
    }
  }

  datatype Command = OkDescrambling | NotSelected {
    function Code(): byte {
      match this
      case OkDescrambling => 0x01
      case NotSelected => 0x04
    }
  }

  datatype CaDescriptor = CaDescriptor(caid: u16, bytes: seq<byte>)

  datatype ProgramStream =
    ProgramStream(streamType: byte, elementaryPid: u16, descriptors: seq<CaDescriptor>)

  /** The owned part of a PMT section. */
  datatype ProgramData =
    ProgramData(number: u16, version: byte, descriptors: seq<CaDescriptor>, streams: seq<ProgramStream>)

  // ---------------------------------------------------------------- programs

  /** A CA descriptor as a PMT carries it: tag 9, its own length, its CA_system_id. */
  predicate SelfDelimiting(d: CaDescriptor) {
    && 6 <= |d.bytes| < 0x102
    && d.bytes[0] == 0x09
    && d.bytes[1] == |d.bytes| - 2
    && ReadU16(d.bytes[2..4]) == d.caid
  }

  predicate AllDelimited(descriptors: seq<CaDescriptor>) {
    forall i | 0 <= i < |descriptors| :: SelfDelimiting(descriptors[i])
  }

  function TotalLen(descriptors: seq<CaDescriptor>): nat {
    if descriptors == [] then 0 else |descriptors[0].bytes| + TotalLen(descriptors[1..])
  }

  /** Bytes the streams take in the stream loop of the section. */
  function StreamsLen(streams: seq<ProgramStream>): nat {
    if streams == [] then 0 else 5 + TotalLen(streams[0].descriptors) + StreamsLen(streams[1..])
  }

  /** Room that the 12-bit section_length leaves for descriptors and streams. */
  const MAX_SECTION_PAYLOAD: nat := 0xFFF - 13

  /** What parsing one PMT section guarantees. */
  predicate FromSection(p: ProgramData) {
    && p.number != 0
    && p.version < 0x20
    && AllDelimited(p.descriptors)
    && (forall i | 0 <= i < |p.streams| ::
          p.streams[i].elementaryPid < 0x2000 && AllDelimited(p.streams[i].descriptors))
    && TotalLen(p.descriptors) + StreamsLen(p.streams) <= MAX_SECTION_PAYLOAD
  }

  type Program = p: ProgramData | FromSection(p) witness ProgramData(1, 0, [], [])

  // ------------------------------------------------------------ what is built

  /** The descriptors a session with these CAIDs accepts, in order. */
  function Matching(descriptors: seq<CaDescriptor>, caids: seq<u16>): seq<CaDescriptor> {
    if descriptors == [] then []
    else (if descriptors[0].caid in caids then [descriptors[0]] else [])
         + Matching(descriptors[1..], caids)
  }

  /** What `Matching` keeps, read from the other end: each descriptor with an accepted
      CAID, in place, and no other. */
  lemma {:induction false} MatchingExact(descriptors: seq<CaDescriptor>, d: CaDescriptor, caids: seq<u16>)
    ensures Matching(descriptors + [d], caids)
         == Matching(descriptors, caids) + (if d.caid in caids then [d] else [])
    ensures Matching([], caids) == []
  {
    if descriptors == [] {
      assert [] + [d] == [d] && [d][1..] == [];
    } else {
      assert (descriptors + [d])[1..] == descriptors[1..] + [d];
      MatchingExact(descriptors[1..], d, caids);
    }
  }

  predicate AnyMatches(descriptors: seq<CaDescriptor>, caids: seq<u16>) {
    exists i | 0 <= i < |descriptors| :: descriptors[i].caid in caids
  }

  /** Some CA descriptor of the program, at any level, carries one of the CAIDs. */
  predicate Matches(p: ProgramData, caids: seq<u16>) {
    || AnyMatches(p.descriptors, caids)
    || exists i | 0 <= i < |p.streams| :: AnyMatches(p.streams[i].descriptors, caids)
  }

  /** The length of the matching descriptors plus the command exceeds 12 bits. */
  predicate TooLarge(descriptors: seq<CaDescriptor>, caids: seq<u16>) {
    1 + TotalLen(Matching(descriptors, caids)) > 0x0FFF
  }

  function Contents(descriptors: seq<CaDescriptor>): (parts: seq<seq<byte>>)
    ensures |parts| == |descriptors|
  {
    seq(|descriptors|, i requires 0 <= i < |descriptors| => descriptors[i].bytes)
  }

  function InfoBytes(descriptors: seq<CaDescriptor>, caids: seq<u16>, command: Command): seq<byte>
    requires !TooLarge(descriptors, caids)
  {
    var matching := Matching(descriptors, caids);
    if matching == [] then [0xF0, 0x00]
    else BigEndian(0xF000 + 1 + TotalLen(matching)) + [command.Code()] + Flatten(Contents(matching))
  }

  function StreamBytes(s: ProgramStream, caids: seq<u16>, command: Command): seq<byte>
    requires !TooLarge(s.descriptors, caids)
  {
    [s.streamType] + BigEndian(0xE000 + s.elementaryPid % 0x2000)
    + InfoBytes(s.descriptors, caids, command)
  }

  predicate NoneTooLarge(streams: seq<ProgramStream>, caids: seq<u16>) {
    forall i | 0 <= i < |streams| :: !TooLarge(streams[i].descriptors, caids)
  }

  function StreamParts(streams: seq<ProgramStream>, caids: seq<u16>, command: Command): (parts: seq<seq<byte>>)
    requires NoneTooLarge(streams, caids)
    ensures |parts| == |streams|
  {
    seq(|streams|, i requires 0 <= i < |streams| => StreamBytes(streams[i], caids, command))
  }

  function Header(p: ProgramData, list: ListManagement): seq<byte> {
    [list.Code()] + BigEndian(p.number) + [0xC1 + 2 * (p.version % 0x20)]
  }

  function Body(p: ProgramData, caids: seq<u16>, list: ListManagement, command: Command): seq<byte>
    requires !TooLarge(p.descriptors, caids) && NoneTooLarge(p.streams, caids)
  {
    Header(p, list) + InfoBytes(p.descriptors, caids, command)
    + Flatten(StreamParts(p.streams, caids, command))
  }

  lemma {:induction false} MatchingEmpty(descriptors: seq<CaDescriptor>, caids: seq<u16>)
    ensures Matching(descriptors, caids) == [] <==> !AnyMatches(descriptors, caids)
  {
    if descriptors != [] {
      MatchingEmpty(descriptors[1..], caids);
      if AnyMatches(descriptors, caids) && descriptors[0].caid !in caids {
        var i :| 0 <= i < |descriptors| && descriptors[i].caid in caids;
        assert descriptors[1..][i - 1].caid in caids;
      }
      if AnyMatches(descriptors[1..], caids) {
        var i :| 0 <= i < |descriptors| - 1 && descriptors[1..][i].caid in caids;
        assert descriptors[i + 1].caid in caids;
      }
    }
  }

  lemma {:induction false} TotalLenIsSize(descriptors: seq<CaDescriptor>)
    ensures |Flatten(Contents(descriptors))| == TotalLen(descriptors)
  {
    if descriptors != [] {
      TotalLenIsSize(descriptors[1..]);
      assert Contents(descriptors) == [descriptors[0].bytes] + Contents(descriptors[1..]);
    }
  }

  lemma ContentsStep(descriptors: seq<CaDescriptor>, i: nat)
    requires i < |descriptors|
    ensures Flatten(Contents(descriptors[..i + 1]))
         == Flatten(Contents(descriptors[..i])) + descriptors[i].bytes
  {
    FlattenOne(Contents(descriptors[..i]), descriptors[i].bytes);
    assert Contents(descriptors[..i + 1]) == Contents(descriptors[..i]) + [descriptors[i].bytes];
  }

  lemma StreamStep(streams: seq<ProgramStream>, i: nat, caids: seq<u16>, command: Command)
    requires i < |streams| && NoneTooLarge(streams[..i], caids)
    requires !TooLarge(streams[i].descriptors, caids)
    ensures NoneTooLarge(streams[..i + 1], caids)
    ensures Flatten(StreamParts(streams[..i + 1], caids, command))
         == Flatten(StreamParts(streams[..i], caids, command)) + StreamBytes(streams[i], caids, command)
  {
    hide TooLarge, InfoBytes;
    var done := streams[..i];
    assert streams[..i + 1] == done + [streams[i]];
    var more := streams[..i + 1];
    forall k | 0 <= k < |more| ensures !TooLarge(more[k].descriptors, caids) {
      if k < i {
        assert more[k] == done[k];
      }
    }
    FlattenOne(StreamParts(done, caids, command), StreamBytes(streams[i], caids, command));
    assert StreamParts(streams[..i + 1], caids, command)
        == StreamParts(done, caids, command) + [StreamBytes(streams[i], caids, command)];
  }

  lemma FlattenNone()
    ensures Contents([]) == []
    ensures Flatten<byte>([]) == []
  {
  }

  // ---------------------------------------------------------------- building

  /** Appends one info block: its length, the command and the matching descriptors. */
  method AppendInfo(prefix: seq<byte>, descriptors: seq<CaDescriptor>, caids: seq<u16>, command: Command)
    returns (r: Result<(seq<byte>, bool)>)
    ensures r.Err? <==> TooLarge(descriptors, caids)
    ensures r.Err? ==> r.error == InvalidData
    ensures r.Ok? ==> r.value.0 == prefix + InfoBytes(descriptors, caids, command)
    ensures r.Ok? ==> r.value.1 == AnyMatches(descriptors, caids)
  {
    hide *;
    InfoCases(descriptors, caids, command);
    var matching := Matching(descriptors, caids);
    if matching == [] {
      return Ok((prefix + [0xF0, 0x00], false));
    }
    var infoLen := 1 + TotalLen(matching);
    if infoLen > 0x0FFF {
      return Err(InvalidData);
    }
    var length := BigEndian(0xF000 + infoLen);
    var out := prefix + length;
    out := out + [command.Code()];
    out := AppendDescriptors(out, matching);
    Appended(prefix, length, [command.Code()], Flatten(Contents(matching)));
    return Ok((out, true));
  }

  lemma Appended(prefix: seq<byte>, a: seq<byte>, b: seq<byte>, c: seq<byte>)
    ensures prefix + a + b + c == prefix + (a + b + c)
  {
  }

  /** The three shapes of an info block. */
  lemma InfoCases(descriptors: seq<CaDescriptor>, caids: seq<u16>, command: Command)
    ensures var matching := Matching(descriptors, caids);
            && (AnyMatches(descriptors, caids) <==> matching != [])
            && (TooLarge(descriptors, caids) <==> 1 + TotalLen(matching) > 0x0FFF)
            && (matching == [] ==> !TooLarge(descriptors, caids)
                                   && InfoBytes(descriptors, caids, command) == [0xF0, 0x00])
            && (matching != [] && !TooLarge(descriptors, caids) ==>
                  InfoBytes(descriptors, caids, command)
                  == BigEndian(0xF000 + (1 + TotalLen(matching))) + [command.Code()]
                     + Flatten(Contents(matching)))
  {
    assert TotalLen([]) == 0;
    MatchingEmpty(descriptors, caids);
    hide Matching, TotalLen, Flatten, Contents;
  }

  method AppendDescriptors(prefix: seq<byte>, descriptors: seq<CaDescriptor>) returns (out: seq<byte>)
    ensures out == prefix + Flatten(Contents(descriptors))
  {
    out := prefix;
    FlattenNone();
    hide *;
    for i := 0 to |descriptors|
      invariant out == prefix + Flatten(Contents(descriptors[..i]))
    {
      ContentsStep(descriptors, i);
      out := out + descriptors[i].bytes;
    }
    assert descriptors[..|descriptors|] == descriptors;
  }

  /** Builds one CA_PMT body for a session. It fails exactly when an info block
      does not fit its length field, and yields nothing exactly when no
      descriptor of the program matches the CAIDs. */
  method BuildCaPmt(p: ProgramData, caids: seq<u16>, list: ListManagement, command: Command)
    returns (r: Result<Option<seq<byte>>>)
    ensures r.Err? <==> TooLarge(p.descriptors, caids) || !NoneTooLarge(p.streams, caids)
    ensures r.Err? ==> r.error == InvalidData
    ensures r.Ok? ==> (r.value == None <==> !Matches(p, caids))
    ensures r.Ok? && r.value.Some? ==> r.value.value == Body(p, caids, list, command)
  {
    hide Flatten, InfoBytes, TooLarge, AnyMatches, Header;
    var body := Header(p, list);
    var head := AppendInfo(body, p.descriptors, caids, command);
    if head.Err? {
      return Err(head.error);
    }
    body := head.value.0;
    var matched := head.value.1;
    ghost var start := body;
    FlattenNone();
    var i := 0;
    while i < |p.streams|
      invariant 0 <= i <= |p.streams|
      invariant NoneTooLarge(p.streams[..i], caids)
      invariant body == start + Flatten(StreamParts(p.streams[..i], caids, command))
      invariant matched <==> || AnyMatches(p.descriptors, caids)
                             || exists k | 0 <= k < i :: AnyMatches(p.streams[k].descriptors, caids)
    {
      var s := p.streams[i];
      var prefix := body + ([s.streamType] + BigEndian(0xE000 + s.elementaryPid % 0x2000));
      var info := AppendInfo(prefix, s.descriptors, caids, command);
      if info.Err? {
        return Err(info.error);
      }
      StreamStep(p.streams, i, caids, command);
      body := info.value.0;
      matched := matched || info.value.1;
      i := i + 1;
    }
    assert p.streams[..|p.streams|] == p.streams;
    return Ok(if matched then Some(body) else None);
  }

  lemma {:induction false} MatchingNoLonger(descriptors: seq<CaDescriptor>, caids: seq<u16>)
    ensures TotalLen(Matching(descriptors, caids)) <= TotalLen(descriptors)
  {
    if descriptors != [] {
      MatchingNoLonger(descriptors[1..], caids);
      var rest := Matching(descriptors[1..], caids);
      if descriptors[0].caid in caids {
        assert ([descriptors[0]] + rest)[1..] == rest;
      } else {
        assert [] + rest == rest;
      }
    }
  }

  lemma {:induction false} StreamFits(streams: seq<ProgramStream>, i: nat)
    requires i < |streams|
    ensures TotalLen(streams[i].descriptors) <= StreamsLen(streams)
  {
    if i > 0 {
      StreamFits(streams[1..], i - 1);
    }
  }

  /** The size error cannot happen for a program that came from a PMT section. */
  lemma SectionFits(p: Program, caids: seq<u16>)
    ensures !TooLarge(p.descriptors, caids) && NoneTooLarge(p.streams, caids)
  {
    MatchingNoLonger(p.descriptors, caids);
    forall i | 0 <= i < |p.streams|
      ensures !TooLarge(p.streams[i].descriptors, caids)
    {
      MatchingNoLonger(p.streams[i].descriptors, caids);
      StreamFits(p.streams, i);
    }
  }

  lemma StreamPartsTail(streams: seq<ProgramStream>, caids: seq<u16>, command: Command)
    requires streams != [] && NoneTooLarge(streams, caids)
    ensures NoneTooLarge(streams[1..], caids)
    ensures Flatten(StreamParts(streams, caids, command))
         == StreamBytes(streams[0], caids, command) + Flatten(StreamParts(streams[1..], caids, command))
  {
    hide InfoBytes, TooLarge, StreamBytes;
    var tail := streams[1..];
    forall i | 0 <= i < |tail| ensures !TooLarge(tail[i].descriptors, caids) {
      assert tail[i] == streams[i + 1];
    }
    assert StreamParts(streams, caids, command)[1..] == StreamParts(tail, caids, command);
  }

  lemma {:induction false} StreamPartsSize(streams: seq<ProgramStream>, caids: seq<u16>, command: Command)
    requires NoneTooLarge(streams, caids)
    ensures |Flatten(StreamParts(streams, caids, command))| <= 2 * StreamsLen(streams)
  {
    if streams != [] {
      StreamPartsTail(streams, caids, command);
      StreamPartsSize(streams[1..], caids, command);
      InfoSize(streams[0].descriptors, caids, command);
    }
  }

  lemma InfoSize(descriptors: seq<CaDescriptor>, caids: seq<u16>, command: Command)
    requires !TooLarge(descriptors, caids)
    ensures |InfoBytes(descriptors, caids, command)| <= 3 + TotalLen(descriptors)
  {
    MatchingNoLonger(descriptors, caids);
    TotalLenIsSize(Matching(descriptors, caids));
  }

  /** A body always fits one APDU. */
  lemma BodyFits(p: Program, caids: seq<u16>, list: ListManagement, command: Command)
    requires !TooLarge(p.descriptors, caids) && NoneTooLarge(p.streams, caids)
    ensures |Body(p, caids, list, command)| < 0x1_0000
  {
    InfoSize(p.descriptors, caids, command);
    StreamPartsSize(p.streams, caids, command);
  }

  // --------------------------------------------------------------- reading it

  datatype CaInfo = NoInfo | Info(command: byte, descriptors: seq<seq<byte>>)
  datatype CaStream = CaStream(streamType: byte, pid: u16, info: CaInfo)

  /** A CA_PMT object as section 8.4.3.4 of EN 50221 structures it. */
  datatype CaPmt =
    CaPmt(list: byte, number: u16, version: byte, info: CaInfo, streams: seq<CaStream>)

  function ParseDescriptors(data: seq<byte>): Option<seq<seq<byte>>> {
    if data == [] then Some([])
    else if |data| < 2 || |data| - 2 < data[1] then None
    else
      var size := 2 + data[1] as int;
      var rest := ParseDescriptors(data[size..]);
      if rest == None then None else Some([data[..size]] + rest.value)
  }

  /** The reserved bits in front of the 12-bit length are all set. */
  function ParseInfo(data: seq<byte>): Option<(CaInfo, nat)> {
    if |data| < 2 || data[0] / 0x10 != 0xF then None
    else
      var len := ReadU16(data[..2]) % 0x1000;
      if len == 0 then Some((NoInfo, 2))
      else if |data| < 2 + len then None
      else
        var descriptors := ParseDescriptors(data[3..2 + len]);
        if descriptors == None then None else Some((Info(data[2], descriptors.value), 2 + len))
  }

  function ParseStreams(data: seq<byte>): Option<seq<CaStream>> {
    if data == [] then Some([])
    else if |data| < 3 || data[1] / 0x20 != 7 then None
    else
      var info := ParseInfo(data[3..]);
      if info == None || 3 + info.value.1 > |data| then None
      else
        var rest := ParseStreams(data[3 + info.value.1..]);
        if rest == None then None
        else Some([CaStream(data[0], ReadU16(data[1..3]) % 0x2000, info.value.0)] + rest.value)
  }

  /** Around the version, the reserved bits and current_next are set. */
  function ParseCaPmt(body: seq<byte>): Option<CaPmt> {
    if |body| < 4 || body[3] / 0x40 != 3 || body[3] % 2 != 1 then None
    else
      var info := ParseInfo(body[4..]);
      if info == None || 4 + info.value.1 > |body| then None
      else
        var streams := ParseStreams(body[4 + info.value.1..]);
        if streams == None then None
        else Some(CaPmt(body[0], ReadU16(body[1..3]), body[3] / 2 % 0x20, info.value.0, streams.value))
  }

  /** ca_pmt_list_management of section 8.4.3.4. */
  function ListByte(list: ListManagement): byte {
    match list
    case Only => 3
    case Add => 4
    case Update => 5
  }

  /** ca_pmt_cmd_id of section 8.4.3.4. */
  function CommandByte(command: Command): byte {
    match command
    case OkDescrambling => 1
    case NotSelected => 4
  }

  function InfoOf(descriptors: seq<CaDescriptor>, caids: seq<u16>, command: byte): CaInfo {
    var matching := Matching(descriptors, caids);
    if matching == [] then NoInfo else Info(command, Contents(matching))
  }

  function StreamsOf(streams: seq<ProgramStream>, caids: seq<u16>, command: byte): seq<CaStream> {
    seq(|streams|, i requires 0 <= i < |streams| => StreamOf(streams[i], caids, command))
  }

  /** The object a body must denote. */
  function Meaning(p: ProgramData, caids: seq<u16>, list: byte, command: byte): CaPmt {
    CaPmt(list, p.number, p.version % 0x20, InfoOf(p.descriptors, caids, command),
          StreamsOf(p.streams, caids, command))
  }

  lemma {:induction false} DescriptorsRoundTrip(descriptors: seq<CaDescriptor>)
    requires AllDelimited(descriptors)
    ensures ParseDescriptors(Flatten(Contents(descriptors))) == Some(Contents(descriptors))
  {
    if descriptors != [] {
      var first := descriptors[0].bytes;
      var rest := Flatten(Contents(descriptors[1..]));
      assert Contents(descriptors) == [first] + Contents(descriptors[1..]);
      assert SelfDelimiting(descriptors[0]);
      assert (first + rest)[..|first|] == first && (first + rest)[|first|..] == rest;
      DescriptorsRoundTrip(descriptors[1..]);
    }
  }

  lemma {:induction false} MatchingDelimited(descriptors: seq<CaDescriptor>, caids: seq<u16>)
    requires AllDelimited(descriptors)
    ensures AllDelimited(Matching(descriptors, caids))
  {
    if descriptors != [] {
      MatchingDelimited(descriptors[1..], caids);
    }
  }

  lemma FilledInfo(len: nat, command: byte, contents: seq<byte>, rest: seq<byte>)
    requires len == 1 + |contents| && len <= 0x0FFF
    ensures var data := BigEndian(0xF000 + len) + [command] + contents + rest;
            && ReadU16(data[..2]) == 0xF000 + len && data[0] / 0x10 == 0xF && data[2] == command
            && data[3..2 + len] == contents
  {
    var data := BigEndian(0xF000 + len) + [command] + contents + rest;
    assert data[..2] == BigEndian(0xF000 + len);
    ReadU16Inverse(0xF000 + len, data[..2]);
  }

  lemma InfoRoundTrip(descriptors: seq<CaDescriptor>, caids: seq<u16>, command: Command, rest: seq<byte>)
    requires !TooLarge(descriptors, caids) && AllDelimited(descriptors)
    ensures ParseInfo(InfoBytes(descriptors, caids, command) + rest)
         == Some((InfoOf(descriptors, caids, CommandByte(command)), |InfoBytes(descriptors, caids, command)|))
  {
    hide Matching, TotalLen, Flatten, ParseDescriptors, Contents, AllDelimited;
    var matching := Matching(descriptors, caids);
    var data := InfoBytes(descriptors, caids, command) + rest;
    if matching == [] {
      assert data[..2] == [0xF0, 0x00];
    } else {
      var len := 1 + TotalLen(matching);
      var contents := Flatten(Contents(matching));
      TotalLenIsSize(matching);
      MatchingDelimited(descriptors, caids);
      DescriptorsRoundTrip(matching);
      FilledInfo(len, command.Code(), contents, rest);
    }
  }

  function StreamOf(s: ProgramStream, caids: seq<u16>, command: byte): CaStream {
    CaStream(s.streamType, s.elementaryPid % 0x2000, InfoOf(s.descriptors, caids, command))
  }

  lemma StreamsCons(s: ProgramStream, caids: seq<u16>, command: Command, rest: seq<byte>, tail: seq<CaStream>)
    requires !TooLarge(s.descriptors, caids) && AllDelimited(s.descriptors)
    requires ParseStreams(rest) == Some(tail)
    ensures ParseStreams(StreamBytes(s, caids, command) + rest)
         == Some([StreamOf(s, caids, CommandByte(command))] + tail)
  {
    StreamRoundTrip(s, caids, command, rest);
    hide InfoBytes, TooLarge, InfoOf, ParseInfo, StreamBytes, AllDelimited;
    var data := StreamBytes(s, caids, command) + rest;
    var size := |InfoBytes(s.descriptors, caids, command)|;
    assert ParseInfo(data[3..]).Some? && data[3 + size..] == rest;
  }

  lemma StreamsOfTail(streams: seq<ProgramStream>, caids: seq<u16>, command: byte)
    requires streams != []
    ensures StreamsOf(streams, caids, command)
         == [StreamOf(streams[0], caids, command)] + StreamsOf(streams[1..], caids, command)
  {
    hide StreamOf;
  }

  lemma {:induction false} StreamsRoundTrip(streams: seq<ProgramStream>, caids: seq<u16>, command: Command)
    requires NoneTooLarge(streams, caids)
    requires forall i | 0 <= i < |streams| :: AllDelimited(streams[i].descriptors)
    ensures ParseStreams(Flatten(StreamParts(streams, caids, command)))
         == Some(StreamsOf(streams, caids, CommandByte(command)))
  {
    if streams != [] {
      var tail := streams[1..];
      StreamPartsTail(streams, caids, command);
      StreamsRoundTrip(tail, caids, command);
      hide *;
      StreamsCons(streams[0], caids, command, Flatten(StreamParts(tail, caids, command)),
                  StreamsOf(tail, caids, CommandByte(command)));
      StreamsOfTail(streams, caids, CommandByte(command));
    } else {
      assert StreamParts(streams, caids, command) == [];
      assert StreamsOf(streams, caids, CommandByte(command)) == [];
    }
  }

  lemma StreamRoundTrip(s: ProgramStream, caids: seq<u16>, command: Command, rest: seq<byte>)
    requires !TooLarge(s.descriptors, caids) && AllDelimited(s.descriptors)
    ensures var data := StreamBytes(s, caids, command) + rest;
            var size := |InfoBytes(s.descriptors, caids, command)|;
            && |data| >= 3 + size && data[0] == s.streamType
            && ReadU16(data[1..3]) % 0x2000 == s.elementaryPid % 0x2000 && data[1] / 0x20 == 7
            && ParseInfo(data[3..]) == Some((InfoOf(s.descriptors, caids, CommandByte(command)), size))
            && data[3 + size..] == rest
  {
    var pid := 0xE000 + s.elementaryPid % 0x2000;
    var info := InfoBytes(s.descriptors, caids, command);
    var data := StreamBytes(s, caids, command) + rest;
    assert data[1..3] == BigEndian(pid);
    ReadU16Inverse(pid, data[1..3]);
    assert data[3..] == info + rest;
    InfoRoundTrip(s.descriptors, caids, command, rest);
  }

  /** Every body reads back to the list management and command codes of the standard,
      the program number, the version, every stream in order, and exactly the matching
      descriptors at each level. */
  lemma BodyRoundTrip(p: Program, caids: seq<u16>, list: ListManagement, command: Command)
    requires !TooLarge(p.descriptors, caids) && NoneTooLarge(p.streams, caids)
    ensures ParseCaPmt(Body(p, caids, list, command)) == Some(Meaning(p, caids, ListByte(list), CommandByte(command)))
  {
    InfoRoundTrip(p.descriptors, caids, command, Flatten(StreamParts(p.streams, caids, command)));
    StreamsRoundTrip(p.streams, caids, command);
    hide InfoBytes, StreamParts, TooLarge, NoneTooLarge, InfoOf, StreamsOf, ParseInfo, ParseStreams, Flatten;
    ReadBody(p, list, InfoBytes(p.descriptors, caids, command),
             Flatten(StreamParts(p.streams, caids, command)),
             InfoOf(p.descriptors, caids, CommandByte(command)), StreamsOf(p.streams, caids, CommandByte(command)));
  }

  lemma ReadBody(p: ProgramData, list: ListManagement, info: seq<byte>, rest: seq<byte>,
                 readInfo: CaInfo, readStreams: seq<CaStream>)
    requires ParseInfo(info + rest) == Some((readInfo, |info|))
    requires ParseStreams(rest) == Some(readStreams)
    ensures ParseCaPmt(Header(p, list) + info + rest)
         == Some(CaPmt(ListByte(list), p.number, p.version % 0x20, readInfo, readStreams))
  {
    hide ParseInfo, ParseStreams;
    HeaderRoundTrip(p, list, info + rest);
    var body := Header(p, list) + info + rest;
    assert body == Header(p, list) + (info + rest);
    assert body[4 + |info|..] == rest;
  }

  lemma HeaderRoundTrip(p: ProgramData, list: ListManagement, rest: seq<byte>)
    ensures var data := Header(p, list) + rest;
            && data[0] == ListByte(list) && ReadU16(data[1..3]) == p.number
            && data[3] / 2 % 0x20 == p.version % 0x20 && data[3] / 0x40 == 3 && data[3] % 2 == 1 && data[4..] == rest
  {
    var data := Header(p, list) + rest;
    assert data[1..3] == BigEndian(p.number);
    ReadU16Inverse(p.number, data[1..3]);
  }
}
