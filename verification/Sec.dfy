/** The SEC/DiSEqC sequence language: its grammar, and a parser that accepts exactly
    that grammar. Text is a sequence of bytes. */
module Sec {
  import opened Basics

  datatype Tone = ToneOn | ToneOff

  datatype Voltage = V13 | V18 | VoltageOff

  datatype Burst = BurstA | BurstB

  datatype SecCommand =
    | SetTone(tone: Tone)
    | SetVoltage(voltage: Voltage)
    | SendBurst(burst: Burst)
    | SendMasterCommand(msg: seq<byte>)
    | Wait(millis: nat)

  const U64_LIMIT: nat := 0x1_0000_0000_0000_0000

  predicate IsWhitespace(c: byte) {
    c in {0x20, 0x09, 0x0A, 0x0C, 0x0D}
  }

  predicate IsDigit(c: byte) {
    0x30 <= c <= 0x39
  }

  function HexValue(c: byte): Option<byte> {
    if 0x30 <= c <= 0x39 then Some(c - 0x30)
    else if 0x61 <= c <= 0x66 then Some(c - 0x61 + 10)
    else if 0x41 <= c <= 0x46 then Some(c - 0x41 + 10)
    else None
  }

  const OPEN: byte := 0x5B
  const CLOSE: byte := 0x5D
  const WAIT: byte := 0x57

  /** The commands that are a single letter: t T v V A B. */
  function Letter(c: byte): Option<SecCommand> {
    if c == 0x74 then Some(SetTone(ToneOff))
    else if c == 0x54 then Some(SetTone(ToneOn))
    else if c == 0x76 then Some(SetVoltage(V13))
    else if c == 0x56 then Some(SetVoltage(V18))
    else if c == 0x41 then Some(SendBurst(BurstA))
    else if c == 0x42 then Some(SendBurst(BurstB))
    else None
  }

  // ---------------------------------------------------------------------- grammar

  predicate AllDigits(s: seq<byte>) {
    forall i | 0 <= i < |s| :: IsDigit(s[i])
  }

  predicate AllWhitespace(s: seq<byte>) {
    forall i | 0 <= i < |s| :: IsWhitespace(s[i])
  }

  /** The number a string of decimal digits denotes. */
  function Value(digits: seq<byte>): nat
    requires AllDigits(digits)
  {
    if digits == [] then 0
    else
      assert IsDigit(digits[|digits| - 1]);
      10 * Value(digits[..|digits| - 1]) + (digits[|digits| - 1] as int - 0x30)
  }

  /** Hex byte pairs in any case with whitespace around them, up to the bracket. */
  predicate IsHexText(msg: seq<byte>, s: seq<byte>) {
    if s == [] then false
    else if IsWhitespace(s[0]) then IsHexText(msg, s[1..])
    else if s[0] == CLOSE then msg == [] && |s| == 1
    else
      && |s| >= 2 && msg != []
      && HexValue(s[0]).Some? && HexValue(s[1]).Some?
      && msg[0] == 16 * (HexValue(s[0]).value as int) + HexValue(s[1]).value
      && IsHexText(msg[1..], s[2..])
  }

  /** `s` is one command. */
  predicate IsItem(c: SecCommand, s: seq<byte>) {
    && s != []
    && match c
       case Wait(n) => s[0] == WAIT && |s| > 1 && AllDigits(s[1..]) && Value(s[1..]) == n && n < U64_LIMIT
       case SendMasterCommand(msg) => s[0] == OPEN && IsHexText(msg, s[1..]) && 3 <= |msg| <= 6
       case _ => |s| == 1 && Letter(s[0]) == Some(c)
  }

  /** Behind some whitespace, `s` has the command at `i` up to `j`. */
  predicate Starts(s: seq<byte>, c: SecCommand, i: nat, j: nat) {
    i <= j <= |s| && AllWhitespace(s[..i]) && IsItem(c, s[i..j])
  }

  /** `s` is the commands in order, with any whitespace before, between and after. */
  ghost predicate IsText(commands: seq<SecCommand>, s: seq<byte>)
    decreases |commands|
  {
    if commands == [] then AllWhitespace(s)
    else exists i: nat, j: nat :: Starts(s, commands[0], i, j) && IsText(commands[1..], s[j..])
  }

  // --------------------------------------------------------------- what it parses to

  function SkipWhitespace(s: seq<byte>): (n: nat)
    ensures n <= |s| && AllWhitespace(s[..n]) && (n < |s| ==> !IsWhitespace(s[n]))
  {
    if s == [] || !IsWhitespace(s[0]) then 0
    else
      var n := SkipWhitespace(s[1..]);
      assert s[..n + 1] == [s[0]] + s[1..][..n];
      n + 1
  }

  function SkipDigits(s: seq<byte>): (n: nat)
    ensures n <= |s| && AllDigits(s[..n]) && (n < |s| ==> !IsDigit(s[n]))
  {
    if s == [] || !IsDigit(s[0]) then 0
    else
      var n := SkipDigits(s[1..]);
      assert s[..n + 1] == [s[0]] + s[1..][..n];
      n + 1
  }

  /** The bytes up to the closing bracket, and how much text they took. */
  function HexOf(s: seq<byte>): Result<(seq<byte>, nat)> {
    if s == [] then Err(InvalidData)
    else if IsWhitespace(s[0]) then
      var (msg, n) :- HexOf(s[1..]);
      Ok((msg, n + 1))
    else if s[0] == CLOSE then Ok(([], 1))
    else if |s| < 2 || HexValue(s[0]) == None || HexValue(s[1]) == None then Err(InvalidData)
    else
      var (msg, n) :- HexOf(s[2..]);
      var b: byte := 16 * (HexValue(s[0]).value as int) + HexValue(s[1]).value;
      Ok(([b] + msg, n + 2))
  }

  lemma {:induction false} HexExact(s: seq<byte>, msg: seq<byte>, n: nat)
    ensures HexOf(s) == Ok((msg, n)) <==> 0 < n <= |s| && IsHexText(msg, s[..n])
    decreases |s|
  {
    if s != [] {
      if IsWhitespace(s[0]) {
        if n > 0 {
          HexExact(s[1..], msg, n - 1);
          if n <= |s| {
            assert s[..n][1..] == s[1..][..n - 1];
          }
        }
      } else if s[0] != CLOSE && |s| >= 2 && HexValue(s[0]).Some? && HexValue(s[1]).Some? {
        HexPair(s, msg, n);
      } else if n > 0 && n <= |s| && s[0] == CLOSE {
        assert s[..n][0] == s[0];
      }
    }
  }

  lemma {:induction false} HexPair(s: seq<byte>, msg: seq<byte>, n: nat)
    requires |s| >= 2 && !IsWhitespace(s[0]) && s[0] != CLOSE && HexValue(s[0]).Some? && HexValue(s[1]).Some?
    ensures HexOf(s) == Ok((msg, n)) <==> 0 < n <= |s| && IsHexText(msg, s[..n])
    decreases |s|, 0
  {
    var b: byte := 16 * (HexValue(s[0]).value as int) + HexValue(s[1]).value;
    if n >= 2 && msg != [] {
      HexExact(s[2..], msg[1..], n - 2);
      assert msg == [msg[0]] + msg[1..];
      if n <= |s| {
        assert s[..n][2..] == s[2..][..n - 2];
      }
    }
    if HexOf(s[2..]).Ok? {
      var (rest, k) := HexOf(s[2..]).value;
      assert ([b] + rest)[1..] == rest;
    }
  }

  /** The command at the start of `s` and how much text it took. */
  function ItemOf(s: seq<byte>): Result<(SecCommand, nat)>
    requires s != []
  {
    if Letter(s[0]).Some? then Ok((Letter(s[0]).value, 1))
    else if s[0] == WAIT then
      var n := SkipDigits(s[1..]);
      if n == 0 || Value(s[1..][..n]) >= U64_LIMIT then Err(InvalidData)
      else Ok((Wait(Value(s[1..][..n])), n + 1))
    else if s[0] == OPEN then
      var (msg, n) :- HexOf(s[1..]);
      if 3 <= |msg| <= 6 then Ok((SendMasterCommand(msg), n + 1)) else Err(InvalidData)
    else Err(InvalidData)
  }

  function TextOf(s: seq<byte>): Result<seq<SecCommand>>
    decreases |s|
  {
    var from := SkipWhitespace(s);
    if from == |s| then Ok([])
    else
      var (c, n) :- ItemOf(s[from..]);
      ItemUses(s[from..], c, n);
      TextFor(c, TextOf(s[from + n..]))
  }

  lemma ItemUses(s: seq<byte>, c: SecCommand, n: nat)
    requires s != [] && ItemOf(s) == Ok((c, n))
    ensures 0 < n <= |s|
  {
    if s[0] == OPEN {
      HexExact(s[1..], HexOf(s[1..]).value.0, HexOf(s[1..]).value.1);
    }
  }

  /** A number ends where no digit follows. */
  predicate Ends(c: SecCommand, s: seq<byte>, n: nat) {
    c.Wait? ==> n >= |s| || !IsDigit(s[n])
  }

  lemma {:induction false} DigitsEnd(s: seq<byte>, n: nat)
    requires n <= |s| && AllDigits(s[..n]) && (n < |s| ==> !IsDigit(s[n]))
    ensures SkipDigits(s) == n
    decreases |s|
  {
    if n > 0 {
      assert s[..n][0] == s[0] && s[1..][..n - 1] == s[..n][1..];
      DigitsEnd(s[1..], n - 1);
    }
  }

  /** One command is parsed exactly when the text starts with one and a number is
      taken whole. */
  lemma ItemExact(s: seq<byte>, c: SecCommand, n: nat)
    requires s != []
    ensures ItemOf(s) == Ok((c, n)) <==> 0 < n <= |s| && IsItem(c, s[..n]) && Ends(c, s, n)
  {
    if ItemOf(s) == Ok((c, n)) {
      ItemUses(s, c, n);
      assert s[..n][0] == s[0];
      assert s[..n][1..] == s[1..][..n - 1];
      if s[0] == OPEN {
        HexExact(s[1..], HexOf(s[1..]).value.0, HexOf(s[1..]).value.1);
      }
    }
    if 0 < n <= |s| && IsItem(c, s[..n]) && Ends(c, s, n) {
      assert s[..n][0] == s[0];
      assert s[..n][1..] == s[1..][..n - 1];
      match c {
        case Wait(_) => DigitsEnd(s[1..], n - 1);
        case SendMasterCommand(msg) => HexExact(s[1..], msg, n - 1);
        case _ =>
      }
    }
  }

  /** Text never starts with a digit, so it cannot prolong a number. */
  lemma TextStart(commands: seq<SecCommand>, s: seq<byte>)
    requires IsText(commands, s) && s != []
    ensures !IsDigit(s[0])
  {
    if commands != [] {
      var i: nat, j: nat :| Starts(s, commands[0], i, j) && IsText(commands[1..], s[j..]);
      hide IsText;
      StartsNoDigit(s, commands[0], i, j);
    }
  }

  lemma StartsNoDigit(s: seq<byte>, c: SecCommand, i: nat, j: nat)
    requires Starts(s, c, i, j)
    ensures i < j && !IsDigit(s[0])
  {
    hide IsHexText, Value;
    if i == 0 {
      assert s[i..j][0] == s[0];
    } else {
      assert s[..i][0] == s[0];
    }
  }

  lemma {:induction false} WhitespaceEnd(s: seq<byte>, i: nat)
    requires i <= |s| && AllWhitespace(s[..i]) && (i < |s| ==> !IsWhitespace(s[i]))
    ensures SkipWhitespace(s) == i
    decreases |s|
  {
    if i > 0 {
      assert s[..i][0] == s[0] && s[1..][..i - 1] == s[..i][1..];
      WhitespaceEnd(s[1..], i - 1);
    }
  }

  /** A parsed command is a command of the text, and the other way round. */
  lemma StartsParsed(s: seq<byte>, c: SecCommand, i: nat, n: nat)
    requires i < |s|
    ensures SkipWhitespace(s) == i && ItemOf(s[i..]) == Ok((c, n))
       <==> 0 < n <= |s| - i && Starts(s, c, i, i + n) && Ends(c, s[i..], n)
  {
    hide ItemOf, IsHexText, Value, Ends;
    ItemExact(s[i..], c, n);
    if n <= |s| - i {
      assert s[i..][..n] == s[i..i + n];
    }
    if 0 < n <= |s| - i && Starts(s, c, i, i + n) {
      assert s[i..i + n][0] == s[i];
      ItemHead(c, s[i..i + n]);
      WhitespaceEnd(s, i);
    }
  }

  lemma ItemHead(c: SecCommand, s: seq<byte>)
    requires IsItem(c, s)
    ensures s != [] && !IsWhitespace(s[0])
  {
    hide IsHexText, Value;
  }

  lemma TextEnd(s: seq<byte>)
    requires SkipWhitespace(s) == |s|
    ensures TextOf(s) == Ok([])
  {
  }

  lemma TextBad(s: seq<byte>, from: nat)
    requires from == SkipWhitespace(s) < |s| && ItemOf(s[from..]).Err?
    ensures TextOf(s) == Err(ItemOf(s[from..]).error)
  {
    hide ItemOf, SkipWhitespace;
  }

  /** How the first command decides the rest of the parse. */
  lemma TextGood(s: seq<byte>, from: nat, c: SecCommand, n: nat)
    requires from == SkipWhitespace(s) < |s| && ItemOf(s[from..]) == Ok((c, n))
    ensures 0 < n <= |s| - from
    ensures TextOf(s) == TextFor(c, TextOf(s[from + n..]))
  {
    hide ItemOf, HexOf, SkipWhitespace;
    ItemUses(s[from..], c, n);
    assert TextOf(s) == TextFor(c, TextOf(s[from + n..]));
  }

  function TextFor(c: SecCommand, rest: Result<seq<SecCommand>>): Result<seq<SecCommand>> {
    match rest
    case Err(e) => Err(e)
    case Ok(more) => Ok([c] + more)
  }

  lemma {:induction false} ParsedIsText(commands: seq<SecCommand>, s: seq<byte>)
    requires TextOf(s) == Ok(commands)
    ensures IsText(commands, s)
    decreases |s|
  {
    hide TextOf, ItemOf, IsItem, Starts, Ends, SkipWhitespace;
    var from := SkipWhitespace(s);
    if from == |s| {
      TextEnd(s);
      assert s[..from] == s;
    } else {
      if ItemOf(s[from..]).Err? {
        TextBad(s, from);
      }
      var (c, n) := ItemOf(s[from..]).value;
      TextGood(s, from, c, n);
      var rest := TextOf(s[from + n..]).value;
      StartsParsed(s, c, from, n);
      assert commands[0] == c && commands[1..] == rest;
      ParsedIsText(rest, s[from + n..]);
    }
  }

  lemma {:induction false} TextIsParsed(commands: seq<SecCommand>, s: seq<byte>)
    requires IsText(commands, s)
    ensures TextOf(s) == Ok(commands)
    decreases |commands|
  {
    hide TextOf, ItemOf, IsItem, SkipWhitespace;
    if commands == [] {
      assert s[..|s|] == s;
      WhitespaceEnd(s, |s|);
      TextEnd(s);
    } else {
      var i: nat, j: nat :| Starts(s, commands[0], i, j) && IsText(commands[1..], s[j..]);
      hide IsText, Starts;
      TakeFirst(commands, s, i, j);
      TextGood(s, i, commands[0], j - i);
      TextIsParsed(commands[1..], s[j..]);
      assert commands == [commands[0]] + commands[1..];
    }
  }

  lemma TakeFirst(commands: seq<SecCommand>, s: seq<byte>, i: nat, j: nat)
    requires commands != [] && i <= j <= |s| && Starts(s, commands[0], i, j) && IsText(commands[1..], s[j..])
    ensures i < j <= |s| && SkipWhitespace(s) == i && ItemOf(s[i..]) == Ok((commands[0], j - i))
  {
    hide *;
    StartsNoDigit(s, commands[0], i, j);
    if j < |s| {
      TextStart(commands[1..], s[j..]);
    }
    EndsAt(commands[0], s, i, j);
    StartsParsed(s, commands[0], i, j - i);
  }

  lemma EndsAt(c: SecCommand, s: seq<byte>, i: nat, j: nat)
    requires i <= j <= |s| && (j < |s| ==> !IsDigit(s[j]))
    ensures Ends(c, s[i..], j - i)
  {
  }

  /** The parser accepts exactly the documented language, and every text has one
      meaning: any layout of a command sequence parses to that sequence. */
  lemma ParserExact(commands: seq<SecCommand>, s: seq<byte>)
    ensures TextOf(s) == Ok(commands) <==> IsText(commands, s)
  {
    if TextOf(s) == Ok(commands) {
      ParsedIsText(commands, s);
    }
    if IsText(commands, s) {
      TextIsParsed(commands, s);
    }
  }

  // ---------------------------------------------------------------------- printing

  /** What the language can say: every command but releasing the voltage, with
      master commands of 3 to 6 bytes and waits of 64 bits. */
  predicate Expressible(c: SecCommand) {
    match c
    case SetVoltage(v) => v != VoltageOff
    case SendMasterCommand(msg) => 3 <= |msg| <= 6
    case Wait(n) => n < U64_LIMIT
    case _ => true
  }

  function Decimal(n: nat): (s: seq<byte>)
    ensures s != []
  {
    (if n < 10 then [] else Decimal(n / 10)) + [0x30 + n % 10]
  }

  function HexDigit(n: nat, upper: bool): byte
    requires n < 16
  {
    if n < 10 then 0x30 + n else if upper then 0x41 + n - 10 else 0x61 + n - 10
  }

  /** Bytes in hex, each behind `gap`, in either case. */
  function PrintBytes(msg: seq<byte>, gap: seq<byte>, upper: bool): seq<byte> {
    if msg == [] then gap + [CLOSE]
    else gap + [HexDigit(msg[0] / 16, upper), HexDigit(msg[0] % 16, upper)] + PrintBytes(msg[1..], gap, upper)
  }

  function PrintItem(c: SecCommand, gap: seq<byte>, upper: bool): seq<byte>
    requires Expressible(c)
  {
    match c
    case SetTone(t) => [if t == ToneOff then 0x74 else 0x54]
    case SetVoltage(v) => [if v == V13 then 0x76 else 0x56]
    case SendBurst(b) => [if b == BurstA then 0x41 else 0x42]
    case Wait(n) => [WAIT] + Decimal(n)
    case SendMasterCommand(msg) => [OPEN] + PrintBytes(msg, gap, upper)
  }

  /** All commands, each with its own gap in front and its own hex style. */
  function Print(commands: seq<SecCommand>, gaps: seq<seq<byte>>, upper: seq<bool>): seq<byte>
    requires |gaps| == |upper| == |commands| && forall i | 0 <= i < |commands| :: Expressible(commands[i])
  {
    if commands == [] then []
    else gaps[0] + PrintItem(commands[0], gaps[0], upper[0]) + Print(commands[1..], gaps[1..], upper[1..])
  }

  lemma {:induction false} DecimalValue(n: nat)
    ensures AllDigits(Decimal(n)) && Value(Decimal(n)) == n
  {
    var s := Decimal(n);
    if n >= 10 {
      DecimalValue(n / 10);
      assert s[..|s| - 1] == Decimal(n / 10);
    } else {
      assert s[..|s| - 1] == [];
    }
  }

  lemma {:induction false} SkipsGap(msg: seq<byte>, gap: seq<byte>, s: seq<byte>)
    requires AllWhitespace(gap) && IsHexText(msg, s)
    ensures IsHexText(msg, gap + s)
    decreases |gap|
  {
    if gap == [] {
      assert gap + s == s;
    } else {
      assert (gap + s)[1..] == gap[1..] + s;
      SkipsGap(msg, gap[1..], s);
    }
  }

  lemma {:induction false} BytesPrinted(msg: seq<byte>, gap: seq<byte>, upper: bool)
    requires AllWhitespace(gap)
    ensures IsHexText(msg, PrintBytes(msg, gap, upper))
    decreases |msg|
  {
    if msg == [] {
      SkipsGap(msg, gap, [CLOSE]);
    } else {
      var pair := [HexDigit(msg[0] / 16, upper), HexDigit(msg[0] % 16, upper)];
      var rest := PrintBytes(msg[1..], gap, upper);
      BytesPrinted(msg[1..], gap, upper);
      assert (pair + rest)[2..] == rest;
      assert gap + pair + rest == gap + (pair + rest);
      SkipsGap(msg, gap, pair + rest);
    }
  }

  lemma ItemPrinted(c: SecCommand, gap: seq<byte>, upper: bool)
    requires Expressible(c) && AllWhitespace(gap)
    ensures IsItem(c, PrintItem(c, gap, upper))
  {
    match c {
      case Wait(n) =>
        DecimalValue(n);
        assert PrintItem(c, gap, upper)[1..] == Decimal(n);
      case SendMasterCommand(msg) =>
        BytesPrinted(msg, gap, upper);
        assert PrintItem(c, gap, upper)[1..] == PrintBytes(msg, gap, upper);
      case _ =>
    }
  }

  lemma PrintedParts(gap: seq<byte>, item: seq<byte>, rest: seq<byte>)
    ensures var s := gap + item + rest;
            var i, j := |gap|, |gap| + |item|;
            s[..i] == gap && s[i..j] == item && s[j..] == rest
  {
  }

  /** Any expressible sequence, printed with any whitespace in front of each command,
      the same inside its hex bytes, and in either hex case, is text of the language
      and parses back to itself. */
  lemma {:induction false} PrintRoundTrip(commands: seq<SecCommand>, gaps: seq<seq<byte>>, upper: seq<bool>)
    requires |gaps| == |upper| == |commands| && forall i | 0 <= i < |commands| :: Expressible(commands[i])
    requires forall i | 0 <= i < |gaps| :: AllWhitespace(gaps[i])
    ensures IsText(commands, Print(commands, gaps, upper))
    ensures TextOf(Print(commands, gaps, upper)) == Ok(commands)
    decreases |commands|
  {
    var s := Print(commands, gaps, upper);
    if commands != [] {
      assert AllWhitespace(gaps[0]) && Expressible(commands[0]);
      var item := PrintItem(commands[0], gaps[0], upper[0]);
      var i, j := |gaps[0]|, |gaps[0]| + |item|;
      ItemPrinted(commands[0], gaps[0], upper[0]);
      PrintRoundTrip(commands[1..], gaps[1..], upper[1..]);
      PrintedParts(gaps[0], item, Print(commands[1..], gaps[1..], upper[1..]));
      assert Starts(s, commands[0], i, j);
    }
    hide Print, PrintItem;
    ParserExact(commands, s);
  }

  // ------------------------------------------------------------------- the parser

  lemma {:induction false} ValueGrows(a: seq<byte>, b: seq<byte>)
    requires AllDigits(a) && AllDigits(b) && a <= b
    ensures Value(a) <= Value(b)
    decreases |b|
  {
    if a != b {
      var front := b[..|b| - 1];
      assert a <= front;
      ValueGrows(a, front);
    }
  }

  class Parser {
    const bytes: seq<byte>
    var pos: nat

    constructor (input: seq<byte>)
      ensures bytes == input && pos == 0
    {
      bytes, pos := input, 0;
    }

    function Rest(): seq<byte>
      requires pos <= |bytes|
      reads this
    {
      bytes[pos..]
    }

    /** Moves to the next byte that is not whitespace; false at the end. */
    method Skip() returns (more: bool)
      requires pos <= |bytes|
      modifies this
      ensures pos == old(pos) + SkipWhitespace(old(Rest())) <= |bytes|
      ensures more <==> pos < |bytes|
    {
      while pos < |bytes| && IsWhitespace(bytes[pos])
        invariant old(pos) <= pos <= |bytes|
        invariant AllWhitespace(bytes[old(pos)..pos])
      {
        assert bytes[old(pos)..pos + 1] == bytes[old(pos)..pos] + [bytes[pos]];
        pos := pos + 1;
      }
      assert old(Rest())[..pos - old(pos)] == bytes[old(pos)..pos];
      WhitespaceEnd(old(Rest()), pos - old(pos));
      more := pos < |bytes|;
    }

    method ParseWait() returns (r: Result<nat>)
      requires pos <= |bytes|
      modifies this
      ensures var n := SkipDigits(old(Rest()));
              var value := Value(old(Rest())[..n]);
              if n == 0 || value >= U64_LIMIT then r == Err(InvalidData) && pos <= |bytes|
              else r == Ok(value) && pos == old(pos) + n <= |bytes|
    {
      var start := pos;
      ghost var s := Rest();
      ghost var n := SkipDigits(s);
      var value := 0;
      assert s[..0] == [];
      while pos < |bytes| && IsDigit(bytes[pos])
        invariant start <= pos <= |bytes| && pos - start <= n
        invariant AllDigits(s[..pos - start]) && value == Value(s[..pos - start]) < U64_LIMIT
      {
        ghost var k := pos - start;
        assert s[k] == bytes[pos];
        if k == n {
          assert false;
        }
        assert s[..k + 1][..k] == s[..k] && s[..k + 1][k] == s[k];
        assert s[..n][..k + 1] == s[..k + 1];
        DigitPrefix(s, n, k + 1);
        if value * 10 + (bytes[pos] as int - 0x30) >= U64_LIMIT {
          ValueGrows(s[..k + 1], s[..n]);
          return Err(InvalidData);
        }
        value := value * 10 + (bytes[pos] as int - 0x30);
        pos := pos + 1;
      }
      DigitsEnd(s, pos - start);
      if pos == start {
        return Err(InvalidData);
      }
      return Ok(value);
    }

    method ParseHexNibble() returns (r: Result<byte>)
      requires pos <= |bytes|
      modifies this
      ensures var s := old(Rest());
              if s == [] || HexValue(s[0]) == None then r == Err(InvalidData) && pos == old(pos)
              else r == Ok(HexValue(s[0]).value) && pos == old(pos) + 1
    {
      if pos >= |bytes| {
        return Err(InvalidData);
      }
      var nibble := HexValue(bytes[pos]);
      if nibble == None {
        return Err(InvalidData);
      }
      pos := pos + 1;
      return Ok(nibble.value);
    }

    /** The bytes behind an opening bracket. */
    method ParseHexBytes() returns (r: Result<seq<byte>>)
      requires pos <= |bytes|
      modifies this
      ensures pos <= |bytes|
      ensures match HexOf(old(Rest()))
              case Err(_) => r == Err(InvalidData)
              case Ok((msg, n)) => r == Ok(msg) && pos == old(pos) + n
    {
      hide HexOf, Prefixed, SkipWhitespace, HexValue, IsWhitespace;
      var msg: seq<byte> := [];
      HexFrom([], Rest());
      while true
        invariant old(pos) <= pos <= |bytes|
        invariant Prefixed(msg, pos - old(pos), HexOf(bytes[pos..])) == HexOf(bytes[old(pos)..])
        decreases |bytes| - pos
      {
        HexSkipAt(bytes, pos, msg, pos - old(pos));
        var more := Skip();
        HexCasesAt(bytes, pos, msg, pos - old(pos));
        if !more {
          return Err(InvalidData);
        }
        if bytes[pos] == CLOSE {
          pos := pos + 1;
          return Ok(msg);
        }
        var high := ParseHexNibble();
        if high.Err? {
          return Err(InvalidData);
        }
        var low := ParseHexNibble();
        if low.Err? {
          return Err(InvalidData);
        }
        var b: byte := 16 * (high.value as int) + low.value;
        msg := msg + [b];
      }
    }

    method ParseMasterCommand() returns (r: Result<SecCommand>)
      requires pos < |bytes| && bytes[pos] == OPEN
      modifies this
      ensures pos <= |bytes|
      ensures match ItemOf(old(Rest()))
              case Err(_) => r == Err(InvalidData)
              case Ok((c, n)) => r == Ok(c) && pos == old(pos) + n
    {
      assert bytes[pos + 1..] == bytes[pos..][1..];
      pos := pos + 1;
      var msg := ParseHexBytes();
      if msg.Err? {
        return Err(InvalidData);
      }
      if !(3 <= |msg.value| <= 6) {
        return Err(InvalidData);
      }
      return Ok(SendMasterCommand(msg.value));
    }

    method ParseItem() returns (r: Result<SecCommand>)
      requires pos < |bytes|
      modifies this
      ensures pos <= |bytes|
      ensures match ItemOf(old(Rest()))
              case Err(_) => r == Err(InvalidData)
              case Ok((c, n)) => r == Ok(c) && pos == old(pos) + n
    {
      var letter := Letter(bytes[pos]);
      if letter.Some? {
        pos := pos + 1;
        return Ok(letter.value);
      }
      if bytes[pos] == WAIT {
        assert bytes[pos + 1..] == bytes[pos..][1..];
        pos := pos + 1;
        var millis := ParseWait();
        return if millis.Err? then Err(InvalidData) else Ok(Wait(millis.value));
      }
      if bytes[pos] == OPEN {
        r := ParseMasterCommand();
        return;
      }
      return Err(InvalidData);
    }

    /** The whole text, command by command. */
    method Parse() returns (r: Result<seq<SecCommand>>)
      requires pos <= |bytes|
      modifies this
      ensures r == TextOf(old(Rest()))
    {
      hide ItemOf, TextOf, After, SkipWhitespace;
      var commands: seq<SecCommand> := [];
      TextFrom(Rest());
      while true
        invariant pos <= |bytes|
        invariant After(commands, TextOf(bytes[pos..])) == TextOf(bytes[old(pos)..])
        decreases |bytes| - pos
      {
        TextCasesAt(bytes, pos, commands);
        var more := Skip();
        if !more {
          return Ok(commands);
        }
        var c := ParseItem();
        if c.Err? {
          return Err(c.error);
        }
        commands := commands + [c.value];
      }
    }
  }

  lemma DigitPrefix(s: seq<byte>, n: nat, k: nat)
    requires k <= n <= |s| && AllDigits(s[..n])
    ensures AllDigits(s[..k]) && s[..k] <= s[..n]
  {
    forall i | 0 <= i < k ensures IsDigit(s[..k][i]) {
      assert s[..n][i] == s[i];
    }
  }

  /** What has been read in front of what is still to be read. */
  function Prefixed(msg: seq<byte>, used: nat, rest: Result<(seq<byte>, nat)>): Result<(seq<byte>, nat)> {
    match rest
    case Err(_) => Err(InvalidData)
    case Ok((more, n)) => Ok((msg + more, used + n))
  }

  lemma HexFrom(msg: seq<byte>, s: seq<byte>)
    requires msg == []
    ensures Prefixed(msg, 0, HexOf(s)) == HexOf(s)
  {
    HexErrors(s);
    if HexOf(s).Ok? {
      assert [] + HexOf(s).value.0 == HexOf(s).value.0;
    }
  }

  lemma {:induction false} HexErrors(s: seq<byte>)
    ensures HexOf(s).Err? ==> HexOf(s).error == InvalidData
    decreases |s|
  {
    if s != [] {
      HexErrors(s[1..]);
      if |s| >= 2 {
        HexErrors(s[2..]);
      }
    }
  }

  lemma {:induction false} SkipHex(s: seq<byte>, msg: seq<byte>, used: nat)
    ensures Prefixed(msg, used, HexOf(s))
         == Prefixed(msg, used + SkipWhitespace(s), HexOf(s[SkipWhitespace(s)..]))
    decreases |s|
  {
    if s != [] && IsWhitespace(s[0]) {
      SkipHex(s[1..], msg, used + 1);
      assert s[1..][SkipWhitespace(s[1..])..] == s[SkipWhitespace(s)..];
      HexErrors(s[1..]);
    }
  }

  lemma HexCases(s: seq<byte>, msg: seq<byte>, used: nat)
    requires s != [] && !IsWhitespace(s[0])
    ensures s[0] == CLOSE ==> Prefixed(msg, used, HexOf(s)) == Ok((msg, used + 1))
    ensures s[0] != CLOSE && (|s| < 2 || HexValue(s[0]) == None || HexValue(s[1]) == None) ==>
              Prefixed(msg, used, HexOf(s)) == Err(InvalidData)
    ensures s[0] != CLOSE && |s| >= 2 && HexValue(s[0]).Some? && HexValue(s[1]).Some? ==>
              var b: byte := 16 * (HexValue(s[0]).value as int) + HexValue(s[1]).value;
              Prefixed(msg, used, HexOf(s)) == Prefixed(msg + [b], used + 2, HexOf(s[2..]))
  {
    if s[0] == CLOSE {
      assert msg + [] == msg;
    } else if |s| >= 2 && HexValue(s[0]).Some? && HexValue(s[1]).Some? && HexOf(s[2..]).Ok? {
      var b: byte := 16 * (HexValue(s[0]).value as int) + HexValue(s[1]).value;
      assert msg + ([b] + HexOf(s[2..]).value.0) == msg + [b] + HexOf(s[2..]).value.0;
    }
  }

  function After(commands: seq<SecCommand>, rest: Result<seq<SecCommand>>): Result<seq<SecCommand>> {
    match rest
    case Err(e) => Err(e)
    case Ok(more) => Ok(commands + more)
  }

  lemma TextFrom(s: seq<byte>)
    ensures After([], TextOf(s)) == TextOf(s)
  {
    if TextOf(s).Ok? {
      assert [] + TextOf(s).value == TextOf(s).value;
    }
  }

  lemma ItemErrors(s: seq<byte>)
    requires s != []
    ensures ItemOf(s).Err? ==> ItemOf(s).error == InvalidData
  {
    HexErrors(s[1..]);
  }

  /** How a command at a position moves the parse on. */
  lemma TextCasesAt(bytes: seq<byte>, pos: nat, commands: seq<SecCommand>)
    requires pos <= |bytes|
    ensures var at := pos + SkipWhitespace(bytes[pos..]);
            && at <= |bytes|
            && if at == |bytes| then After(commands, TextOf(bytes[pos..])) == Ok(commands)
               else match ItemOf(bytes[at..])
                    case Err(e) => e == InvalidData && After(commands, TextOf(bytes[pos..])) == Err(InvalidData)
                    case Ok((c, n)) =>
                      && 0 < n <= |bytes| - at
                      && After(commands, TextOf(bytes[pos..])) == After(commands + [c], TextOf(bytes[at + n..]))
  {
    hide ItemOf, TextOf, SkipWhitespace;
    var s := bytes[pos..];
    var from := SkipWhitespace(s);
    var at := pos + from;
    assert commands + [] == commands;
    if from == |s| {
      TextEnd(s);
    } else {
      assert s[from..] == bytes[at..];
      ItemErrors(s[from..]);
      if ItemOf(bytes[at..]).Err? {
        TextBad(s, from);
      } else {
        var (c, n) := ItemOf(bytes[at..]).value;
        TextGood(s, from, c, n);
        assert s[from + n..] == bytes[at + n..];
        AfterOne(commands, c, TextOf(bytes[at + n..]));
      }
    }
  }

  lemma AfterOne(commands: seq<SecCommand>, c: SecCommand, rest: Result<seq<SecCommand>>)
    ensures After(commands, TextFor(c, rest))
         == After(commands + [c], rest)
  {
    if rest.Ok? {
      assert commands + ([c] + rest.value) == commands + [c] + rest.value;
    }
  }

  lemma HexSkipAt(bytes: seq<byte>, pos: nat, msg: seq<byte>, used: nat)
    requires pos <= |bytes|
    ensures var w := SkipWhitespace(bytes[pos..]);
            && pos + w <= |bytes|
            && Prefixed(msg, used, HexOf(bytes[pos..])) == Prefixed(msg, used + w, HexOf(bytes[pos + w..]))
            && (pos + w < |bytes| ==> !IsWhitespace(bytes[pos + w]))
  {
    var w := SkipWhitespace(bytes[pos..]);
    SkipHex(bytes[pos..], msg, used);
    assert bytes[pos..][w..] == bytes[pos + w..];
  }

  lemma HexCasesAt(bytes: seq<byte>, pos: nat, msg: seq<byte>, used: nat)
    requires pos <= |bytes| && (pos < |bytes| ==> !IsWhitespace(bytes[pos]))
    ensures pos == |bytes| ==> Prefixed(msg, used, HexOf(bytes[pos..])) == Err(InvalidData)
    ensures pos < |bytes| && bytes[pos] == CLOSE ==>
              Prefixed(msg, used, HexOf(bytes[pos..])) == Ok((msg, used + 1))
    ensures pos < |bytes| && bytes[pos] != CLOSE ==>
              if pos + 1 < |bytes| && HexValue(bytes[pos]).Some? && HexValue(bytes[pos + 1]).Some? then
                var b: byte := 16 * (HexDigitValue(bytes[pos]) as int) + HexDigitValue(bytes[pos + 1]);
                Prefixed(msg, used, HexOf(bytes[pos..])) == Prefixed(msg + [b], used + 2, HexOf(bytes[pos + 2..]))
              else
                Prefixed(msg, used, HexOf(bytes[pos..])) == Err(InvalidData)
  {
    if pos < |bytes| {
      HexCases(bytes[pos..], msg, used);
      if pos + 1 < |bytes| {
        assert bytes[pos..][2..] == bytes[pos + 2..];
      }
      hide HexOf, Prefixed;
    }
  }

  function HexDigitValue(c: byte): (v: byte)
    requires HexValue(c).Some?
    ensures v < 16 && HexValue(c) == Some(v)
  {
    HexValue(c).value
  }
}
