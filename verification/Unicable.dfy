/** Unicable channel changes (EN 50494 and EN 50607): the packed messages, and the
    device's reading of them. Fields of one byte never overlap, so `|` is a sum. */
module Unicable {
  import opened Basics
  import opened Sec

  datatype UnicableConfig =
    UnicableConfig(slot: byte, userBandMhz: u32, position: byte, voltage: Voltage, pin: Option<byte>)

  datatype Timings = Timings(settle: nat, messageGap: nat, hold: nat)

  datatype SecSetup = SecSetup(frontendKhz: u32, commands: seq<SecCommand>)

  /** What a device reads from a message. */
  datatype Request = Request(slot: nat, position: nat, high: bool, tone: bool, code: nat)

  function Bit(on: bool, weight: nat): nat {
    if on then weight else 0
  }

  const U32_LIMIT: nat := 0x1_0000_0000

  // ------------------------------------------------------------------- Unicable I

  /** `(f + ub + 2) / 4 - 350` in checked 32-bit arithmetic. */
  function Code1(frequencyMhz: u32, userBandMhz: u32): Option<nat> {
    var sum := frequencyMhz + userBandMhz + 2;
    if sum >= U32_LIMIT || sum / 4 < 350 then None else Some(sum / 4 - 350)
  }

  function Message1(frequencyMhz: u32, config: UnicableConfig, band: Tone): Result<seq<byte>> {
    if !(1 <= config.slot <= 8) || config.position > 1 then Err(InvalidData)
    else
      match Code1(frequencyMhz, config.userBandMhz)
      case None => Err(InvalidData)
      case Some(x) =>
        if x > 0x3FF then Err(InvalidData)
        else
          var b1 := (config.slot - 1) * 0x20 + config.position * 0x10 + Bit(config.voltage == V18, 8)
                    + Bit(band == ToneOn, 4) + x / 0x100;
          Ok([0xE0, 0x10, 0x5A, b1, x % 0x100])
  }

  /** EN 50494 ODU_Channel_Change, read field by field. */
  function Read1(msg: seq<byte>): Request
    requires |msg| == 5
  {
    var b1 := msg[3];
    Request(b1 / 0x20 + 1, b1 / 0x10 % 2, b1 / 8 % 2 == 1, b1 / 4 % 2 == 1, 0x100 * (b1 as int % 4) + msg[4])
  }

  /** The frequency a device derives from the code and its user band. */
  function Tuned1(code: nat, userBandMhz: u32): int {
    4 * (code + 350) - userBandMhz
  }

  /** An accepted request is understood uniquely, and tuned at most 2 MHz away; it is
      accepted exactly when slot, position and the frequency code are in range. */
  lemma Unicable1(frequencyMhz: u32, config: UnicableConfig, band: Tone)
    ensures Message1(frequencyMhz, config, band).Ok?
       <==> 1 <= config.slot <= 8 && config.position <= 1
            && 1398 <= frequencyMhz + config.userBandMhz <= 5493
    ensures Message1(frequencyMhz, config, band).Ok? ==>
              var msg := Message1(frequencyMhz, config, band).value;
              var request := Read1(msg);
              && msg[..3] == [0xE0, 0x10, 0x5A]
              && request.slot == config.slot && request.position == config.position
              && request.high == (config.voltage == V18) && request.tone == (band == ToneOn)
              && -2 <= Tuned1(request.code, config.userBandMhz) - frequencyMhz <= 2
  {
    if Message1(frequencyMhz, config, band).Ok? {
      var x := Code1(frequencyMhz, config.userBandMhz).value;
      Fields1(config.slot - 1, config.position, Bit(config.voltage == V18, 1), Bit(band == ToneOn, 1), x / 0x100);
      assert x / 0x100 * 0x100 + x % 0x100 == x;
    }
  }

  lemma Fields1(slot: nat, position: nat, high: nat, tone: nat, top: nat)
    requires slot < 8 && position < 2 && high < 2 && tone < 2 && top < 4
    ensures var b := slot * 0x20 + position * 0x10 + high * 8 + tone * 4 + top;
            && b < 0x100 && b / 0x20 == slot && b / 0x10 % 2 == position && b / 8 % 2 == high
            && b / 4 % 2 == tone && b % 4 == top
  {
    var b := slot * 0x20 + position * 0x10 + high * 8 + tone * 4 + top;
    assert b / 0x20 == slot;
    assert b / 0x10 == 2 * slot + position;
    assert b / 8 == 4 * slot + 2 * position + high;
    assert b / 4 == 8 * slot + 4 * position + 2 * high + tone;
    assert (2 * slot + position) % 2 == position;
    assert (2 * (2 * slot + position) + high) % 2 == high;
    assert (2 * (4 * slot + 2 * position + high) + tone) % 2 == tone;
  }

  // ------------------------------------------------------------------ Unicable II

  function Message2(frequencyMhz: u32, config: UnicableConfig, band: Tone): Result<seq<byte>> {
    if !(1 <= config.slot <= 32) || config.position > 63 then Err(InvalidData)
    else if frequencyMhz < 100 || frequencyMhz - 100 > 0x7FF then Err(InvalidData)
    else
      var x := frequencyMhz - 100;
      var b1 := (config.slot - 1) * 8 + x / 0x100;
      var b3 := config.position * 4 + Bit(config.voltage == V18, 2) + Bit(band == ToneOn, 1);
      Ok(match config.pin
         case None => [0x70, b1, x % 0x100, b3]
         case Some(pin) => [0x71, b1, x % 0x100, b3, pin])
  }

  /** EN 50607 ODU_Channel_Change, with or without PIN. */
  function Read2(msg: seq<byte>): Request
    requires |msg| >= 4
  {
    Request(msg[1] / 8 + 1, msg[3] / 4, msg[3] / 2 % 2 == 1, msg[3] % 2 == 1, 0x100 * (msg[1] as int % 8) + msg[2])
  }

  /** An accepted request is understood uniquely and tuned exactly; a PIN travels
      along. It is accepted exactly when slot, position and frequency are in range. */
  lemma Unicable2(frequencyMhz: u32, config: UnicableConfig, band: Tone)
    ensures Message2(frequencyMhz, config, band).Ok?
       <==> 1 <= config.slot <= 32 && config.position <= 63 && 100 <= frequencyMhz <= 2147
    ensures Message2(frequencyMhz, config, band).Ok? ==>
              var msg := Message2(frequencyMhz, config, band).value;
              |msg| >= 4 && var request := Read2(msg);
              && request.slot == config.slot && request.position == config.position
              && request.high == (config.voltage == V18) && request.tone == (band == ToneOn)
              && request.code + 100 == frequencyMhz
              && (if config.pin == None then msg[0] == 0x70 && |msg| == 4
                  else msg[0] == 0x71 && msg[4..] == [config.pin.value])
  {
    if Message2(frequencyMhz, config, band).Ok? {
      var x := frequencyMhz - 100;
      Fields2(config.slot - 1, x / 0x100, config.position, Bit(config.voltage == V18, 1), Bit(band == ToneOn, 1));
      assert x / 0x100 * 0x100 + x % 0x100 == x;
    }
  }

  lemma Fields2(slot: nat, top: nat, position: nat, high: nat, tone: nat)
    requires slot < 32 && top < 8 && position < 64 && high < 2 && tone < 2
    ensures var b1, b3 := slot * 8 + top, position * 4 + high * 2 + tone;
            && b1 < 0x100 && b1 / 8 == slot && b1 % 8 == top
            && b3 < 0x100 && b3 / 4 == position && b3 / 2 % 2 == high && b3 % 2 == tone
  {
    var b3 := position * 4 + high * 2 + tone;
    assert b3 / 2 == 2 * position + high;
    assert (2 * position + high) % 2 == high;
    assert (2 * (2 * position + high) + tone) % 2 == tone;
  }

  // ----------------------------------------------------------------- the sequence

  /** The message framed by the voltage steps; the frontend tunes to the user band.
      The conversion to kHz is a 32-bit multiplication that wraps around; a build
      with overflow checks stops instead where it would wrap. */
  function Tune(userBandMhz: u32, msg: seq<byte>, timings: Timings): SecSetup {
    SecSetup(userBandMhz * 1000 % U32_LIMIT,
             [SetVoltage(V13), SetTone(ToneOff), Wait(timings.settle), SetVoltage(V18), Wait(timings.messageGap),
              SendMasterCommand(msg), Wait(timings.hold), SetVoltage(V13)])
  }

  function Sequence1(frequencyMhz: u32, config: UnicableConfig, band: Tone, timings: Timings): Result<SecSetup> {
    var msg :- Message1(frequencyMhz, config, band);
    Ok(Tune(config.userBandMhz, msg, timings))
  }

  function Sequence2(frequencyMhz: u32, config: UnicableConfig, band: Tone, timings: Timings): Result<SecSetup> {
    var msg :- Message2(frequencyMhz, config, band);
    Ok(Tune(config.userBandMhz, msg, timings))
  }

  /** Unicable I always reports the user band in kHz. Unicable II does not check the
      user band, so it does exactly while that fits 32 bits. */
  lemma FrontendFrequency(frequencyMhz: u32, config: UnicableConfig, band: Tone, timings: Timings)
    ensures var setup := Sequence1(frequencyMhz, config, band, timings);
            setup.Ok? ==> setup.value.frontendKhz == config.userBandMhz * 1000
    ensures var setup := Sequence2(frequencyMhz, config, band, timings);
            setup.Ok? ==> (setup.value.frontendKhz == config.userBandMhz * 1000 <==> config.userBandMhz <= 4294967)
  {
    Unicable1(frequencyMhz, config, band);
  }

  /** A user band that Unicable II accepts but whose kHz value does not fit. */
  lemma FrontendFrequencyWraps(timings: Timings)
    ensures var config := UnicableConfig(1, 4294968, 0, V13, None);
            var setup := Sequence2(1000, config, ToneOff, timings);
            setup.Ok? && setup.value.frontendKhz == 704 != config.userBandMhz * 1000
  {
    var config := UnicableConfig(1, 4294968, 0, V13, None);
    assert Message2(1000, config, ToneOff).Ok?;
    assert config.userBandMhz * 1000 == U32_LIMIT + 704;
  }

  /** The line as the sequence leaves it: voltage, tone, how long the voltage has been
      held, how long the one before it was, and how often it was raised. */
  datatype Line = Line(voltage: Voltage, tone: Tone, held: nat, before: nat, raised: nat)

  function Switched(line: Line, v: Voltage): Line {
    Line(v, line.tone, 0, line.held, line.raised + if v == V18 then 1 else 0)
  }

  /** A master command on the line, and the line when it was sent. */
  datatype OnLine = OnLine(msg: seq<byte>, line: Line)

  /** Playing a sequence: what is sent when, and how the line is left. `None` if it does
      anything but switch, wait and send master commands. */
  function Play(line: Line, commands: seq<SecCommand>): Option<(seq<OnLine>, Line)>
    decreases |commands|
  {
    if commands == [] then Some(([], line))
    else
      match commands[0]
      case SetVoltage(v) => Play(Switched(line, v), commands[1..])
      case SetTone(t) => Play(line.(tone := t), commands[1..])
      case Wait(n) => Play(line.(held := line.held + n), commands[1..])
      case SendMasterCommand(msg) =>
        var rest := Play(line, commands[1..]);
        if rest == None then None else Some(([OnLine(msg, line)] + rest.value.0, rest.value.1))
      case _ => None
  }

  /** Whatever the line was: the message goes out once, with the tone off, on the high
      voltage held for the message gap, which was stepped up to, once, from the low voltage
      held for the settling time; after the hold time the line is back on the low voltage. */
  lemma TuneOnLine(line: Line, userBandMhz: u32, msg: seq<byte>, timings: Timings)
    ensures Play(line, Tune(userBandMhz, msg, timings).commands)
         == Some(([OnLine(msg, Line(V18, ToneOff, timings.messageGap, timings.settle, line.raised + 1))],
                  Line(V13, ToneOff, 0, timings.messageGap + timings.hold, line.raised + 1)))
  {
    hide Play, Tune, Switched;
    var message := [SendMasterCommand(msg)] + ([Wait(timings.hold)] + [SetVoltage(V13)]);
    var up := [SetVoltage(V18)] + ([Wait(timings.messageGap)] + message);
    TuneCommands(userBandMhz, msg, timings);
    PlaySettled(line, timings.settle, up);
    PlayRaised(Line(V13, ToneOff, timings.settle, line.held, line.raised), timings.messageGap, message);
    PlayMessage(Line(V18, ToneOff, timings.messageGap, timings.settle, line.raised + 1), msg, timings.hold);
  }

  lemma PlaySettled(line: Line, settle: nat, rest: seq<SecCommand>)
    ensures Play(line, [SetVoltage(V13)] + ([SetTone(ToneOff)] + ([Wait(settle)] + rest)))
         == Play(Line(V13, ToneOff, settle, line.held, line.raised), rest)
  {
    var low := Switched(line, V13);
    PlayNext(low.(tone := ToneOff), Wait(settle), rest);
    PlayNext(low, SetTone(ToneOff), [Wait(settle)] + rest);
    PlayNext(line, SetVoltage(V13), [SetTone(ToneOff)] + ([Wait(settle)] + rest));
    hide Play;
  }

  lemma PlayRaised(line: Line, gap: nat, rest: seq<SecCommand>)
    ensures Play(line, [SetVoltage(V18)] + ([Wait(gap)] + rest))
         == Play(Line(V18, line.tone, gap, line.held, line.raised + 1), rest)
  {
    PlayNext(Switched(line, V18), Wait(gap), rest);
    PlayNext(line, SetVoltage(V18), [Wait(gap)] + rest);
    hide Play;
  }

  lemma PlayMessage(line: Line, msg: seq<byte>, hold: nat)
    ensures Play(line, [SendMasterCommand(msg)] + ([Wait(hold)] + [SetVoltage(V13)]))
         == Some(([OnLine(msg, line)], Line(V13, line.tone, 0, line.held + hold, line.raised)))
  {
    var held := line.(held := line.held + hold);
    PlayEnd(Switched(held, V13));
    PlayNext(held, SetVoltage(V13), []);
    assert [SetVoltage(V13)] + [] == [SetVoltage(V13)] && [OnLine(msg, line)] + [] == [OnLine(msg, line)];
    PlayNext(line, Wait(hold), [SetVoltage(V13)]);
    PlayNext(line, SendMasterCommand(msg), [Wait(hold)] + [SetVoltage(V13)]);
    hide Play;
  }

  lemma TuneCommands(userBandMhz: u32, msg: seq<byte>, timings: Timings)
    ensures Tune(userBandMhz, msg, timings).commands
         == [SetVoltage(V13)] + ([SetTone(ToneOff)] + ([Wait(timings.settle)] + ([SetVoltage(V18)]
            + ([Wait(timings.messageGap)] + ([SendMasterCommand(msg)] + ([Wait(timings.hold)] + [SetVoltage(V13)]))))))
  {
  }

  lemma PlayEnd(line: Line)
    ensures Play(line, []) == Some(([], line))
  {
  }

  lemma PlayNext(line: Line, c: SecCommand, rest: seq<SecCommand>)
    ensures c.SetVoltage? ==> Play(line, [c] + rest) == Play(Switched(line, c.voltage), rest)
    ensures c.SetTone? ==> Play(line, [c] + rest) == Play(line.(tone := c.tone), rest)
    ensures c.Wait? ==> Play(line, [c] + rest) == Play(line.(held := line.held + c.millis), rest)
    ensures c.SendMasterCommand? && Play(line, rest).Some? ==>
              var (sent, left) := Play(line, rest).value;
              Play(line, [c] + rest) == Some(([OnLine(c.msg, line)] + sent, left))
  {
    assert ([c] + rest)[1..] == rest;
  }

  /** Both sequences can be said in the text language: written out, with any whitespace
      in front of each command, they are read back unchanged. */
  lemma SequenceIsText(frequencyMhz: u32, config: UnicableConfig, band: Tone, timings: Timings, setup: SecSetup,
                       gaps: seq<seq<byte>>, upper: seq<bool>)
    requires timings.settle < U64_LIMIT && timings.messageGap < U64_LIMIT && timings.hold < U64_LIMIT
    requires Ok(setup) in {Sequence1(frequencyMhz, config, band, timings),
                           Sequence2(frequencyMhz, config, band, timings)}
    requires |gaps| == |upper| == |setup.commands| && forall i | 0 <= i < |gaps| :: AllWhitespace(gaps[i])
    ensures forall i | 0 <= i < |setup.commands| :: Expressible(setup.commands[i])
    ensures TextOf(Print(setup.commands, gaps, upper)) == Ok(setup.commands)
  {
    PrintRoundTrip(setup.commands, gaps, upper);
    hide Print, TextOf, IsText;
  }
}
