/** What every CALIN command puts on the wire: its control code, identifier and data, field by field. */
module CalinCommands {
  import opened Domain
  import opened CalinFrame
  import opened CalinNumbers
  import opened CalinCodec

  predicate IsHex(c: char) {
    '0' <= c <= '9' || 'a' <= c <= 'f' || 'A' <= c <= 'F'
  }

  predicate IsHexText(s: string) {
    s != "" && |s| % 2 == 0 && forall c :: c in s ==> IsHex(c)
  }

  function Lower(c: char): char {
    if 'A' <= c <= 'Z' then ((c as int) + 32) as char else c
  }

  /** The bytes spell the text, two hexadecimal digits each, in the text's own order. */
  ghost predicate Spells(bytes: seq<Byte>, hex: string) {
    && |hex| == 2 * |bytes|
    && (forall i :: 0 <= i < |bytes| ==> HexText(bytes[i]) == [Lower(hex[2 * i]), Lower(hex[2 * i + 1])])
  }

  lemma HexValueSpells(c: char)
    ensures HexValue(c).Some? <==> IsHex(c)
    ensures HexValue(c).Some? ==> HEX_DIGITS[HexValue(c).value] == Lower(c)
  {
    assert HEX_DIGITS[0..10] == "0123456789" && HEX_DIGITS[10..] == "abcdef";
  }

  lemma SpellsOneMore(bytes: seq<Byte>, hex: string, b: Byte, high: char, low: char)
    requires Spells(bytes, hex) && HexText(b) == [Lower(high), Lower(low)]
    ensures Spells([b] + bytes, [high, low] + hex)
  {
    var longer, text := [b] + bytes, [high, low] + hex;
    forall i | 0 <= i < |longer| ensures HexText(longer[i]) == [Lower(text[2 * i]), Lower(text[2 * i + 1])] {
      if i > 0 {
        assert longer[i] == bytes[i - 1] && text[2 * i] == hex[2 * (i - 1)] && text[2 * i + 1] == hex[2 * (i - 1) + 1];
      }
    }
  }

  lemma HexTextOfNibbles(high: nat, low: nat, b: Byte)
    requires high < 16 && low < 16 && b == high * 16 + low
    ensures HexText(b) == [HEX_DIGITS[high], HEX_DIGITS[low]]
  {
    assert b / 16 == high && b % 16 == low;
  }

  lemma PairByte(hex: string)
    requires hex != "" && |hex| % 2 == 0
    ensures HexPairs(hex).Some? <==> HexValue(hex[0]).Some? && HexValue(hex[1]).Some? && HexPairs(hex[2..]).Some?
    ensures HexPairs(hex).Some? ==>
      && HexPairs(hex).value != [] && HexPairs(hex).value[1..] == HexPairs(hex[2..]).value
      && HexPairs(hex).value[0] == HexValue(hex[0]).value * 16 + HexValue(hex[1]).value
  {
  }

  lemma PairText(high: char, low: char, b: Byte)
    requires HexValue(high).Some? && HexValue(low).Some? && b == HexValue(high).value * 16 + HexValue(low).value
    ensures HexText(b) == [Lower(high), Lower(low)]
  {
    HexValueSpells(high);
    HexValueSpells(low);
    HexTextOfNibbles(HexValue(high).value, HexValue(low).value, b);
  }

  lemma {:induction false} HexPairsRead(hex: string)
    requires |hex| % 2 == 0
    ensures HexPairs(hex).Some? <==> forall c :: c in hex ==> IsHex(c)
    decreases |hex|
  {
    if hex != "" {
      var high, low, tail := hex[0], hex[1], hex[2..];
      assert hex == [high, low] + tail;
      assert forall c :: c in hex <==> c == high || c == low || c in tail;
      HexPairsRead(tail);
      HexValueSpells(high);
      HexValueSpells(low);
      PairByte(hex);
    }
  }

  lemma {:induction false} HexPairsSpell(hex: string)
    requires |hex| % 2 == 0 && HexPairs(hex).Some?
    ensures Spells(HexPairs(hex).value, hex)
    decreases |hex|
  {
    if hex != "" {
      PairByte(hex);
      HexPairsSpell(hex[2..]);
      PairText(hex[0], hex[1], HexPairs(hex).value[0]);
      PairJoins(HexPairs(hex).value, hex);
    }
  }

  lemma PairJoins(bytes: seq<Byte>, hex: string)
    requires |hex| >= 2 && bytes != [] && Spells(bytes[1..], hex[2..])
    requires HexText(bytes[0]) == [Lower(hex[0]), Lower(hex[1])]
    ensures Spells(bytes, hex)
  {
    SpellsOneMore(bytes[1..], hex[2..], bytes[0], hex[0], hex[1]);
    assert hex == [hex[0], hex[1]] + hex[2..] && bytes == [bytes[0]] + bytes[1..];
  }

  lemma HexTextToBytes(hex: string)
    ensures HexToBytes(hex).Some? <==> IsHexText(hex)
    ensures HexToBytes(hex).Some? ==> Spells(HexToBytes(hex).value, hex)
  {
    if hex != "" && |hex| % 2 == 0 {
      HexPairsRead(hex);
      if HexPairs(hex).Some? {
        HexPairsSpell(hex);
      }
    }
  }

  /** A meter identifier of twelve digits, a shorter one with zeros in front. */
  function Padded(meter: string): string {
    seq(if |meter| < 12 then 12 - |meter| else 0, _ => '0') + meter
  }

  lemma {:induction false} PadStartPads(meter: string)
    ensures PadStart(meter, 12) == Padded(meter)
    decreases 12 - |meter|
  {
    if |meter| < 12 {
      PadStartPads("0" + meter);
      assert Padded("0" + meter) == Padded(meter);
    }
  }

  /**
   * A meter has an address exactly when its identifier is at most twelve hexadecimal digits, which the address spells.
   */
  lemma AddressSpellsMeter(meter: string)
    ensures AddressOf(meter).Some? <==> |meter| <= 12 && IsHexText(Padded(meter))
    ensures AddressOf(meter).Some? ==> |AddressOf(meter).value| == 6 && Spells(AddressOf(meter).value, Padded(meter))
  {
    PadStartPads(meter);
    HexTextToBytes(Padded(meter));
  }

  /** What a command must carry to be encoded: a token in hexadecimal, or date and time fields of two digits. */
  predicate IsEncodable(command: Command) {
    match command
    case Token(token) => token.Some? && IsHexText(token.value)
    case SetDate(date) =>
      date.Some? && (-2000 <= date.value.year || date.value.year % 100 == 0) && 0 <= date.value.month <= 99
      && 0 <= date.value.day <= 99 && date.value.weekday <= 99
    case SetTime(time) =>
      time.Some? && 0 <= time.value.hour <= 99 && 0 <= time.value.minute <= 99
      && (time.value.second.Some? ==> 0 <= time.value.second.value <= 99)
    case Unsupported => false
    case _ => true
  }

  /** A command is encoded exactly when its meter has an address and what it carries can be written. */
  lemma EncodesIff(meter: string, command: Command)
    ensures Encode(meter, command).Some? <==>
      command.ReadPowerLimit? || (|meter| <= 12 && IsHexText(Padded(meter)) && IsEncodable(command))
  {
    AddressSpellsMeter(meter);
    match command
    case Token(token) =>
      if token.Some? {
        HexTextToBytes(token.value);
      }
    case SetDate(date) =>
      if date.Some? {
        YearDigits(date.value.year);
        RemainderIsSmall(FullYear(date.value.year));
      }
    case _ =>
  }

  lemma RemainderIsSmall(n: int)
    ensures Remainder(n, 100) <= 99
  {
  }

  /** A byte that packs the two digits of `value`. */
  predicate Packs(b: Byte, value: int) {
    IsBcd(b) && Dec(b) == value
  }

  /** The parts of a frame that tell the meter what to do. */
  ghost predicate Asks(f: Frame, command: Command) {
    match command
    case TurnOn => f.control == 0x04 && f.identifier == [0xc0, 0x3d] && f.data == [0x96, 0, 0, 0, 0]
    case TurnOff => f.control == 0x04 && f.identifier == [0xc0, 0x3c] && f.data == [0x35, 0, 0, 0, 0]
    case Token(token) => token.Some? && f.control == 0x00 && f.identifier == [0xa1, 0x20] && Spells(f.data, token.value)
    case SetDate(date) =>
      date.Some? && f.control == 0x04 && f.identifier == [0xc0, 0x10]
      && |f.data| == 8 && f.data[4..] == [0, 0, 0, 0]
      && Packs(f.data[0], date.value.year % 100) && Packs(f.data[1], date.value.month)
      && Packs(f.data[2], date.value.day) && Packs(f.data[3], date.value.weekday)
    case SetTime(time) =>
      time.Some? && f.control == 0x04 && f.identifier == [0xc0, 0x11]
      && |f.data| == 7 && f.data[3..] == [0, 0, 0, 0]
      && Packs(f.data[0], time.value.hour) && Packs(f.data[1], time.value.minute)
      && Packs(f.data[2], if time.value.second.Some? then time.value.second.value else 0)
    case ReadCredit => IsReading(f, [0xe4, 0x21])
    case ReadDate => IsReading(f, [0xc0, 0x10])
    case ReadTime => IsReading(f, [0xc0, 0x11])
    case ReadVoltage(phase) => IsReading(f,
      [0xb6, if phase.PhaseA? then 0x11 else if phase.PhaseB? then 0x12 else 0x13])
    case ReadPower(phase) => IsReading(f, [0xb6, if phase.PhaseA? then 0x30 else if phase.PhaseB? then 0x31 else 0x32])
    case ReadCurrent(phase) => IsReading(f,
      [0xb6, if phase.PhaseA? then 0x21 else if phase.PhaseB? then 0x22 else 0x23])
    case ReadPowerLimit => false
    case Unsupported => false
  }

  ghost predicate IsReading(f: Frame, identifier: seq<Byte>) {
    f.control == 0x01 && f.identifier == identifier && f.data == []
  }

  lemma ConfigAsks(command: Command, address: seq<Byte>)
    requires ConfigOf(command).Some?
    ensures Asks(Frame(address, ConfigOf(command).value.control, ConfigOf(command).value.identifier, Carried(command)),
      command)
  {
    match command
    case Token(token) => HexTextToBytes(token.value);
    case SetDate(date) => DateFieldsPack(date.value);
    case SetTime(time) => TimeFieldsPack(time.value);
    case _ =>
  }

  lemma DateFieldsPack(d: DatePayload)
    requires EncodeDateBytes(d).Some?
    ensures var raw := EncodeDateBytes(d).value;
      && |raw| == 4 && Packs(raw[0], d.year % 100) && Packs(raw[1], d.month) && Packs(raw[2], d.day)
      && Packs(raw[3], d.weekday)
  {
    YearDigits(d.year);
    ToBcdPacks(Remainder(FullYear(d.year), 100));
    ToBcdPacks(d.month);
    ToBcdPacks(d.day);
    ToBcdPacks(d.weekday);
  }

  lemma TimeFieldsPack(t: TimePayload)
    requires EncodeTimeBytes(t).Some?
    ensures var raw := EncodeTimeBytes(t).value;
      && |raw| == 3 && Packs(raw[0], t.hour) && Packs(raw[1], t.minute)
      && Packs(raw[2], if t.second.Some? then t.second.value else 0)
  {
    ToBcdPacks(t.hour);
    ToBcdPacks(t.minute);
    ToBcdPacks(SecondOf(t));
  }

  /** What a command carries is at most 253 bytes, unless it is a longer token. */
  lemma CarriedFits(command: Command)
    requires ConfigOf(command).Some? && (command.Token? ==> |command.token.value| <= 506)
    ensures |Carried(command)| <= 253
  {
    if command.Token? {
      HexTextToBytes(command.token.value);
    }
  }

  /**
   * What is on the wire: the frame of every encoded command but the DLMS one is addressed to the digits of the meter's
   * identifier and asks for that command, in the codes and data of the protocol. A token has at most 253 bytes.
   */
  lemma FrameAsksForCommand(meter: string, command: Command) returns (bytes: seq<Byte>)
    requires Encode(meter, command).Some? && !command.ReadPowerLimit?
    requires command.Token? && command.token.Some? ==> |command.token.value| <= 506
    ensures Encode(meter, command) == Some(bytes)
    ensures Read(bytes).Some? && Spells(Read(bytes).value.address, Padded(meter)) && Asks(Read(bytes).value, command)
  {
    var config := ConfigOf(command).value;
    AddressSpellsMeter(meter);
    CarriedFits(command);
    EncodedFrameReadsBack(meter, command);
    ConfigAsks(command, AddressOf(meter).value);
    bytes := Build(AddressOf(meter).value, config.control, config.identifier, Written(config));
  }

  lemma SumOfFour(a: Byte, b: Byte, c: Byte, d: Byte, rest: seq<Byte>)
    ensures Sum([a, b, c, d] + rest) == (a as int) + b + c + d + Sum(rest)
  {
    var four: seq<Byte> := [a, b, c, d];
    SumAppend(four, rest);
    assert four[..3] == [a, b, c] && four[..3][..2] == [a, b] && [a, b][..1] == [a] && [a][..0] == [];
    assert Sum([a]) == a && Sum([a, b]) == (a as int) + b && Sum(four[..3]) == (a as int) + b + c;
  }

  /** The bytes of a writing command that carries one byte, before its checksum. */
  function OneByteBody(a: seq<Byte>, low: Byte, raw: Byte): seq<Byte>
    requires |a| == 6
  {
    [0x68, a[5], a[4], a[3]] + [a[2], a[1], a[0], 0x68] + [0x04, 0x07, low, 0xf3] + [0x33, 0x33, 0x33, 0x33] + [raw]
  }

  lemma OneByteSum(a: seq<Byte>, low: Byte, raw: Byte)
    requires |a| == 6
    ensures Sum(OneByteBody(a, low, raw)) == 0x29a + (a[0] as int) + a[1] + a[2] + a[3] + a[4] + a[5] + low + raw
  {
    var rest: seq<Byte> := [raw];
    assert Sum([]) == 0 && rest[..0] == [] && Sum(rest) == raw;
    SumOfFour(0x33, 0x33, 0x33, 0x33, rest);
    SumOfFour(0x04, 0x07, low, 0xf3, [0x33, 0x33, 0x33, 0x33] + rest);
    SumOfFour(a[2], a[1], a[0], 0x68, [0x04, 0x07, low, 0xf3] + ([0x33, 0x33, 0x33, 0x33] + rest));
    SumOfFour(0x68, a[5], a[4], a[3],
      [a[2], a[1], a[0], 0x68] + ([0x04, 0x07, low, 0xf3] + ([0x33, 0x33, 0x33, 0x33] + rest)));
    assert OneByteBody(a, low, raw) == [0x68, a[5], a[4], a[3]]
      + ([a[2], a[1], a[0], 0x68] + ([0x04, 0x07, low, 0xf3] + ([0x33, 0x33, 0x33, 0x33] + rest)));
  }

  lemma MaskedOneByte(identifier: seq<Byte>, raw: Byte)
    requires |identifier| == 2 && identifier[0] == 0xc0
    ensures Reverse(MaskAll(identifier)) == [Mask(identifier[1]), 0xf3]
    ensures Reverse(MaskAll(PASSWORD)) + Reverse(MaskAll([raw])) == [0x33, 0x33, 0x33, 0x33] + [Mask(raw)]
  {
    assert Reverse(MaskAll(PASSWORD)) == [0x33, 0x33, 0x33, 0x33];
    assert Reverse(MaskAll([raw])) == [Mask(raw)];
  }

  lemma BodyOf(a: seq<Byte>, identifier: seq<Byte>, written: seq<Byte>, low: Byte, raw: Byte)
    requires |a| == 6 && Reverse(MaskAll(identifier)) == [low, 0xf3] && written == [0x33, 0x33, 0x33, 0x33] + [raw]
    ensures FrameBody(a, 0x04, 0x07, identifier, written) == OneByteBody(a, low, raw)
  {
    assert Reverse(a) == [a[5], a[4], a[3], a[2], a[1], a[0]];
    assert [HEADER_BYTE] + Reverse(a) + [HEADER_BYTE, 0x04, 0x07]
      == [0x68, a[5], a[4], a[3]] + [a[2], a[1], a[0], 0x68] + [0x04, 0x07];
  }

  lemma SealedBody(a: seq<Byte>, low: Byte, raw: Byte)
    requires |a| == 6
    ensures var total := (a[0] as int) + a[1] + a[2] + a[3] + a[4] + a[5];
      Seal(OneByteBody(a, low, raw)) == OneByteBody(a, low, raw) + [(0x29a + total + low + raw) % 256, 0x16]
  {
    OneByteSum(a, low, raw);
  }

  lemma RelayConfig(command: Command)
    requires command.TurnOn? || command.TurnOff?
    ensures ConfigOf(command) ==
      Some(if command.TurnOn? then CommandConfig(0x04, [0xc0, 0x3d], [0x96], true)
           else CommandConfig(0x04, [0xc0, 0x3c], [0x35], true))
  {
  }

  lemma OneByteWritten(config: CommandConfig, a: seq<Byte>)
    requires config.control == 0x04 && |config.identifier| == 2 && config.identifier[0] == 0xc0
    requires |config.raw| == 1 && config.requiresPassword && |a| == 6
    ensures Build(a, 0x04, config.identifier, Written(config))
      == Seal(OneByteBody(a, Mask(config.identifier[1]), Mask(config.raw[0])))
  {
    assert config.raw == [config.raw[0]];
    MaskedOneByte(config.identifier, config.raw[0]);
    BodyOf(a, config.identifier, Written(config), Mask(config.identifier[1]), Mask(config.raw[0]));
  }

  lemma RelayFrame(meter: string, command: Command, low: Byte, raw: Byte)
    requires AddressOf(meter).Some?
    requires (command.TurnOn? && low == 0x70 && raw == 0xc9) || (command.TurnOff? && low == 0x6f && raw == 0x68)
    ensures Encode(meter, command) == Some(Seal(OneByteBody(AddressOf(meter).value, low, raw)))
  {
    RelayConfig(command);
    EncodedFrameReadsBack(meter, command);
    OneByteWritten(ConfigOf(command).value, AddressOf(meter).value);
  }

  lemma OneByteFrame(a: seq<Byte>, low: Byte, raw: Byte, checksum: Byte)
    requires |a| == 6
    ensures OneByteBody(a, low, raw) + [checksum, 0x16] == [
      0x68, a[5], a[4], a[3], a[2], a[1], a[0], 0x68, 0x04, 0x07, low, 0xf3, 0x33, 0x33, 0x33, 0x33, raw, checksum,
        0x16]
  {
  }

  /** The relay commands byte by byte, with mask, order, sizes and checksum written out, for every meter. */
  lemma RelayBytes(meter: string, command: Command, low: Byte, raw: Byte)
    requires AddressOf(meter).Some?
    requires (command.TurnOn? && low == 0x70 && raw == 0xc9) || (command.TurnOff? && low == 0x6f && raw == 0x68)
    ensures var a := AddressOf(meter).value; var total := (a[0] as int) + a[1] + a[2] + a[3] + a[4] + a[5];
      Encode(meter, command) == Some([
        0x68, a[5], a[4], a[3], a[2], a[1], a[0], 0x68, 0x04, 0x07, low, 0xf3, 0x33, 0x33, 0x33, 0x33, raw,
        (0x29a + total + low + raw) % 256, 0x16])
  {
    var a := AddressOf(meter).value;
    RelayFrame(meter, command, low, raw);
    SealedBody(a, low, raw);
    OneByteFrame(a, low, raw, (0x29a + (a[0] as int) + a[1] + a[2] + a[3] + a[4] + a[5] + low + raw) % 256);
  }

  /**
   * The DLMS request: a wrapper of version, ports and the length of what follows, and a read of attribute 3 of the
   * limiter object 0.0.17.0.0.255, whatever the meter.
   */
  lemma PowerLimitRequest(meter: string)
    ensures Encode(meter, ReadPowerLimit).Some? && |Encode(meter, ReadPowerLimit).value| == 21
    ensures var request := Encode(meter, ReadPowerLimit).value;
      && request[..6] == [0x00, 0x01, 0x00, 0x66, 0x00, 0x01] && request[6] == 0 && request[7] == |request[8..]|
      && request[8..11] == [0xC0, 0x01, 0xC1] && request[11..13] == [0, 71] && request[13..19] == [0, 0, 17, 0, 0, 255]
      && request[19..] == [3, 0]
  {
  }
}
