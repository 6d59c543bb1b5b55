/** Commands encoded as CALIN downlink frames, and uplink frames decoded. */
module CalinCodec {
  import opened Domain
  import opened CalinFrame
  import opened CalinNumbers

  datatype Phase = PhaseA | PhaseB | PhaseC

  /** `weekday` is the day of the week of the date, Sunday being 0. */
  datatype DatePayload = DatePayload(year: int, month: int, day: int, weekday: nat)

  datatype TimePayload = TimePayload(hour: int, minute: int, second: Option<int>)

  datatype Command =
    | Token(token: Option<string>)
    | TurnOn
    | TurnOff
    | SetDate(date: Option<DatePayload>)
    | SetTime(time: Option<TimePayload>)
    | ReadCredit
    | ReadDate
    | ReadTime
    | ReadVoltage(phase: Phase)
    | ReadPower(phase: Phase)
    | ReadCurrent(phase: Phase)
    | ReadPowerLimit
    | Unsupported

  function HexValue(c: char): (v: Option<nat>)
    ensures v.Some? ==> v.value < 16
  {
    if '0' <= c <= '9' then Some((c as int) - ('0' as int))
    else if 'a' <= c <= 'f' then Some((c as int) - ('a' as int) + 10)
    else if 'A' <= c <= 'F' then Some((c as int) - ('A' as int) + 10)
    else None
  }

  function HexPairs(hex: string): Option<seq<Byte>>
    requires |hex| % 2 == 0
  {
    if hex == "" then Some([])
    else
      var rest := HexPairs(hex[2..]);
      var high, low := HexValue(hex[0]), HexValue(hex[1]);
      if high.None? || low.None? || rest.None? then None
      else Some([high.value * 16 + low.value] + rest.value)
  }

  /** An even number of hexadecimal digits, and at least one pair. */
  function HexToBytes(hex: string): Option<seq<Byte>> {
    if hex == "" || |hex| % 2 != 0 then None else HexPairs(hex)
  }

  function PadStart(s: string, size: nat): string
    decreases size - |s|
  {
    if |s| >= size then s else PadStart("0" + s, size)
  }

  /** What a command asks for; `raw` is written after a password, masked, or as it is without one. */
  datatype CommandConfig = CommandConfig(control: Byte, identifier: seq<Byte>, raw: seq<Byte>, requiresPassword: bool)

  const PASSWORD: seq<Byte> := [0, 0, 0, 0]

  /** The remainder with the sign of the dividend. */
  function Remainder(a: int, b: int): int
    requires b > 0
  {
    if a >= 0 then a % b else -((-a) % b)
  }

  function FullYear(year: int): int {
    if year < 100 then 2000 + year else year
  }

  lemma HundredsDoNotMatter(n: int, hundreds: int)
    ensures (n + 100 * hundreds) % 100 == n % 100
  {
    assert n + 100 * hundreds == 100 * (n / 100 + hundreds) + n % 100;
  }

  /** The two digits that are written are the year's own, unless it is a negative full year that has others. */
  lemma YearDigits(year: int)
    ensures 0 <= Remainder(FullYear(year), 100) <==> -2000 <= year || year % 100 == 0
    ensures 0 <= Remainder(FullYear(year), 100) ==> Remainder(FullYear(year), 100) == year % 100
  {
    var full := FullYear(year);
    if year < 100 {
      HundredsDoNotMatter(year, 20);
    }
    if full < 0 {
      assert full == 100 * (full / 100) + full % 100;
      assert -full == 100 * (-full / 100) + (-full) % 100;
    }
  }

  /** Year, month, day and weekday as packed decimals, in that order. */
  function EncodeDateBytes(d: DatePayload): Option<seq<Byte>> {
    var year, month := ToBcd(Remainder(FullYear(d.year), 100)), ToBcd(d.month);
    var day, weekday := ToBcd(d.day), ToBcd(d.weekday);
    if year.None? || month.None? || day.None? || weekday.None? then None
    else Some([year.value, month.value, day.value, weekday.value])
  }

  /** A missing second is zero. */
  function SecondOf(t: TimePayload): int {
    if t.second.Some? then t.second.value else 0
  }

  function EncodeTimeBytes(t: TimePayload): Option<seq<Byte>> {
    var hour, minute := ToBcd(t.hour), ToBcd(t.minute);
    var second := ToBcd(SecondOf(t));
    if hour.None? || minute.None? || second.None? then None else Some([hour.value, minute.value, second.value])
  }

  function PhaseIndex(phase: Phase): Byte {
    match phase
    case PhaseA => 0
    case PhaseB => 1
    case PhaseC => 2
  }

  function Reading(identifier: seq<Byte>): Option<CommandConfig> {
    Some(CommandConfig(0x01, identifier, [], false))
  }

  function ConfigOf(command: Command): Option<CommandConfig> {
    match command
    case Token(token) =>
      var bytes := if token.Some? then HexToBytes(token.value) else None;
      if bytes.None? then None else Some(CommandConfig(0x00, [0xa1, 0x20], Reverse(MaskAll(bytes.value)), false))
    case TurnOn => Some(CommandConfig(0x04, [0xc0, 0x3d], [0x96], true))
    case TurnOff => Some(CommandConfig(0x04, [0xc0, 0x3c], [0x35], true))
    case SetDate(date) =>
      var raw := if date.Some? then EncodeDateBytes(date.value) else None;
      if raw.None? then None else Some(CommandConfig(0x04, [0xc0, 0x10], raw.value, true))
    case SetTime(time) =>
      var raw := if time.Some? then EncodeTimeBytes(time.value) else None;
      if raw.None? then None else Some(CommandConfig(0x04, [0xc0, 0x11], raw.value, true))
    case ReadCredit => Reading([0xe4, 0x21])
    case ReadDate => Reading([0xc0, 0x10])
    case ReadTime => Reading([0xc0, 0x11])
    case ReadVoltage(phase) => Reading([0xb6, 0x11 + PhaseIndex(phase)])
    case ReadPower(phase) => Reading([0xb6, 0x30 + PhaseIndex(phase)])
    case ReadCurrent(phase) => Reading([0xb6, 0x21 + PhaseIndex(phase)])
    case ReadPowerLimit => None
    case Unsupported => None
  }

  const DLMS_READ_POWER_LIMIT: seq<nat> := [
    0x00, 0x01, 0x00, 0x66, 0x00, 0x01, 0x00, 0x0D, 0xC0, 0x01, 0xC1, 0x00,
    0x47, 0x00, 0x00, 0x11, 0x00, 0x00, 0xFF, 0x03, 0x00
  ]

  /** The data area on the wire. */
  function Written(config: CommandConfig): seq<Byte> {
    if config.requiresPassword then Reverse(MaskAll(PASSWORD)) + Reverse(MaskAll(config.raw)) else config.raw
  }

  /** The numbers the encoder lists; the size entry is a byte only while the data area is at most 253 bytes. */
  function FrameNumbers(address: seq<Byte>, config: CommandConfig): seq<nat> {
    var written := Written(config);
    var body: seq<nat> := [HEADER_BYTE] + Reverse(address) + [HEADER_BYTE, config.control, 2 + |written|]
                          + Reverse(MaskAll(config.identifier)) + written;
    body + [Checksum(body), END_BYTE]
  }

  function AddressOf(deviceIdentifier: string): Option<seq<Byte>> {
    var bytes := HexToBytes(PadStart(deviceIdentifier, 12));
    if bytes.None? || |bytes.value| != 6 then None else bytes
  }

  function Encode(deviceIdentifier: string, command: Command): Option<seq<nat>> {
    if command.ReadPowerLimit? then Some(DLMS_READ_POWER_LIMIT)
    else
      var address := AddressOf(deviceIdentifier);
      var config := ConfigOf(command);
      if address.None? || config.None? then None else Some(FrameNumbers(address.value, config.value))
  }

  /** What a command's frame carries, in the sender's order: the written data and then the password. */
  function Carried(command: Command): seq<Byte>
    requires ConfigOf(command).Some?
  {
    match command
    case Token(token) => HexToBytes(token.value).value
    case _ =>
      var config := ConfigOf(command).value;
      if config.requiresPassword then config.raw + PASSWORD else []
  }

  lemma IdentifiersAreTwoBytes(command: Command)
    requires ConfigOf(command).Some?
    ensures |ConfigOf(command).value.identifier| == 2
    ensures |Written(ConfigOf(command).value)| == |Carried(command)|
  {
  }

  lemma WrittenCarries(command: Command)
    requires ConfigOf(command).Some?
    ensures Written(ConfigOf(command).value) == Reverse(MaskAll(Carried(command)))
  {
    var config := ConfigOf(command).value;
    if config.requiresPassword {
      var all := config.raw + PASSWORD;
      assert Reverse(MaskAll(all)) == Reverse(MaskAll(PASSWORD)) + Reverse(MaskAll(config.raw));
    }
  }

  lemma NumbersAreBuilt(address: seq<Byte>, config: CommandConfig)
    requires |Written(config)| <= 253
    ensures FrameNumbers(address, config) == Build(address, config.control, config.identifier, Written(config))
  {
  }

  /**
   * Frame round trip: every command but the DLMS one, for every address and for data of up to 253 bytes, encodes to a
   * frame that passes every check of the decoder, is 12 bytes longer than its size byte says, and reads back as the
   * address, control code, data identifier and data the command carries.
   */
  lemma EncodedFrameReadsBack(deviceIdentifier: string, command: Command)
    requires !command.ReadPowerLimit? && ConfigOf(command).Some? && AddressOf(deviceIdentifier).Some?
    requires |Carried(command)| <= 253
    ensures var config := ConfigOf(command).value; var address := AddressOf(deviceIdentifier).value;
      var bytes := Build(address, config.control, config.identifier, Written(config));
      && Encode(deviceIdentifier, command) == Some(bytes)
      && |bytes| == 12 + (bytes[9] as int) && HeadersMatch(bytes) && ChecksumMatches(bytes) && LengthSuffices(bytes)
      && Read(bytes) == Some(Frame(address, config.control, config.identifier, Carried(command)))
  {
    var config := ConfigOf(command).value;
    var address := AddressOf(deviceIdentifier).value;
    IdentifiersAreTwoBytes(command);
    WrittenCarries(command);
    NumbersAreBuilt(address, config);
    BuildShape(address, config.control, config.identifier, Written(config));
    ReadBuilt(Frame(address, config.control, config.identifier, Carried(command)));
  }

  lemma NumbersShape(address: seq<Byte>, config: CommandConfig)
    requires |address| == 6 && |config.identifier| == 2
    ensures var numbers := FrameNumbers(address, config);
      |numbers| == 14 + |Written(config)| && numbers[9] == 2 + |Written(config)|
  {
  }

  /** A longer token still encodes, but its size entry is then no byte. */
  lemma SizeEntryIsByteIff(deviceIdentifier: string, command: Command)
    requires !command.ReadPowerLimit? && ConfigOf(command).Some? && AddressOf(deviceIdentifier).Some?
    ensures Encode(deviceIdentifier, command).Some?
      && |Encode(deviceIdentifier, command).value| == 14 + |Carried(command)|
    ensures Encode(deviceIdentifier, command).value[9] < 256 <==> |Carried(command)| <= 253
  {
    IdentifiersAreTwoBytes(command);
    NumbersShape(AddressOf(deviceIdentifier).value, ConfigOf(command).value);
  }

  /** Two dates the meter cannot tell apart: it is sent two digits of the year. */
  predicate SameDate(a: DatePayload, b: DatePayload) {
    && Remainder(FullYear(a.year), 100) == Remainder(FullYear(b.year), 100)
    && a.month == b.month && a.day == b.day && a.weekday == b.weekday
  }

  predicate SameTime(a: TimePayload, b: TimePayload) {
    a.hour == b.hour && a.minute == b.minute && SecondOf(a) == SecondOf(b)
  }

  /** Two commands that ask for the same thing: the same command, about the same token bytes, date or time. */
  predicate SameRequest(a: Command, b: Command) {
    if a.Token? && b.Token? then
      a.token.Some? && b.token.Some? && HexToBytes(a.token.value) == HexToBytes(b.token.value)
    else if a.SetDate? && b.SetDate? then a.date.Some? && b.date.Some? && SameDate(a.date.value, b.date.value)
    else if a.SetTime? && b.SetTime? then a.time.Some? && b.time.Some? && SameTime(a.time.value, b.time.value)
    else a == b
  }

  lemma PackingIsInjective(a: int, b: int)
    requires ToBcd(a).Some? && ToBcd(b).Some?
    ensures ToBcd(a) == ToBcd(b) <==> a == b
  {
    ToBcdPacks(a);
    ToBcdPacks(b);
  }

  lemma SameRawSameDate(a: DatePayload, b: DatePayload)
    requires EncodeDateBytes(a).Some? && EncodeDateBytes(a) == EncodeDateBytes(b)
    ensures SameDate(a, b)
  {
    var x, y := EncodeDateBytes(a).value, EncodeDateBytes(b).value;
    assert x[0] == y[0] && x[1] == y[1] && x[2] == y[2] && x[3] == y[3];
    PackingIsInjective(Remainder(FullYear(a.year), 100), Remainder(FullYear(b.year), 100));
    PackingIsInjective(a.month, b.month);
    PackingIsInjective(a.day, b.day);
    PackingIsInjective(a.weekday, b.weekday);
  }

  lemma SameRawSameTime(a: TimePayload, b: TimePayload)
    requires EncodeTimeBytes(a).Some? && EncodeTimeBytes(a) == EncodeTimeBytes(b)
    ensures SameTime(a, b)
  {
    var x, y := EncodeTimeBytes(a).value, EncodeTimeBytes(b).value;
    assert x[0] == y[0] && x[1] == y[1] && x[2] == y[2];
    PackingIsInjective(a.hour, b.hour);
    PackingIsInjective(a.minute, b.minute);
    PackingIsInjective(SecondOf(a), SecondOf(b));
  }

  lemma SameCarriedSameRaw(a: Command, b: Command)
    requires ConfigOf(a).Some? && ConfigOf(b).Some? && Carried(a) == Carried(b)
    requires ConfigOf(a).value.requiresPassword && ConfigOf(b).value.requiresPassword
    ensures ConfigOf(a).value.raw == ConfigOf(b).value.raw
  {
    var x, y := ConfigOf(a).value.raw, ConfigOf(b).value.raw;
    assert x == (x + PASSWORD)[..|x|] && y == (y + PASSWORD)[..|y|];
  }

  lemma ConfigsDiffer(a: Command, b: Command)
    requires ConfigOf(a).Some? && ConfigOf(b).Some?
    requires ConfigOf(a).value.control == ConfigOf(b).value.control
    requires ConfigOf(a).value.identifier == ConfigOf(b).value.identifier && Carried(a) == Carried(b)
    ensures SameRequest(a, b)
  {
    if a.SetDate? {
      SameCarriedSameRaw(a, b);
      SameRawSameDate(a.date.value, b.date.value);
    } else if a.SetTime? {
      SameCarriedSameRaw(a, b);
      SameRawSameTime(a.time.value, b.time.value);
    }
  }

  lemma FrameDetermines(meterA: string, a: Command, meterB: string, b: Command)
    requires !a.ReadPowerLimit? && !b.ReadPowerLimit? && ConfigOf(a).Some? && ConfigOf(b).Some?
    requires AddressOf(meterA).Some? && AddressOf(meterB).Some? && |Carried(a)| <= 253 && |Carried(b)| <= 253
    requires Encode(meterA, a) == Encode(meterB, b)
    ensures AddressOf(meterA) == AddressOf(meterB) && Carried(a) == Carried(b)
    ensures ConfigOf(a).value.control == ConfigOf(b).value.control
    ensures ConfigOf(a).value.identifier == ConfigOf(b).value.identifier
  {
    EncodedFrameReadsBack(meterA, a);
    EncodedFrameReadsBack(meterB, b);
  }

  lemma SameRequestSameConfig(a: Command, b: Command)
    requires ConfigOf(a).Some? && ConfigOf(b).Some? && SameRequest(a, b)
    ensures ConfigOf(a) == ConfigOf(b)
  {
  }

  /** Two requests encode to the same frame exactly when they ask the same meter for the same thing. */
  lemma FrameMeansOneRequest(meterA: string, a: Command, meterB: string, b: Command)
    requires !a.ReadPowerLimit? && !b.ReadPowerLimit? && ConfigOf(a).Some? && ConfigOf(b).Some?
    requires AddressOf(meterA).Some? && AddressOf(meterB).Some? && |Carried(a)| <= 253 && |Carried(b)| <= 253
    ensures Encode(meterA, a) == Encode(meterB, b) <==> AddressOf(meterA) == AddressOf(meterB) && SameRequest(a, b)
  {
    if Encode(meterA, a) == Encode(meterB, b) {
      FrameDetermines(meterA, a, meterB, b);
      ConfigsDiffer(a, b);
    } else if SameRequest(a, b) {
      SameRequestSameConfig(a, b);
    }
  }
}
