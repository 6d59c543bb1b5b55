/** Decoding CALIN uplinks, and what the decoder accepts. */
module CalinDecoder {
  import opened Domain
  import opened CalinFrame
  import opened CalinNumbers
  import opened Texts
  import opened CalinCodec

  datatype Operation = ReadingOk | ReadingFailed | WritingOk | WritingFailed | TokenOk | TokenFailed

  function OperationOf(control: Byte): Option<Operation> {
    match control
    case 0x81 => Some(ReadingOk)
    case 0xC1 => Some(ReadingFailed)
    case 0x84 => Some(WritingOk)
    case 0xC4 => Some(WritingFailed)
    case 0x80 => Some(TokenOk)
    case 0xC0 => Some(TokenFailed)
    case _ => None
  }

  /** The fields of a readout; packed numbers are given before their division by ten or a hundred. */
  datatype Data =
    | PowerLimit(watts: nat)
    | TokenAccepted(accepted: bool)
    | ToggleAccepted(accepted: bool)
    | Voltage(hundredths: Option<nat>, phase: Phase)
    | Power(tenths: Option<nat>, phase: Phase)
    | Current(hundredths: Option<nat>, phase: Phase)
    | Credit(hundredths: Option<nat>, level: Option<Byte>, isOn: bool)
    | Date(day: string, month: string, year: string)
    | Time(hour: string, minute: string, second: string)
    | Report

  datatype Decoded = Decoded(succeeded: bool, data: Data, isReport: bool)

  function ByteAt(bytes: seq<Byte>, i: nat): Option<Byte> {
    if i < |bytes| then Some(bytes[i]) else None
  }

  /** The two-digit text of a date or time byte; a byte beyond the frame prints the end of "NaN". */
  function DateTimeText(b: Option<Byte>): string {
    if b.Some? then HexText(Unmask(b.value)) else "aN"
  }

  function BigEndian(bytes: seq<Byte>): nat {
    if bytes == [] then 0 else BigEndian(bytes[..|bytes| - 1]) * 256 + bytes[|bytes| - 1]
  }

  function Packed(bytes: seq<Byte>, from: nat, to: nat): Option<nat>
    requires from <= to
  {
    BcdToInteger(UnmaskAll(Slice(bytes, from, to)))
  }

  function IdentifierOf(bytes: seq<Byte>): int {
    ReverseAndCombine(Slice(bytes, 10, 12))
  }

  /** The readout of each known data identifier. */
  function Readout(identifier: int, bytes: seq<Byte>): Option<Data> {
    match identifier
    case 0xB611 => Some(Voltage(Packed(bytes, 13, 16), PhaseA))
    case 0xB612 => Some(Voltage(Packed(bytes, 13, 16), PhaseB))
    case 0xB613 => Some(Voltage(Packed(bytes, 13, 16), PhaseC))
    case 0xB630 => Some(Power(Packed(bytes, 12, 16), PhaseA))
    case 0xB631 => Some(Power(Packed(bytes, 12, 16), PhaseB))
    case 0xB632 => Some(Power(Packed(bytes, 12, 16), PhaseC))
    case 0xB621 => Some(Current(Packed(bytes, 12, 14), PhaseA))
    case 0xB622 => Some(Current(Packed(bytes, 12, 14), PhaseB))
    case 0xB623 => Some(Current(Packed(bytes, 12, 14), PhaseC))
    case 0xE421 =>
      var level, relay := ByteAt(bytes, 16), ByteAt(bytes, 17);
      Some(Credit(Packed(bytes, 12, 16), if level.Some? then Some(Unmask(level.value)) else None,
                  relay.Some? && Unmask(relay.value) == 0))
    case 0xC111 => Some(Report)
    case 0xC010 =>
      Some(Date(DateTimeText(ByteAt(bytes, 13)), DateTimeText(ByteAt(bytes, 14)),
        "20" + DateTimeText(ByteAt(bytes, 15))))
    case 0xC011 =>
      Some(Time(DateTimeText(ByteAt(bytes, 14)), DateTimeText(ByteAt(bytes, 13)), DateTimeText(ByteAt(bytes, 12))))
    case _ => None
  }

  function Decode(bytes: seq<Byte>): Option<Decoded> {
    if |bytes| > 0 && bytes[0] == 0 then
      Some(Decoded(true, PowerLimit(BigEndian(if |bytes| > 4 then bytes[|bytes| - 4..] else bytes)), false))
    else if !HeadersMatch(bytes) then None
    else
      var operation := OperationOf(bytes[8]);
      if operation.None? || !ChecksumMatches(bytes) then None
      else match operation.value
        case TokenOk => Some(Decoded(true, TokenAccepted(true), false))
        case TokenFailed => Some(Decoded(false, TokenAccepted(false), false))
        case WritingOk => Some(Decoded(true, ToggleAccepted(true), false))
        case WritingFailed => Some(Decoded(false, ToggleAccepted(false), false))
        case _ => DecodeReading(bytes, operation.value == ReadingOk)
  }

  function DecodeReading(bytes: seq<Byte>, succeeded: bool): Option<Decoded>
    requires |bytes| >= 9
  {
    var data := Readout(IdentifierOf(bytes), bytes);
    if data.None? then None
    else if |bytes| < 10 || !LengthSuffices(bytes) then None
    else Some(Decoded(succeeded || data.value.Report?, data.value, data.value.Report?))
  }

  /**
   * Corruption is detected: changing any one byte of an accepted frame, of any length, makes decoding fail, except for
   * turning the first header byte into zero, which selects the DLMS path.
   */
  lemma CorruptionRejectedIff(bytes: seq<Byte>, i: nat, v: Byte)
    requires Decode(bytes).Some? && bytes[0] != 0 && i < |bytes| && v != bytes[i]
    ensures Decode(bytes[i := v]).None? <==> !(i == 0 && v == 0)
  {
    var changed := bytes[i := v];
    if i < |bytes| - 1 {
      ChangeBreaksChecksum(bytes, i, v);
    }
  }

  lemma IdentifierRead(address: seq<Byte>, control: Byte, identifier: seq<Byte>, written: seq<Byte>)
    requires |address| == 6 && |identifier| == 2 && |written| <= 253
    ensures IdentifierOf(Build(address, control, identifier, written)) == (identifier[0] as int) * 256 + identifier[1]
  {
    var bytes := Build(address, control, identifier, written);
    BuildShape(address, control, identifier, written);
    var field := bytes[10..12];
    assert Slice(bytes, 10, 12) == field;
    CombineIsLittleEndian(field);
    LittleEndianOf(UnmaskAll(field));
    UnmaskMask(identifier[0]);
    UnmaskMask(identifier[1]);
    assert UnmaskAll(field) == [identifier[1], identifier[0]];
  }

  /** The data identifiers the decoder knows. */
  const KNOWN_IDENTIFIERS := {
    0xB611, 0xB612, 0xB613, 0xB630, 0xB631, 0xB632, 0xB621, 0xB622, 0xB623, 0xE421, 0xC111, 0xC010, 0xC011
  }

  /** A device's answer, framed like any command, is decoded exactly when its codes are known. */
  lemma AnswerDecodedIff(address: seq<Byte>, control: Byte, identifier: seq<Byte>, written: seq<Byte>)
    requires |address| == 6 && |identifier| == 2 && |written| <= 253
    ensures Decode(Build(address, control, identifier, written)).Some? <==>
      || control in {0x80, 0xC0, 0x84, 0xC4}
      || (control in {0x81, 0xC1} && (identifier[0] as int) * 256 + identifier[1] in KNOWN_IDENTIFIERS)
  {
    BuildShape(address, control, identifier, written);
    IdentifierRead(address, control, identifier, written);
  }

  /**
   * What the decoder accepts, of any bytes whatever: the DLMS path, or a frame with its two headers, its end byte and
   * its checksum whose control code is known, and, for a reading, whose identifier is known and whose declared size
   * fits.
   */
  lemma AcceptedIff(bytes: seq<Byte>)
    ensures Decode(bytes).Some? <==>
      || (bytes != [] && bytes[0] == 0)
      || (&& |bytes| > 8 && bytes[0] == 0x68 && bytes[7] == 0x68 && bytes[|bytes| - 1] == 0x16
          && Sum(bytes[..|bytes| - 2]) % 256 == bytes[|bytes| - 2]
          && (|| bytes[8] in {0x80, 0xC0, 0x84, 0xC4}
              || (&& bytes[8] in {0x81, 0xC1} && |bytes| > 9 && |bytes| >= 12 + (bytes[9] as int)
                  && LittleEndian(UnmaskAll(bytes[10..12])) in KNOWN_IDENTIFIERS)))
  {
    if |bytes| >= 12 {
      assert Slice(bytes, 10, 12) == bytes[10..12];
      CombineIsLittleEndian(bytes[10..12]);
      TwoBytesAreSmall(UnmaskAll(bytes[10..12]));
    }
  }

  lemma TwoBytesAreSmall(bytes: seq<Byte>)
    requires |bytes| == 2
    ensures LittleEndian(bytes) < 65536
  {
    LittleEndianOf(bytes);
  }

  /**
   * Success and failure by control code: a token or a written command is reported accepted or not, a reading succeeds
   * or not, except that a periodic report, and nothing else, always counts as a success and as unasked for.
   */
  lemma SuccessByControl(address: seq<Byte>, control: Byte, identifier: seq<Byte>, written: seq<Byte>)
    requires |address| == 6 && |identifier| == 2 && |written| <= 253
    ensures var decoded := Decode(Build(address, control, identifier, written));
      && (control == 0x80 ==> decoded == Some(Decoded(true, TokenAccepted(true), false)))
      && (control == 0xC0 ==> decoded == Some(Decoded(false, TokenAccepted(false), false)))
      && (control == 0x84 ==> decoded == Some(Decoded(true, ToggleAccepted(true), false)))
      && (control == 0xC4 ==> decoded == Some(Decoded(false, ToggleAccepted(false), false)))
      && (decoded.Some? && control in {0x81, 0xC1} ==>
            && (decoded.value.isReport <==> identifier == [0xC1, 0x11])
            && (decoded.value.succeeded <==> control == 0x81 || decoded.value.isReport))
  {
    BuildShape(address, control, identifier, written);
    IdentifierRead(address, control, identifier, written);
    if identifier == [0xC1, 0x11] {
      assert (identifier[0] as int) * 256 + identifier[1] == 0xC111;
    } else {
      assert identifier[0] != 0xC1 || identifier[1] != 0x11;
    }
  }

  /** A successful reading yields the readout of its identifier. */
  lemma ReadingDecodes(address: seq<Byte>, identifier: seq<Byte>, written: seq<Byte>)
    requires |address| == 6 && |identifier| == 2 && |written| <= 253
    ensures var bytes := Build(address, 0x81, identifier, written);
      var data := Readout((identifier[0] as int) * 256 + identifier[1], bytes);
      Decode(bytes) == if data.Some? then Some(Decoded(true, data.value, data.value.Report?)) else None
  {
    BuildShape(address, 0x81, identifier, written);
    IdentifierRead(address, 0x81, identifier, written);
  }

  /** The kind of readout, and the phase, that a reading command asks for. */
  predicate Answers(data: Data, command: Command) {
    match command
    case ReadVoltage(phase) => data.Voltage? && data.phase == phase
    case ReadPower(phase) => data.Power? && data.phase == phase
    case ReadCurrent(phase) => data.Current? && data.phase == phase
    case ReadCredit => data.Credit?
    case ReadDate => data.Date?
    case ReadTime => data.Time?
    case _ => false
  }

  /**
   * A successful answer under the identifier a reading command sent is decoded as the kind and phase the command asked
   * for, and as no other command's.
   */
  lemma AnswerIsToCommand(address: seq<Byte>, command: Command, other: Command, written: seq<Byte>)
    requires |address| == 6 && |written| <= 253
    requires ConfigOf(command).Some? && ConfigOf(command).value.control == 0x01
    ensures |ConfigOf(command).value.identifier| == 2
    ensures var answer := Decode(Build(address, 0x81, ConfigOf(command).value.identifier, written));
      && answer.Some? && answer.value.succeeded
      && (Answers(answer.value.data, other) <==> other == command)
  {
    ReadingDecodes(address, ConfigOf(command).value.identifier, written);
  }

  lemma FieldBytes(address: seq<Byte>, control: Byte, identifier: seq<Byte>, written: seq<Byte>, k: nat)
    requires |address| == 6 && |identifier| == 2 && |written| <= 253 && k < |written|
    ensures ByteAt(Build(address, control, identifier, written), 12 + k) == Some(written[k])
  {
    BuildShape(address, control, identifier, written);
    var bytes := Build(address, control, identifier, written);
    assert bytes[12 + k] == bytes[12..|bytes| - 2][k];
  }

  lemma MaskedTextOfBcd(value: nat)
    requires value < 100
    ensures DateTimeText(Some(Mask(ToBcd(value).value))) == TwoDigits(value)
  {
    UnmaskMask(ToBcd(value).value);
    HexTextOfBcd(value);
  }

  /** The frame that sets a date or time. */
  function SetFrame(address: seq<Byte>, command: Command): seq<Byte>
    requires ConfigOf(command).Some? && (command.SetDate? || command.SetTime?)
  {
    var config := ConfigOf(command).value;
    Build(address, config.control, config.identifier, Written(config))
  }

  /** The bytes of a frame that hold the date or time it sets: after the identifier and the password. */
  function SetField(frame: seq<Byte>): seq<Byte>
    requires |frame| >= 18
  {
    frame[16..|frame| - 2]
  }

  lemma SetFrameField(address: seq<Byte>, command: Command)
    requires |address| == 6 && ConfigOf(command).Some? && (command.SetDate? || command.SetTime?)
    ensures var frame := SetFrame(address, command);
      18 <= |frame| <= 267 && SetField(frame) == Reverse(MaskAll(ConfigOf(command).value.raw))
  {
    var config := ConfigOf(command).value;
    BuildShape(address, config.control, config.identifier, Written(config));
    var frame := SetFrame(address, command);
    assert SetField(frame) == frame[12..|frame| - 2][4..];
  }

  lemma SetFrameIsEncoded(meter: string, command: Command)
    requires AddressOf(meter).Some? && ConfigOf(command).Some? && (command.SetDate? || command.SetTime?)
    ensures Encode(meter, command) == Some(SetFrame(AddressOf(meter).value, command))
  {
    EncodedFrameReadsBack(meter, command);
  }

  /** A meter's answer to the reading of `identifier`, when the field a SET frame wrote is what it holds. */
  function AnswerTo(frame: seq<Byte>, identifier: seq<Byte>): seq<Byte>
    requires 18 <= |frame| <= 267
  {
    Build(Reverse(frame[1..7]), 0x81, identifier, SetField(frame))
  }

  /** The SET frame is what the encoder lists, and the answer to it holds the bytes the request was encoded to. */
  lemma SetIsAnswered(meter: string, command: Command, identifier: seq<Byte>)
    requires AddressOf(meter).Some? && ConfigOf(command).Some? && (command.SetDate? || command.SetTime?)
    ensures var frame := SetFrame(AddressOf(meter).value, command);
      && Encode(meter, command) == Some(frame) && 18 <= |frame| <= 267
      && AnswerTo(frame, identifier)
         == Build(Reverse(frame[1..7]), 0x81, identifier, Reverse(MaskAll(ConfigOf(command).value.raw)))
  {
    SetFrameIsEncoded(meter, command);
    SetFrameField(AddressOf(meter).value, command);
  }

  lemma DateReadout(bytes: seq<Byte>, day: nat, month: nat, year: nat)
    requires day < 100 && month < 100 && year < 100
    requires ByteAt(bytes, 13) == Some(Mask(ToBcd(day).value))
    requires ByteAt(bytes, 14) == Some(Mask(ToBcd(month).value))
    requires ByteAt(bytes, 15) == Some(Mask(ToBcd(year).value))
    ensures Readout(0xC010, bytes) == Some(Date(TwoDigits(day), TwoDigits(month), "20" + TwoDigits(year)))
  {
    MaskedTextOfBcd(day);
    MaskedTextOfBcd(month);
    MaskedTextOfBcd(year);
  }

  /**
   * Date round trip: a SET_DATE request that encodes, answered with the field its frame wrote, reads back as the same
   * day, month and two-digit year.
   */
  lemma DateReadsBack(meter: string, d: DatePayload)
    requires AddressOf(meter).Some? && ConfigOf(SetDate(Some(d))).Some?
    ensures var year := d.year % 100;
      var frame := SetFrame(AddressOf(meter).value, SetDate(Some(d)));
      && 0 <= d.day < 100 && 0 <= d.month < 100 && 0 <= year < 100
      && Encode(meter, SetDate(Some(d))) == Some(frame) && 18 <= |frame| <= 267
      && Decode(AnswerTo(frame, [0xc0, 0x10]))
         == Some(Decoded(true, Date(TwoDigits(d.day), TwoDigits(d.month), "20" + TwoDigits(year)), false))
  {
    var frame := SetFrame(AddressOf(meter).value, SetDate(Some(d)));
    DateEncodes(d);
    SetIsAnswered(meter, SetDate(Some(d)), [0xc0, 0x10]);
    AnswerToDate(Reverse(frame[1..7]), d);
    YearDigits(d.year);
  }

  lemma DateEncodes(d: DatePayload)
    requires ConfigOf(SetDate(Some(d))).Some?
    ensures var year := Remainder(FullYear(d.year), 100);
      && 0 <= d.day < 100 && 0 <= d.month < 100 && 0 <= year < 100 && d.weekday < 100
      && ConfigOf(SetDate(Some(d))).value.raw
         == [ToBcd(year).value, ToBcd(d.month).value, ToBcd(d.day).value, ToBcd(d.weekday).value]
  {
  }

  lemma AnswerToDate(address: seq<Byte>, d: DatePayload)
    requires |address| == 6 && ConfigOf(SetDate(Some(d))).Some?
    ensures var year := Remainder(FullYear(d.year), 100);
      && 0 <= d.day < 100 && 0 <= d.month < 100 && 0 <= year < 100
      && |ConfigOf(SetDate(Some(d))).value.raw| == 4
      && Decode(Build(address, 0x81, [0xc0, 0x10], Reverse(MaskAll(ConfigOf(SetDate(Some(d))).value.raw))))
         == Some(Decoded(true, Date(TwoDigits(d.day), TwoDigits(d.month), "20" + TwoDigits(year)), false))
  {
    DateEncodes(d);
    var raw := ConfigOf(SetDate(Some(d))).value.raw;
    var written := Reverse(MaskAll(raw));
    ReadingDecodes(address, [0xc0, 0x10], written);
    FieldBytes(address, 0x81, [0xc0, 0x10], written, 1);
    FieldBytes(address, 0x81, [0xc0, 0x10], written, 2);
    FieldBytes(address, 0x81, [0xc0, 0x10], written, 3);
    assert written[1] == Mask(raw[2]) && written[2] == Mask(raw[1]) && written[3] == Mask(raw[0]);
    DateReadout(Build(address, 0x81, [0xc0, 0x10], written), d.day, d.month, Remainder(FullYear(d.year), 100));
  }

  lemma ThisCenturyText(rest: nat)
    requires rest < 100
    ensures DecimalText(2000 + rest) == "20" + TwoDigits(rest)
  {
    var a, b := rest / 10, rest % 10;
    TextGrows(2, 0);
    TextGrows(20, a);
    TextGrows(200 + a, b);
    assert 10 * (200 + a) + b == 2000 + rest;
    assert "20" + TwoDigits(rest) == ("20" + [Digit(a)]) + [Digit(b)];
  }

  lemma OtherCenturyText(year: nat, rest: nat)
    requires rest < 100 && year != 2000 + rest
    ensures DecimalText(year) != "20" + TwoDigits(rest)
  {
    ParseDecimal(year);
    CenturyParses(rest);
  }

  lemma CenturyText(year: int)
    requires 0 <= Remainder(year, 100)
    ensures IntegerText(year) == "20" + TwoDigits(Remainder(year, 100)) <==> 2000 <= year <= 2099
  {
    var rest := Remainder(year, 100);
    if 2000 <= year <= 2099 {
      ThisCenturyText(rest);
    } else if year >= 0 {
      OtherCenturyText(year, rest);
    } else {
      assert IntegerText(year)[0] == '-';
    }
  }

  lemma CenturyParses(rest: nat)
    requires rest < 100
    ensures ParseDigits("20" + TwoDigits(rest)) == 2000 + rest
  {
    var text := "20" + TwoDigits(rest);
    assert text[..3] == "20" + [Digit(rest / 10)] && text[..3][..2] == "20" && "20"[..1] == "2" && "2"[..0] == "";
    assert ParseDigits("2") == 2;
    assert ParseDigits("20") == 20;
    assert ParseDigits(text[..3]) == 200 + rest / 10;
  }

  /**
   * Which year reads back: the year an answered SET_DATE request shows is the full year that was set, a two-digit year
   * being one of this century, exactly for the years 2000 to 2099.
   */
  lemma YearReadsBackIff(meter: string, d: DatePayload)
    requires AddressOf(meter).Some? && ConfigOf(SetDate(Some(d))).Some?
    ensures var frame := SetFrame(AddressOf(meter).value, SetDate(Some(d)));
      && Encode(meter, SetDate(Some(d))) == Some(frame) && 18 <= |frame| <= 267
      && var answer := Decode(AnswerTo(frame, [0xc0, 0x10]));
         var year := if d.year < 100 then 2000 + d.year else d.year;
         && answer.Some? && answer.value.data.Date?
         && (answer.value.data.year == IntegerText(year) <==> 2000 <= year <= 2099)
  {
    DateReadsBack(meter, d);
    DateEncodes(d);
    YearDigits(d.year);
    CenturyText(FullYear(d.year));
  }

  lemma TimeReadout(bytes: seq<Byte>, hour: nat, minute: nat, second: nat)
    requires hour < 100 && minute < 100 && second < 100
    requires ByteAt(bytes, 12) == Some(Mask(ToBcd(second).value))
    requires ByteAt(bytes, 13) == Some(Mask(ToBcd(minute).value))
    requires ByteAt(bytes, 14) == Some(Mask(ToBcd(hour).value))
    ensures Readout(0xC011, bytes) == Some(Time(TwoDigits(hour), TwoDigits(minute), TwoDigits(second)))
  {
    MaskedTextOfBcd(hour);
    MaskedTextOfBcd(minute);
    MaskedTextOfBcd(second);
  }

  lemma TimeEncodes(t: TimePayload)
    requires ConfigOf(SetTime(Some(t))).Some?
    ensures 0 <= t.hour < 100 && 0 <= t.minute < 100 && 0 <= SecondOf(t) < 100
    ensures ConfigOf(SetTime(Some(t))).value.raw
      == [ToBcd(t.hour).value, ToBcd(t.minute).value, ToBcd(SecondOf(t)).value]
  {
  }

  lemma AnswerToTime(address: seq<Byte>, t: TimePayload)
    requires |address| == 6 && ConfigOf(SetTime(Some(t))).Some?
    ensures 0 <= t.hour < 100 && 0 <= t.minute < 100 && 0 <= SecondOf(t) < 100
    ensures |ConfigOf(SetTime(Some(t))).value.raw| == 3
    ensures Decode(Build(address, 0x81, [0xc0, 0x11], Reverse(MaskAll(ConfigOf(SetTime(Some(t))).value.raw))))
            == Some(Decoded(true, Time(TwoDigits(t.hour), TwoDigits(t.minute), TwoDigits(SecondOf(t))), false))
  {
    TimeEncodes(t);
    var raw := ConfigOf(SetTime(Some(t))).value.raw;
    var written := Reverse(MaskAll(raw));
    ReadingDecodes(address, [0xc0, 0x11], written);
    FieldBytes(address, 0x81, [0xc0, 0x11], written, 0);
    FieldBytes(address, 0x81, [0xc0, 0x11], written, 1);
    FieldBytes(address, 0x81, [0xc0, 0x11], written, 2);
    assert written[0] == Mask(raw[2]) && written[1] == Mask(raw[1]) && written[2] == Mask(raw[0]);
    TimeReadout(Build(address, 0x81, [0xc0, 0x11], written), t.hour, t.minute, SecondOf(t));
  }

  /**
   * Time round trip: a SET_TIME request that encodes, answered with the field its frame wrote, reads back as the same
   * hour, minute and second; a missing second is written as zero.
   */
  lemma TimeReadsBack(meter: string, t: TimePayload)
    requires AddressOf(meter).Some? && ConfigOf(SetTime(Some(t))).Some?
    ensures var frame := SetFrame(AddressOf(meter).value, SetTime(Some(t)));
      && 0 <= t.hour < 100 && 0 <= t.minute < 100 && 0 <= SecondOf(t) < 100
      && Encode(meter, SetTime(Some(t))) == Some(frame) && 18 <= |frame| <= 267
      && Decode(AnswerTo(frame, [0xc0, 0x11]))
         == Some(Decoded(true, Time(TwoDigits(t.hour), TwoDigits(t.minute), TwoDigits(SecondOf(t))), false))
  {
    var frame := SetFrame(AddressOf(meter).value, SetTime(Some(t)));
    TimeEncodes(t);
    SetIsAnswered(meter, SetTime(Some(t)), [0xc0, 0x11]);
    AnswerToTime(Reverse(frame[1..7]), t);
  }

  /** A credit reading of up to eight digits reads back, whatever the number. */
  lemma CreditReadsBack(address: seq<Byte>, hundredths: nat, level: Byte, relay: Byte)
    requires |address| == 6 && hundredths < PowerOf100(4)
    ensures |PackDecimal(hundredths, 4)| == 4
    ensures var written := MaskAll(PackDecimal(hundredths, 4) + [level, relay]);
      Decode(Build(address, 0x81, [0xe4, 0x21], written))
      == Some(Decoded(true, Credit(Some(hundredths), Some(level), relay == 0), false))
  {
    PackedSum(hundredths, 4);
    var packed := PackDecimal(hundredths, 4);
    var written := MaskAll(packed + [level, relay]);
    var bytes := Build(address, 0x81, [0xe4, 0x21], written);
    ReadingDecodes(address, [0xe4, 0x21], written);
    PackedField(address, packed, [level, relay]);
    ParsePacked(hundredths, 4);
    FieldBytes(address, 0x81, [0xe4, 0x21], written, 4);
    FieldBytes(address, 0x81, [0xe4, 0x21], written, 5);
    UnmaskMask(level);
    UnmaskMask(relay);
  }

  lemma PackedField(address: seq<Byte>, packed: seq<Byte>, more: seq<Byte>)
    requires |address| == 6 && |packed| == 4 && |more| == 2
    ensures var bytes := Build(address, 0x81, [0xe4, 0x21], MaskAll(packed + more));
      UnmaskAll(Slice(bytes, 12, 16)) == packed
  {
    var written := MaskAll(packed + more);
    var bytes := Build(address, 0x81, [0xe4, 0x21], written);
    BuildShape(address, 0x81, [0xe4, 0x21], written);
    assert Slice(bytes, 12, 16) == bytes[12..|bytes| - 2][..4];
    forall i | 0 <= i < 4 ensures UnmaskAll(Slice(bytes, 12, 16))[i] == packed[i] {
      UnmaskMask(packed[i]);
    }
  }

  lemma FieldSlice(address: seq<Byte>, identifier: seq<Byte>, before: seq<Byte>, field: seq<Byte>, after: seq<Byte>)
    requires |address| == 6 && |identifier| == 2 && |before| + |field| + |after| <= 253
    ensures var bytes := Build(address, 0x81, identifier, before + field + after);
      Slice(bytes, 12 + |before|, 12 + |before| + |field|) == field
  {
    var written := before + field + after;
    var bytes := Build(address, 0x81, identifier, written);
    BuildShape(address, 0x81, identifier, written);
    assert bytes[12..|bytes| - 2][|before|..|before| + |field|] == field;
  }

  lemma UnmaskMaskAll(bytes: seq<Byte>)
    ensures UnmaskAll(MaskAll(bytes)) == bytes
  {
    forall i | 0 <= i < |bytes| ensures UnmaskAll(MaskAll(bytes))[i] == bytes[i] {
      UnmaskMask(bytes[i]);
    }
  }

  lemma FieldParses(bytes: seq<Byte>, from: nat, to: nat, packed: seq<Byte>)
    requires from <= to && Slice(bytes, from, to) == MaskAll(packed)
    ensures Packed(bytes, from, to) == BcdToInteger(packed)
  {
    UnmaskMaskAll(packed);
  }

  lemma NumberPacks(n: nat, size: nat)
    requires size >= 1 && n < PowerOf100(size)
    ensures |PackDecimal(n, size)| == size && BcdToInteger(PackDecimal(n, size)) == Some(n)
  {
    PackedSum(n, size);
    ParsePacked(n, size);
  }

  lemma VoltageReadout(bytes: seq<Byte>, phase: Phase)
    ensures Readout(0xb600 + (if phase.PhaseA? then 0x11 else if phase.PhaseB? then 0x12 else 0x13), bytes)
      == Some(Voltage(Packed(bytes, 13, 16), phase))
  {
  }

  lemma VoltageField(address: seq<Byte>, phase: Phase, n: nat, first: Byte, size: nat, more: seq<Byte>)
    requires |address| == 6 && size == 3 && n < PowerOf100(size) && |more| <= 249 - size
    ensures |PackDecimal(n, size)| == size
    ensures var identifier: seq<Byte> := [0xb6, if phase.PhaseA? then 0x11 else if phase.PhaseB? then 0x12 else 0x13];
      Decode(Build(address, 0x81, identifier, [first] + MaskAll(PackDecimal(n, size)) + more))
      == Some(Decoded(true, Voltage(Some(n), phase), false))
  {
    var identifier: seq<Byte> := [0xb6, if phase.PhaseA? then 0x11 else if phase.PhaseB? then 0x12 else 0x13];
    NumberPacks(n, size);
    FieldSlice(address, identifier, [first], MaskAll(PackDecimal(n, size)), more);
    var written := [first] + MaskAll(PackDecimal(n, size)) + more;
    ReadingDecodes(address, identifier, written);
    FieldParses(Build(address, 0x81, identifier, written), 13, 16, PackDecimal(n, size));
    VoltageReadout(Build(address, 0x81, identifier, written), phase);
  }

  /** A voltage of up to six digits reads back in hundredths, from the three bytes after the first. */
  lemma VoltageReadsBack(address: seq<Byte>, phase: Phase, n: nat, first: Byte, more: seq<Byte>)
    requires |address| == 6 && n < PowerOf100(3) && |more| <= 246
    ensures |PackDecimal(n, 3)| == 3
    ensures Decode(Build(address, 0x81, [0xb6, if phase.PhaseA? then 0x11 else if phase.PhaseB? then 0x12 else 0x13],
                         [first] + MaskAll(PackDecimal(n, 3)) + more))
            == Some(Decoded(true, Voltage(Some(n), phase), false))
  {
    VoltageField(address, phase, n, first, 3, more);
  }

  lemma PowerReadout(bytes: seq<Byte>, phase: Phase)
    ensures Readout(0xb600 + (if phase.PhaseA? then 0x30 else if phase.PhaseB? then 0x31 else 0x32), bytes)
      == Some(Power(Packed(bytes, 12, 16), phase))
  {
  }

  lemma PowerField(address: seq<Byte>, phase: Phase, n: nat, size: nat, more: seq<Byte>)
    requires |address| == 6 && size == 4 && n < PowerOf100(size) && |more| <= 249 - size
    ensures |PackDecimal(n, size)| == size
    ensures var identifier: seq<Byte> := [0xb6, if phase.PhaseA? then 0x30 else if phase.PhaseB? then 0x31 else 0x32];
      Decode(Build(address, 0x81, identifier, MaskAll(PackDecimal(n, size)) + more))
      == Some(Decoded(true, Power(Some(n), phase), false))
  {
    var identifier: seq<Byte> := [0xb6, if phase.PhaseA? then 0x30 else if phase.PhaseB? then 0x31 else 0x32];
    NumberPacks(n, size);
    FieldSlice(address, identifier, [], MaskAll(PackDecimal(n, size)), more);
    var written := MaskAll(PackDecimal(n, size)) + more;
    assert written == [] + MaskAll(PackDecimal(n, size)) + more;
    ReadingDecodes(address, identifier, written);
    FieldParses(Build(address, 0x81, identifier, written), 12, 16, PackDecimal(n, size));
    PowerReadout(Build(address, 0x81, identifier, written), phase);
  }

  /** A power of up to eight digits reads back in tenths. */
  lemma PowerReadsBack(address: seq<Byte>, phase: Phase, n: nat, more: seq<Byte>)
    requires |address| == 6 && n < PowerOf100(4) && |more| <= 245
    ensures |PackDecimal(n, 4)| == 4
    ensures Decode(Build(address, 0x81, [0xb6, if phase.PhaseA? then 0x30 else if phase.PhaseB? then 0x31 else 0x32],
                         MaskAll(PackDecimal(n, 4)) + more))
            == Some(Decoded(true, Power(Some(n), phase), false))
  {
    PowerField(address, phase, n, 4, more);
  }

  lemma CurrentReadout(bytes: seq<Byte>, phase: Phase)
    ensures Readout(0xb600 + (if phase.PhaseA? then 0x21 else if phase.PhaseB? then 0x22 else 0x23), bytes)
      == Some(Current(Packed(bytes, 12, 14), phase))
  {
  }

  lemma CurrentField(address: seq<Byte>, phase: Phase, n: nat, size: nat, more: seq<Byte>)
    requires |address| == 6 && size == 2 && n < PowerOf100(size) && |more| <= 249 - size
    ensures |PackDecimal(n, size)| == size
    ensures var identifier: seq<Byte> := [0xb6, if phase.PhaseA? then 0x21 else if phase.PhaseB? then 0x22 else 0x23];
      Decode(Build(address, 0x81, identifier, MaskAll(PackDecimal(n, size)) + more))
      == Some(Decoded(true, Current(Some(n), phase), false))
  {
    var identifier: seq<Byte> := [0xb6, if phase.PhaseA? then 0x21 else if phase.PhaseB? then 0x22 else 0x23];
    NumberPacks(n, size);
    FieldSlice(address, identifier, [], MaskAll(PackDecimal(n, size)), more);
    var written := MaskAll(PackDecimal(n, size)) + more;
    assert written == [] + MaskAll(PackDecimal(n, size)) + more;
    ReadingDecodes(address, identifier, written);
    FieldParses(Build(address, 0x81, identifier, written), 12, 14, PackDecimal(n, size));
    CurrentReadout(Build(address, 0x81, identifier, written), phase);
  }

  /** A current of up to four digits reads back in hundredths. */
  lemma CurrentReadsBack(address: seq<Byte>, phase: Phase, n: nat, more: seq<Byte>)
    requires |address| == 6 && n < PowerOf100(2) && |more| <= 247
    ensures |PackDecimal(n, 2)| == 2
    ensures Decode(Build(address, 0x81, [0xb6, if phase.PhaseA? then 0x21 else if phase.PhaseB? then 0x22 else 0x23],
                         MaskAll(PackDecimal(n, 2)) + more))
            == Some(Decoded(true, Current(Some(n), phase), false))
  {
    CurrentField(address, phase, n, 2, more);
  }

  /** A DLMS reply of five bytes or more reads as the big-endian number of its last four. */
  lemma PowerLimitReadsBack(head: seq<Byte>, a: Byte, b: Byte, c: Byte, d: Byte)
    requires head != [] && head[0] == 0
    ensures Decode(head + [a, b, c, d]) ==
      Some(Decoded(true, PowerLimit((a as int) * 16777216 + (b as int) * 65536 + (c as int) * 256 + d), false))
  {
    var bytes := head + [a, b, c, d];
    var tail := [a, b, c, d];
    assert bytes[|bytes| - 4..] == tail;
    assert tail[..3] == [a, b, c] && tail[..3][..2] == [a, b] && [a, b][..1] == [a] && [a][..0] == [];
    assert BigEndian([a]) == a && BigEndian([a, b]) == (a as int) * 256 + b;
    assert BigEndian(tail[..3]) == ((a as int) * 256 + b) * 256 + c;
  }
}
