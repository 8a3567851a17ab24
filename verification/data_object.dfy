/** The positional response decoders of the client
    (thermotecaeroflowflexismart/data_object.py). Each record is built once
    from the comma-split payload of a reply, field by fixed index; a missing
    field (IndexError) or a field `int` cannot read (ValueError) ends the
    decoding with MalformedPayload. */
module DataObject {
  import opened Wrappers
  import opened Text
  import opened Utils

  /** `data[i]`. */
  function Field(data: seq<string>, i: nat): (r: Result<string>)
    ensures r.Success? <==> i < |data|
    ensures r.Success? ==> r.value == data[i]
  {
    if i < |data| then Success(data[i]) else Failure(MalformedPayload)
  }

  /** `int(data[i])`. */
  function IntField(data: seq<string>, i: nat): (r: Result<int>)
    ensures r.Success? <==> i < |data| && ParseInt(data[i]).Some?
    ensures r.Success? ==> Some(r.value) == ParseInt(data[i])
  {
    if i < |data| then Need(ParseInt(data[i])) else Failure(MalformedPayload)
  }

  /** `f"{a}.{b}.{c}.{d}"`. */
  function Dotted(a: string, b: string, c: string, d: string): string {
    a + "." + b + "." + c + "." + d
  }

  /** A dotted address splits back into the four fields it was built from. */
  lemma DottedSplits(a: string, b: string, c: string, d: string)
    requires '.' !in a && '.' !in b && '.' !in c && '.' !in d
    ensures Split(Dotted(a, b, c, d), '.') == [a, b, c, d]
  {
    SplitPiece(d, '.');
    SplitAfterPiece(c, '.', d);
    SplitAfterPiece(b, '.', c + "." + d);
    assert a + "." + b + "." + c + "." + d == a + "." + (b + "." + (c + "." + d));
    SplitAfterPiece(a, '.', b + "." + (c + "." + d));
  }

  // ------------------------------------------------------------ Temperature

  datatype Temperature = Temperature(currentTemperature: real, targetTemperature: real)

  /** Fields 0 and 1 are the current temperature's "main.second", field 2 the target code. */
  function DecodeTemperature(data: seq<string>): (r: Result<Temperature>)
    ensures r.Success? <==>
      IntField(data, 0).Success? && IntField(data, 1).Success? && IntField(data, 2).Success?
      && IntField(data, 1).value >= 0
    ensures r.Success? ==> IsWhole(2.0 * r.value.targetTemperature)
    ensures r.Success? && IntField(data, 0).value >= 0 ==>
      IntField(data, 0).value as real <= r.value.currentTemperature < IntField(data, 0).value as real + 1.0
    ensures r.Success? ==>
      Some(r.value.currentTemperature) == CreateCurrentTemperature(IntField(data, 0).value, IntField(data, 1).value)
      && r.value.targetTemperature == CalculateTemperatureFromInt(IntField(data, 2).value)
  {
    match (IntField(data, 0), IntField(data, 1), IntField(data, 2))
    case (Success(main), Success(second), Success(target)) =>
      (match CreateCurrentTemperature(main, second)
       case Some(current) => Success(Temperature(current, CalculateTemperatureFromInt(target)))
       case None => Failure(MalformedPayload))
    case _ => Failure(MalformedPayload)
  }

  /** Fields written by `str` of their codes decode through the codec: the reading depends on the codes only. */
  lemma DecodeTemperatureOfCodes(main: int, second: nat, target: int, rest: seq<string>)
    ensures DecodeTemperature([IntToString(main), IntToString(second), IntToString(target)] + rest)
         == Success(Temperature(CreateCurrentTemperature(main, second).value, CalculateTemperatureFromInt(target)))
  {
    ParseIntToString(main);
    ParseIntToString(second);
    ParseIntToString(target);
  }

  /** The reading in the zone temperature test: "18,08,20" is 18.8 now and 20.0 wanted. */
  lemma DecodeTemperatureExample()
    ensures DecodeTemperature(["18", "08", "20"]) == Success(Temperature(18.8, 20.0))
  {
    assert ParseInt("18") == Some(18) by { TwoDigits('1', '8'); }
    assert ParseInt("08") == Some(8) by { TwoDigits('0', '8'); }
    assert ParseInt("20") == Some(20) by { TwoDigits('2', '0'); }
  }

  /** A target code above 128 carries a half degree: "129" is 1.5. */
  lemma DecodeHalfDegreeExample()
    ensures DecodeTemperature(["20", "05", "129"]) == Success(Temperature(20.5, 1.5))
  {
    assert ParseInt("20") == Some(20) by { TwoDigits('2', '0'); }
    assert ParseInt("05") == Some(5) by { TwoDigits('0', '5'); }
    assert ParseInt("129") == Some(129) by { ThreeDigits('1', '2', '9'); }
  }

  /** The value of a two-digit literal. */
  lemma TwoDigits(a: char, b: char)
    requires IsDigit(a) && IsDigit(b)
    ensures DigitsValue([a, b]) == 10 * DigitValue(a) + DigitValue(b)
  {
    assert [a][..0] == [];
    assert DigitsValue([a]) == DigitValue(a);
    assert [a, b][..1] == [a];
    assert DigitsValue([a, b]) == DigitsValue([a]) * 10 + DigitValue(b);
  }

  /** The value of a three-digit literal. */
  lemma ThreeDigits(a: char, b: char, c: char)
    requires IsDigit(a) && IsDigit(b) && IsDigit(c)
    ensures DigitsValue([a, b, c]) == 100 * DigitValue(a) + 10 * DigitValue(b) + DigitValue(c)
  {
    TwoDigits(a, b);
    assert [a, b, c][..2] == [a, b];
  }

  /** The value of a four-digit literal. */
  lemma FourDigits(a: char, b: char, c: char, d: char)
    requires IsDigit(a) && IsDigit(b) && IsDigit(c) && IsDigit(d)
    ensures DigitsValue([a, b, c, d]) == 1000 * DigitValue(a) + 100 * DigitValue(b) + 10 * DigitValue(c) + DigitValue(d)
  {
    assert [a, b, c, d][..3] == [a, b, c];
    ThreeDigits(a, b, c);
  }

  // ------------------------------------------------------------ GatewayData

  datatype GatewayData = GatewayData(firmware: string, installationId: string, idu: string)

  /** Fields 0, 1 and 2, unchanged. */
  function DecodeGatewayData(data: seq<string>): (r: Result<GatewayData>)
    ensures r.Success? <==> |data| >= 3
    ensures r.Success? ==> r.value == GatewayData(data[0], data[1], data[2])
  {
    var firmware :- Field(data, 0);
    var installationId :- Field(data, 1);
    var idu :- Field(data, 2);
    Success(GatewayData(firmware, installationId, idu))
  }

  // ------------------------------------------------------------ GatewayNetworkConfiguration

  datatype GatewayNetworkConfiguration = GatewayNetworkConfiguration(
    ip: string, port: int, gateway: string, subnetMask: string,
    registrationServerIp: string, registrationServerPort: int)
  {
    /** `f"{ip}:{port}"`. */
    function IpWithPort(): (text: string)
      ensures ':' !in ip ==> var parts := Split(text, ':');
        |parts| == 2 && parts[0] == ip && ParseInt(parts[1]) == Some(port)
    {
      HostWithPort(ip, port)
    }

    /** `f"{registration_server_ip}:{registration_server_port}"`. */
    function RegistrationServerIpWithPort(): (text: string)
      ensures ':' !in registrationServerIp ==> var parts := Split(text, ':');
        |parts| == 2 && parts[0] == registrationServerIp && ParseInt(parts[1]) == Some(registrationServerPort)
    {
      HostWithPort(registrationServerIp, registrationServerPort)
    }
  }

  /** "host:port": a colon-free host splits back off, and the rest reads as the port. */
  function HostWithPort(host: string, port: int): (text: string)
    ensures ':' !in host ==> var parts := Split(text, ':');
      |parts| == 2 && parts[0] == host && ParseInt(parts[1]) == Some(port)
  {
    var number := IntToString(port);
    IntToStringChars(port);
    ParseIntToString(port);
    assert ':' !in number;
    SplitPiece(number, ':');
    if ':' !in host then
      SplitAfterPiece(host, ':', number);
      host + ":" + number
    else
      host + ":" + number
  }

  /** Addresses from fields 0-3, 4-7, 8-11 and 28-31; each port is `int` of the TEXT join of
      fields 24 and 25 (32 and 33), so "66","53" is 6653. */
  function DecodeNetworkConfiguration(data: seq<string>): (r: Result<GatewayNetworkConfiguration>)
    ensures r.Success? <==>
      |data| >= 34 && ParseInt(data[24] + data[25]).Some? && ParseInt(data[32] + data[33]).Some?
    ensures r.Success? ==>
      && Some(r.value.port) == ParseInt(data[24] + data[25])
      && Some(r.value.registrationServerPort) == ParseInt(data[32] + data[33])
  {
    if |data| < 34 then Failure(MalformedPayload)
    else
      var port :- Need(ParseInt(data[24] + data[25]));
      var registrationPort :- Need(ParseInt(data[32] + data[33]));
      Success(GatewayNetworkConfiguration(
        Dotted(data[0], data[1], data[2], data[3]), port,
        Dotted(data[4], data[5], data[6], data[7]),
        Dotted(data[8], data[9], data[10], data[11]),
        Dotted(data[28], data[29], data[30], data[31]), registrationPort))
  }

  /** Each port is the two digit fields read as one number, not their sum. */
  lemma NetworkPorts(data: seq<string>)
    requires |data| >= 34
    requires IsDigits(data[24]) && IsDigits(data[25]) && IsDigits(data[32]) && IsDigits(data[33])
    ensures DecodeNetworkConfiguration(data).Success?
    ensures var c := DecodeNetworkConfiguration(data).value;
      && c.port == DigitsValue(data[24]) * Pow10(|data[25]|) + DigitsValue(data[25])
      && c.registrationServerPort == DigitsValue(data[32]) * Pow10(|data[33]|) + DigitsValue(data[33])
  {
    DigitsValueAppend(data[24], data[25]);
    DigitsValueAppend(data[32], data[33]);
    assert IsDigits(data[24] + data[25]);
    assert IsDigits(data[32] + data[33]);
  }

  /** The port is the two digit fields read as one number, not their sum, and each
      address splits back into its four fields. */
  lemma NetworkConfigurationLayout(data: seq<string>)
    requires |data| >= 34
    requires IsDigits(data[24]) && IsDigits(data[25]) && IsDigits(data[32]) && IsDigits(data[33])
    requires forall k :: 0 <= k < |data| ==> '.' !in data[k]
    ensures DecodeNetworkConfiguration(data).Success?
    ensures var c := DecodeNetworkConfiguration(data).value;
      && c.port == DigitsValue(data[24]) * Pow10(|data[25]|) + DigitsValue(data[25])
      && c.registrationServerPort == DigitsValue(data[32]) * Pow10(|data[33]|) + DigitsValue(data[33])
      && Split(c.ip, '.') == data[0..4]
      && Split(c.gateway, '.') == data[4..8]
      && Split(c.subnetMask, '.') == data[8..12]
      && Split(c.registrationServerIp, '.') == data[28..32]
  {
    NetworkPorts(data);
    DottedSplits(data[0], data[1], data[2], data[3]);
    DottedSplits(data[4], data[5], data[6], data[7]);
    DottedSplits(data[8], data[9], data[10], data[11]);
    DottedSplits(data[28], data[29], data[30], data[31]);
    assert data[0..4] == [data[0], data[1], data[2], data[3]];
    assert data[4..8] == [data[4], data[5], data[6], data[7]];
    assert data[8..12] == [data[8], data[9], data[10], data[11]];
    assert data[28..32] == [data[28], data[29], data[30], data[31]];
  }

  /** The payload of the network configuration test. */
  const SampleNetworkFields := ["10", "255", "255", "20", "10", "0", "0", "1", "255", "0", "0", "0",
                                "48", "48", "48", "52", "97", "51", "48", "48", "49", "53", "49", "53",
                                "66", "53", "1", "1", "51", "254", "215", "41", "66", "51"]

  lemma SamplePorts()
    ensures ParseInt("6653") == Some(6653) && ParseInt("6651") == Some(6651)
  {
    FourDigits('6', '6', '5', '3');
    FourDigits('6', '6', '5', '1');
  }

  /** The ports of the network configuration test: the fields "66" and "53" make port 6653,
      not 66 + 53. */
  lemma NetworkConfigurationExample()
    ensures var r := DecodeNetworkConfiguration(SampleNetworkFields);
      && r.Success?
      && r.value.port == 6653
      && r.value.registrationServerPort == 6651
  {
    var data := SampleNetworkFields;
    assert data[24] + data[25] == "6653";
    assert data[32] + data[33] == "6651";
    SamplePorts();
  }

  // ------------------------------------------------------------ GatewayDateTime

  datatype GatewayDateTime = GatewayDateTime(time: string, date: string, ip: string, id: string)

  /** Time from fields 4-6, date from fields 0-2 with the century fixed to 20, ip and id from
      fields 8 and 9, each date and time part padded to two characters. */
  function DecodeGatewayDateTime(data: seq<string>): (r: Result<GatewayDateTime>)
    ensures r.Success? <==> |data| >= 10
    ensures r.Success? ==> r.value.ip == data[8] && r.value.id == data[9]
  {
    if |data| < 10 then Failure(MalformedPayload)
    else
      Success(GatewayDateTime(
        PaddedClock(data[4], data[5], data[6]),
        ZFill(data[0], 2) + "." + ZFill(data[1], 2) + ".20" + ZFill(data[2], 2),
        data[8], data[9]))
  }

  /** A clock part: one or two digits. */
  predicate IsClockPart(s: string) {
    IsDigits(s) && |s| <= 2
  }

  /** Three two-character parts joined by a one-character separator and a second separator:
      each part sits at a fixed position. */
  lemma PartsAt(x: string, s1: string, y: string, s2: string, z: string)
    requires |x| == 2 && |y| == 2 && |z| == 2 && |s1| == 1
    ensures var t := x + s1 + y + s2 + z;
      |t| == 7 + |s2| && t[0..2] == x && t[2..3] == s1 && t[3..5] == y
      && t[5..5 + |s2|] == s2 && t[5 + |s2|..7 + |s2|] == z
  {
  }

  /** A clock part padded to two characters still reads as the number it was. */
  lemma PaddedPart(s: string)
    requires IsClockPart(s)
    ensures |ZFill(s, 2)| == 2 && IsDigits(ZFill(s, 2)) && ParseInt(ZFill(s, 2)) == ParseInt(s)
  {
    ZFillDigits(s, 2);
  }

  /** `f"{h.zfill(2)}:{m.zfill(2)}:{s.zfill(2)}"`, the clock text of the gateway and of a module. */
  function PaddedClock(h: string, m: string, s: string): string {
    ZFill(h, 2) + ":" + ZFill(m, 2) + ":" + ZFill(s, 2)
  }

  /** With one- or two-digit parts the clock text is "HH:MM:SS", each part reading as the number it was. */
  lemma PaddedClockLayout(h: string, m: string, s: string)
    requires IsClockPart(h) && IsClockPart(m) && IsClockPart(s)
    ensures var t := PaddedClock(h, m, s);
      && |t| == 8 && t[2] == ':' && t[5] == ':'
      && IsDigits(t[0..2]) && IsDigits(t[3..5]) && IsDigits(t[6..8])
      && ParseInt(t[0..2]) == ParseInt(h)
      && ParseInt(t[3..5]) == ParseInt(m)
      && ParseInt(t[6..8]) == ParseInt(s)
  {
    var hh, mm, ss := ZFill(h, 2), ZFill(m, 2), ZFill(s, 2);
    PaddedPart(h);
    PaddedPart(m);
    PaddedPart(s);
    PartsAt(hh, ":", mm, ":", ss);
    var t := hh + ":" + mm + ":" + ss;
    assert t[2..3] == ":" && t[5..6] == ":";
  }

  lemma TimeLayout(data: seq<string>)
    requires |data| >= 10
    requires IsClockPart(data[4]) && IsClockPart(data[5]) && IsClockPart(data[6])
    ensures var t := DecodeGatewayDateTime(data).value.time;
      && |t| == 8 && t[2] == ':' && t[5] == ':'
      && IsDigits(t[0..2]) && IsDigits(t[3..5]) && IsDigits(t[6..8])
      && ParseInt(t[0..2]) == ParseInt(data[4])
      && ParseInt(t[3..5]) == ParseInt(data[5])
      && ParseInt(t[6..8]) == ParseInt(data[6])
  {
    PaddedClockLayout(data[4], data[5], data[6]);
  }

  lemma DateLayout(data: seq<string>)
    requires |data| >= 10
    requires IsClockPart(data[0]) && IsClockPart(data[1]) && IsClockPart(data[2])
    ensures var d := DecodeGatewayDateTime(data).value.date;
      && |d| == 10 && d[2] == '.' && d[5] == '.' && d[6..8] == "20"
      && IsDigits(d[0..2]) && IsDigits(d[3..5]) && IsDigits(d[8..10])
      && ParseInt(d[0..2]) == ParseInt(data[0])
      && ParseInt(d[3..5]) == ParseInt(data[1])
      && ParseInt(d[8..10]) == ParseInt(data[2])
  {
    var dd, mm, yy := ZFill(data[0], 2), ZFill(data[1], 2), ZFill(data[2], 2);
    PaddedPart(data[0]);
    PaddedPart(data[1]);
    PaddedPart(data[2]);
    PartsAt(dd, ".", mm, ".20", yy);
    var d := dd + "." + mm + ".20" + yy;
    assert d[2..3] == "." && d[5..8] == ".20";
  }

  /** With one- or two-digit parts, the time is "HH:MM:SS" and the date "DD.MM.20YY" at fixed
      positions, each padded part reading as the number it was given. */
  lemma GatewayDateTimeLayout(data: seq<string>)
    requires |data| >= 10
    requires IsClockPart(data[0]) && IsClockPart(data[1]) && IsClockPart(data[2])
    requires IsClockPart(data[4]) && IsClockPart(data[5]) && IsClockPart(data[6])
    ensures var d := DecodeGatewayDateTime(data).value;
      && |d.time| == 8 && d.time[2] == ':' && d.time[5] == ':'
      && IsDigits(d.time[0..2]) && IsDigits(d.time[3..5]) && IsDigits(d.time[6..8])
      && ParseInt(d.time[0..2]) == ParseInt(data[4])
      && ParseInt(d.time[3..5]) == ParseInt(data[5])
      && ParseInt(d.time[6..8]) == ParseInt(data[6])
      && |d.date| == 10 && d.date[2] == '.' && d.date[5] == '.' && d.date[6..8] == "20"
      && IsDigits(d.date[0..2]) && IsDigits(d.date[3..5]) && IsDigits(d.date[8..10])
      && ParseInt(d.date[0..2]) == ParseInt(data[0])
      && ParseInt(d.date[3..5]) == ParseInt(data[1])
      && ParseInt(d.date[8..10]) == ParseInt(data[2])
  {
    TimeLayout(data);
    DateLayout(data);
  }

  /** Fields 3 (day of week) and 7 play no part in the decoded clock. */
  lemma GatewayDateTimeIgnoresUnusedFields(data: seq<string>, other3: string, other7: string)
    requires |data| >= 10
    ensures DecodeGatewayDateTime(data[3 := other3][7 := other7]) == DecodeGatewayDateTime(data)
  {
  }

  // ------------------------------------------------------------ ModuleData

  datatype ModuleData = ModuleData(
    currentTemperature: real, targetTemperature: real, time: string,
    programing: int, programing2: int, boost: int, temperatureOffset: real,
    smartStart: int, windowOpenDetection: int, language: int,
    id0: string, id1: string, id2: string, id3: string, fwVersion: string)
  {
    /** `f"{programing},{programing2}"`: it splits back into the two numbers. */
    function ProgrammingString(): (text: string)
      ensures var parts := Split(text, ',');
        |parts| == 2 && ParseInt(parts[0]) == Some(programing) && ParseInt(parts[1]) == Some(programing2)
    {
      var first, second := IntToString(programing), IntToString(programing2);
      IntToStringChars(programing);
      IntToStringChars(programing2);
      ParseIntToString(programing);
      ParseIntToString(programing2);
      assert ',' !in first && ',' !in second;
      SplitPiece(second, ',');
      SplitAfterPiece(first, ',', second);
      first + "," + second
    }

    /** Minutes of boost left: the raw value counts eighths of a 5-minute step, rounded half to even. */
    function BoostTimeLeft(): (minutes: int)
      ensures minutes >= 0 && minutes % 5 == 0
      ensures boost <= 0 ==> minutes == 0
      ensures boost > 0 ==> -20 <= 8 * minutes - 5 * boost <= 20
      ensures boost > 0 && boost % 8 == 4 ==> (minutes / 5) % 2 == 0
    {
      if boost > 0 then
        var q := RoundHalfEven(boost, 8);
        assert boost % 8 == 4 ==> 2 * (boost - q * 8) == 8 || 2 * (boost - q * 8) == -8;
        assert (q * 5) / 5 == q;
        q * 5
      else 0
    }

    /** `f"< {minutes} min."`: the number between the marks reads back as the minutes left. */
    function BoostTimeLeftString(): (text: string)
      ensures |text| > 7 && text[..2] == "< " && text[|text| - 5..] == " min."
      ensures ParseInt(text[2..|text| - 5]) == Some(BoostTimeLeft())
    {
      var minutes := IntToString(BoostTimeLeft());
      ParseIntToString(BoostTimeLeft());
      var text := "< " + minutes + " min.";
      assert text[2..|text| - 5] == minutes;
      text
    }

    /** Any positive raw value is an active boost, even one too small to show a minute. */
    function IsBoostActive(): (active: bool)
      ensures active <==> boost > 0
      ensures !active ==> BoostTimeLeft() == 0
    {
      boost > 0
    }

    /** On only for code 1, the code the set command sends; any other code reads as off here. */
    function IsSmartStartEnabled(): (enabled: bool)
      ensures enabled ==> smartStart != 0
    {
      smartStart == 1
    }

    /** On only for code 1, the code the set command sends; any other code reads as off here. */
    function IsWindowOpenDetectionEnabled(): (enabled: bool)
      ensures enabled ==> windowOpenDetection != 0
    {
      windowOpenDetection == 1
    }

    /** "Deutsch" for code 128 and "English" for every other code. */
    function Language(): (name: string)
      ensures name == "Deutsch" <==> language == 128
      ensures name == "English" <==> language != 128
    {
      if language == 128 then "Deutsch" else "English"
    }
  }

  /** Python's `round(n / d)`: the nearest integer, a tie going to the even one. */
  function RoundHalfEven(n: int, d: int): (q: int)
    requires d > 0
    ensures -d <= 2 * (n - q * d) <= d
    ensures 2 * (n - q * d) == d || 2 * (n - q * d) == -d ==> q % 2 == 0
  {
    var q, r := n / d, n % d;
    QuotientSteps(n, d);
    if 2 * r < d then q
    else if 2 * r > d then q + 1
    else if q % 2 == 0 then q
    else q + 1
  }

  /** The remainders left by the quotient and by the quotient plus one. */
  lemma QuotientSteps(n: int, d: int)
    requires d > 0
    ensures n - (n / d) * d == n % d
    ensures n - (n / d + 1) * d == n % d - d
  {
    assert (n / d + 1) * d == (n / d) * d + d;
  }

  /** Multiplying by a positive step is monotone. */
  lemma MultipleBound(k: int, d: int)
    requires d > 0
    ensures k >= 2 ==> k * d >= 2 * d
    ensures k <= -2 ==> k * d <= -2 * d
  {
    assert k * d - 2 * d == (k - 2) * d;
    assert k * d + 2 * d == (k + 2) * d;
    assert k >= 2 ==> (k - 2) * d >= 0;
    assert k <= -2 ==> (k + 2) * d <= 0;
  }

  /** The rounding is forced by its contract: any integer within half a step that breaks ties to even equals it. */
  lemma RoundHalfEvenUnique(n: int, d: int, q: int)
    requires d > 0
    requires -d <= 2 * (n - q * d) <= d
    requires 2 * (n - q * d) == d || 2 * (n - q * d) == -d ==> q % 2 == 0
    ensures q == RoundHalfEven(n, d)
  {
    var p := RoundHalfEven(n, d);
    var e, f := n - q * d, n - p * d;
    assert e - f == (p - q) * d by {
      assert p * d - q * d == (p - q) * d;
    }
    StepsApart(d, p - q, e, f);
  }

  /** Two remainders within half a step of zero that differ by k steps: k is -1, 0 or 1,
      and 1 or -1 only for the two halves of a tie. */
  lemma StepsApart(d: int, k: int, e: int, f: int)
    requires d > 0 && -d <= 2 * e <= d && -d <= 2 * f <= d
    requires e - f == k * d
    ensures -1 <= k <= 1
    ensures k == 1 ==> 2 * e == d && 2 * f == -d
    ensures k == -1 ==> 2 * e == -d && 2 * f == d
  {
    MultipleBound(k, d);
  }

  /** Boost readings: raw 0 is 0 minutes and inactive; the half-to-even rounding sends 4 to 0 and 20 to 10. */
  lemma BoostTimeLeftExamples(m: ModuleData)
    ensures m.(boost := 0).BoostTimeLeft() == 0 && !m.(boost := 0).IsBoostActive()
    ensures m.(boost := 4).BoostTimeLeft() == 0 && m.(boost := 4).IsBoostActive()
    ensures m.(boost := 12).BoostTimeLeft() == 10
    ensures m.(boost := 20).BoostTimeLeft() == 10
    ensures m.(boost := 28).BoostTimeLeft() == 20
    ensures m.(boost := 36).BoostTimeLeft() == 20
  {
  }

  /** Raw 20 is shown as "< 10 min.". */
  lemma BoostTimeLeftStringExample(m: ModuleData)
    requires m.boost == 20
    ensures m.BoostTimeLeftString() == "< 10 min."
  {
    assert m.BoostTimeLeft() == 10;
    assert IntToString(10) == "10" by {
      assert NatToString(10) == NatToString(1) + [DigitChar(0)];
    }
  }

  /** Every field by its index: temperatures 0-2, time 3-5, programming 7-8, boost 9, offset 10,
      smart start 11, window detection 12, language 13, device id 15-18, firmware 19; 6 and 14 are unused. */
  function DecodeModuleData(data: seq<string>): (r: Result<ModuleData>)
    ensures r.Failure? ==> r.error == MalformedPayload
    ensures r.Success? <==>
      && |data| >= 20 && DecodeTemperature(data[..3]).Success?
      && ParseInt(data[7]).Some? && ParseInt(data[8]).Some? && ParseInt(data[9]).Some?
      && ParseInt(data[10]).Some? && ParseInt(data[11]).Some? && ParseInt(data[12]).Some?
      && ParseInt(data[13]).Some?
    ensures r.Success? ==>
      && r.value.currentTemperature == DecodeTemperature(data[..3]).value.currentTemperature
      && r.value.targetTemperature == DecodeTemperature(data[..3]).value.targetTemperature
      && r.value.time == PaddedClock(data[3], data[4], data[5])
      && Some(r.value.programing) == ParseInt(data[7])
      && Some(r.value.programing2) == ParseInt(data[8])
      && Some(r.value.boost) == ParseInt(data[9])
      && r.value.temperatureOffset == CalculateTemperatureOffsetFromInt(ParseInt(data[10]).value)
      && Some(r.value.smartStart) == ParseInt(data[11])
      && Some(r.value.windowOpenDetection) == ParseInt(data[12])
      && Some(r.value.language) == ParseInt(data[13])
      && r.value.id0 == data[15] && r.value.id1 == data[16] && r.value.id2 == data[17]
      && r.value.id3 == data[18] && r.value.fwVersion == data[19]
  {
    if |data| < 20 then Failure(MalformedPayload)
    else
      var temperature :- DecodeTemperature(data[..3]);
      var programing :- IntField(data, 7);
      var programing2 :- IntField(data, 8);
      var boost :- IntField(data, 9);
      var offset :- IntField(data, 10);
      var smartStart :- IntField(data, 11);
      var windowOpenDetection :- IntField(data, 12);
      var language :- IntField(data, 13);
      Success(ModuleData(
        temperature.currentTemperature, temperature.targetTemperature,
        PaddedClock(data[3], data[4], data[5]),
        programing, programing2, boost, CalculateTemperatureOffsetFromInt(offset),
        smartStart, windowOpenDetection, language,
        data[15], data[16], data[17], data[18], data[19]))
  }

  /** With one- or two-digit clock fields the module's time is "HH:MM:SS" from fields 3, 4 and 5. */
  lemma ModuleTimeLayout(data: seq<string>)
    requires DecodeModuleData(data).Success?
    requires IsClockPart(data[3]) && IsClockPart(data[4]) && IsClockPart(data[5])
    ensures var t := DecodeModuleData(data).value.time;
      && |t| == 8 && t[2] == ':' && t[5] == ':'
      && IsDigits(t[0..2]) && IsDigits(t[3..5]) && IsDigits(t[6..8])
      && ParseInt(t[0..2]) == ParseInt(data[3])
      && ParseInt(t[3..5]) == ParseInt(data[4])
      && ParseInt(t[6..8]) == ParseInt(data[5])
  {
    PaddedClockLayout(data[3], data[4], data[5]);
  }

  /** Fields 6 and 14 play no part, and neither does anything after field 19. */
  lemma ModuleDataIgnoresUnusedFields(data: seq<string>, other6: string, other14: string, extra: seq<string>)
    requires |data| >= 20
    ensures DecodeModuleData(data[6 := other6][14 := other14] + extra) == DecodeModuleData(data)
  {
    var d' := data[6 := other6][14 := other14] + extra;
    assert d'[..3] == data[..3];
    assert forall k :: 0 <= k < 20 && k != 6 && k != 14 ==> d'[k] == data[k];
  }

  /** The module data reply of the repository's test, split into its fields. */
  const SampleModuleFields := ["18", "8", "19", "2", "50", "59", "3", "0", "0", "0", "0",
                               "1", "1", "129", "0", "4", "8", "9", "10", "v201106"]

  lemma SampleNumbers()
    ensures ParseInt("0") == Some(0) && ParseInt("1") == Some(1) && ParseInt("8") == Some(8)
    ensures ParseInt("18") == Some(18) && ParseInt("19") == Some(19)
    ensures ParseInt("129") == Some(129)
  {
    TwoDigits('1', '8');
    TwoDigits('1', '9');
    ThreeDigits('1', '2', '9');
  }

  lemma SampleModuleTemperature()
    ensures DecodeTemperature(SampleModuleFields[..3]) == Success(Temperature(18.8, 19.0))
  {
    SampleNumbers();
    assert SampleModuleFields[..3] == ["18", "8", "19"];
  }

  lemma SampleModuleSettings()
    ensures IntField(SampleModuleFields, 7) == Success(0) && IntField(SampleModuleFields, 8) == Success(0)
    ensures IntField(SampleModuleFields, 9) == Success(0) && IntField(SampleModuleFields, 10) == Success(0)
  {
    assert SampleModuleFields[7] == "0" && SampleModuleFields[8] == "0";
    assert SampleModuleFields[9] == "0" && SampleModuleFields[10] == "0";
    SampleNumbers();
  }

  lemma SampleModuleFlags()
    ensures IntField(SampleModuleFields, 11) == Success(1) && IntField(SampleModuleFields, 12) == Success(1)
    ensures IntField(SampleModuleFields, 13) == Success(129)
  {
    assert SampleModuleFields[11] == "1" && SampleModuleFields[12] == "1";
    assert SampleModuleFields[13] == "129";
    SampleNumbers();
  }

  lemma SampleModuleTime()
    ensures ZFill(SampleModuleFields[3], 2) + ":" + ZFill(SampleModuleFields[4], 2) + ":" + ZFill(SampleModuleFields[5], 2)
         == "02:50:59"
  {
    assert ZFill("2", 2) == "02";
    assert ZFill("50", 2) == "50" && ZFill("59", 2) == "59";
    assert "02" + ":" + "50" + ":" + "59" == "02:50:59";
  }

  /** The record that reply decodes to. */
  const SampleModule := ModuleData(18.8, 19.0, "02:50:59", 0, 0, 0, 0.0, 1, 1, 129, "4", "8", "9", "10", "v201106")

  lemma SampleModuleDecodes()
    ensures DecodeModuleData(SampleModuleFields) == Success(SampleModule)
  {
    SampleModuleTemperature();
    SampleModuleSettings();
    SampleModuleFlags();
    SampleModuleTime();
    assert CalculateTemperatureOffsetFromInt(0) == 0.0;
  }

  /** The snapshot of the module data test. */
  lemma ModuleDataExample()
    ensures var r := DecodeModuleData(SampleModuleFields);
      && r.Success?
      && r.value.currentTemperature == 18.8 && r.value.targetTemperature == 19.0
      && r.value.time == "02:50:59"
      && r.value.ProgrammingString() == "0,0"
      && r.value.BoostTimeLeft() == 0 && !r.value.IsBoostActive()
      && r.value.temperatureOffset == 0.0
      && r.value.IsSmartStartEnabled() && r.value.IsWindowOpenDetectionEnabled()
      && r.value.Language() == "English"
      && r.value.fwVersion == "v201106"
  {
    SampleModuleDecodes();
    SampleProgrammingString();
  }

  lemma SampleProgrammingString()
    ensures SampleModule.ProgrammingString() == "0,0"
  {
    assert IntToString(0) == "0";
  }
}
