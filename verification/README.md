# Thermotec AeroFlow FlexiSmart client, modelled in Dafny

This project models the client library for the Thermotec AeroFlow FlexiSmart heating
gateway (`thermotecaeroflowflexismart`). The client talks to the gateway in short text
commands over UDP, such as `OPS3/` for the zone topology or `D#1#1#0#0*?T/` for the
temperature of zone 1. It reads comma-separated replies such as `OPOK,OPS3,1,2,3` or
`OK,18,08,20`. The model covers:

- **`Utils`** (`utils.py`): the numeric codecs on exact reals.
  - Target temperature: codes above 128 carry a half degree.
  - Offset: tenths of a degree in one signed byte.
  - Current temperature: `float(f"{main}.{second}")`.
  - The zone and module guards.
- **`DataObject`** (`data_object.py`): the five decoders.
  - `Temperature`, `GatewayData`, `GatewayNetworkConfiguration`, `GatewayDateTime` and
    `ModuleData`, each from its list of payload fields.
  - The getters that compute: the boost time left with Python's round-half-to-even, the
    language, and the flags.
- **`Protocol`** (`client.py`): every operation of the client as a pure function.
  - Its input is the sequence of replies the gateway gives.
  - Its output is an `Exchange`: the requests sent, in order and with their timeouts, and
    the result or error.
  - It also holds the command builders, reply acceptance, addressing ("D" plus the zone's
    module count, or "R" plus a checked module id), and the date-time command.
- **`Client`** (`client.py`, `communication.py`): the `Client` class as imperative Dafny.
  - The transport is a `Gateway` object holding the requests sent so far and the replies
    still to come. When those run out it answers `UNEXPECTED_ERROR`, as the transport's
    `finally` does.
  - Every method performs its exchange step by step and is proved to send exactly the
    requests, and return exactly the result, that `Protocol` specifies.
  - `IntFields` is the append loop of `get_zones*`, proved against `ParseIntFields`.
- **`Text`**: the Python built-ins the code relies on, with their properties proved.
  - `int()` and `str()` on integers, `float()` on decimal text.
  - `str.replace`, `str.split`, `",".join` and `str.zfill`.
- **`Fixtures`**: the wire fixtures of the repository's tests as whole exchanges.
  - Each gives the replies in, the requests out and the value returned.

Errors are values: `InvalidResponse`, `InvalidRequest` and `InvalidModule` are the
library's exceptions. `ZoneOutOfRange` and `NoZones` are the plain `Exception`s raised by
`check_if_zone_exists`. `MalformedPayload` stands for the `IndexError` or `ValueError`
that Python raises on a short or non-numeric payload.

## Model

| member | source | states |
|---|---|---|
| Utils.Trunc | thermotecaeroflowflexismart/utils.py:12-17 | `int()` of a float truncates toward zero: the result is within one of x, on the side of zero |
| Utils.CalculateTemperatureFromInt | thermotecaeroflowflexismart/utils.py:5-9 | codes up to 128 decode to themselves as whole degrees; codes above 128 decode to (code - 128) + 0.5; every result is a whole number of half degrees |
| Utils.CalculateIntFromTemperature | thermotecaeroflowflexismart/utils.py:12-17 | a whole temperature encodes to itself; any temperature with a fraction encodes to 128 + its truncation: 128 + floor for a positive one, 129 + floor for a negative one (-1.5 → 127) |
| Utils.TemperatureCodeRoundTrip | thermotecaeroflowflexismart/utils.py:5-17 | encode(decode(v)) == v for every integer code |
| Utils.TemperatureHalfStepRoundTrip | thermotecaeroflowflexismart/utils.py:5-17 | decode(encode(t)) == t for whole degrees up to 128 and half degrees from 1.5 up |
| Utils.TemperatureCodecExamples | thermotecaeroflowflexismart/utils.py:5-17 | 128 → 128.0, 129 → 1.5, 20 → 20.0; 22.5 → 150, 21.5 → 149, 21.0 → 21; 0.5 → 128 (the code's one alias) |
| Utils.CalculateTemperatureOffsetFromInt | thermotecaeroflowflexismart/utils.py:21-27 | for a byte the offset is whole tenths in [-12.8, 12.7], negative exactly for codes 128 and up, and its tenths equal the byte modulo 256, so it is the byte read as a signed byte over ten (v/10 below 128, (v-256)/10 from 128) |
| Utils.CalculateIntFromTemperatureOffset | thermotecaeroflowflexismart/utils.py:31-36 | an offset in [-12.8, 12.8) encodes to a byte: a non-negative offset to its tenths truncated toward zero (below 128); one of -0.1 or less to 256 minus its truncated tenths' magnitude (128 and up); one in (-0.1, 0) to 0 |
| Utils.OffsetCodeRoundTrip | thermotecaeroflowflexismart/utils.py:21-36 | encode(decode(v)) == v for every byte v |
| Utils.OffsetRoundTrip | thermotecaeroflowflexismart/utils.py:21-36 | decode(encode(t)) == t for whole tenths in [-12.8, 12.7] |
| Utils.OffsetCodecExamples | thermotecaeroflowflexismart/utils.py:21-36 | 10 → 1.0, 246 → -1.0, 157 → -9.9; 1.5 → 15, -1.0 → 246 |
| Utils.Fraction | thermotecaeroflowflexismart/utils.py:39-40 | the digits of `second` after the decimal point make a fraction in [0, 1) |
| Utils.CreateCurrentTemperature | thermotecaeroflowflexismart/utils.py:39-40 | defined exactly when `second` is non-negative; the result lies within one degree of `main`, away from zero |
| Utils.CurrentTemperatureIsDecimalText | thermotecaeroflowflexismart/utils.py:39-40 | the arithmetic equals reading the text `f"{main}.{second}"` as a decimal, for all integers, negatives included (no text for a negative `second`) |
| Utils.CurrentTemperatureExamples | thermotecaeroflowflexismart/utils.py:39-40 | (18, 8) → 18.8, (20, 5) → 20.5, (14, 12) → 14.12, not m + s/10; (18, -5) → none |
| Utils.CheckIfZoneExists | thermotecaeroflowflexismart/utils.py:43-50 | passes exactly when 1 <= zone <= len(zones); no zones is its own error; otherwise the error carries 1, len and the zone |
| Utils.CheckIfModuleIsValid | thermotecaeroflowflexismart/utils.py:53-57 | raises InvalidModule exactly when module_id > module_count; there is no lower bound |
| DataObject.DecodeTemperature | thermotecaeroflowflexismart/data_object.py:12-14 | succeeds exactly when fields 0-2 are integers and field 1 is non-negative; the current temperature is `create_current_temperature` of `int` of fields 0 and 1, zero-padded text such as "08" included; the target is the target codec of `int` of field 2, so whole half degrees; the current temperature lies within one degree above a non-negative field 0 |
| DataObject.DecodeTemperatureOfCodes | thermotecaeroflowflexismart/data_object.py:12-14 | fields written as `str` of codes decode to `create_current_temperature` of the first two and the target codec of the third |
| DataObject.DecodeTemperatureExample | thermotecaeroflowflexismart/data_object.py:12-14 | "18","08","20" → current 18.8, target 20.0 |
| DataObject.DecodeHalfDegreeExample | thermotecaeroflowflexismart/data_object.py:12-14 | "20","05","129" → current 20.5, target 1.5 |
| DataObject.DecodeGatewayData | thermotecaeroflowflexismart/data_object.py:31-34 | fields 0, 1 and 2 become firmware, installation id and idu unchanged, and a shorter payload fails |
| DataObject.DecodeNetworkConfiguration | thermotecaeroflowflexismart/data_object.py:57-63 | succeeds exactly on 34 fields whose port pairs read as integers; each port is `int` of the text join of fields 24+25 and 32+33 |
| DataObject.NetworkPorts | thermotecaeroflowflexismart/data_object.py:59-63 | with digit fields, each port is the first field shifted by the second's length plus the second: a text join, not a sum |
| DataObject.DottedSplits | thermotecaeroflowflexismart/data_object.py:58-62 | a dotted address of dot-free fields splits back into its four fields |
| DataObject.NetworkConfigurationLayout | thermotecaeroflowflexismart/data_object.py:57-63 | both ports as joined digits; ip, gateway, mask and registration ip split back into fields 0-3, 4-7, 8-11 and 28-31 |
| DataObject.NetworkConfigurationExample | thermotecaeroflowflexismart/data_object.py:57-63 | the test's 34 fields give port 6653 and registration port 6651 |
| DataObject.HostWithPort | thermotecaeroflowflexismart/data_object.py:71-72 | with a colon-free host, "host:port" splits on ":" into exactly the host and a text that reads back as the port |
| DataObject.GatewayNetworkConfiguration.IpWithPort | thermotecaeroflowflexismart/data_object.py:71-72 | `get_ip_with_port`: a colon-free ip splits back off and the rest reads as the port |
| DataObject.GatewayNetworkConfiguration.RegistrationServerIpWithPort | thermotecaeroflowflexismart/data_object.py:86-87 | `get_registration_server_ip_with_port`: a colon-free registration ip splits back off and the rest reads as its port |
| DataObject.DecodeGatewayDateTime | thermotecaeroflowflexismart/data_object.py:101-107 | succeeds exactly on at least 10 fields; ip and id are fields 8 and 9 |
| DataObject.PaddedPart | thermotecaeroflowflexismart/data_object.py:102-104 | `zfill(2)` of a one- or two-digit part is two digits (so padded with a zero) and reads as the same number |
| DataObject.PaddedClockLayout | thermotecaeroflowflexismart/data_object.py:145 | the zfilled clock text of one- or two-digit parts is "HH:MM:SS": 8 characters, colons at 2 and 5, each pair two digits reading as its part |
| DataObject.TimeLayout | thermotecaeroflowflexismart/data_object.py:102 | the time is "HH:MM:SS" from fields 4, 5 and 6, each pair two digits reading as its field |
| DataObject.DateLayout | thermotecaeroflowflexismart/data_object.py:104 | the date is "DD.MM.20YY" from fields 0, 1 and 2, each pair two digits reading as its field |
| DataObject.GatewayDateTimeLayout | thermotecaeroflowflexismart/data_object.py:101-107 | time and date at fixed positions, each padded part two digits reading as its field |
| DataObject.GatewayDateTimeIgnoresUnusedFields | thermotecaeroflowflexismart/data_object.py:101-107 | fields 3 and 7 do not affect the result |
| DataObject.ModuleData.BoostTimeLeft | thermotecaeroflowflexismart/data_object.py:173-180 | a multiple of 5; 0 when raw <= 0; otherwise within half a step of raw·5/8, and on a tie (raw ≡ 4 mod 8) the even step count, as `round()` does; with RoundHalfEvenUnique this fixes the value |
| DataObject.ModuleData.BoostTimeLeftString | thermotecaeroflowflexismart/data_object.py:182-184 | "< " and " min." around a number that reads back as the minutes left |
| DataObject.ModuleData.IsBoostActive | thermotecaeroflowflexismart/data_object.py:186-187 | active exactly when the raw boost is positive ("0 = off, >0 = on"); an inactive boost has 0 minutes left (an active one may also show 0, see the examples) |
| DataObject.ModuleData.IsSmartStartEnabled | thermotecaeroflowflexismart/data_object.py:192-193 | on only for a nonzero code; exactly which codes is stated by Protocol.FlagReadingsAgree |
| DataObject.ModuleData.IsWindowOpenDetectionEnabled | thermotecaeroflowflexismart/data_object.py:195-196 | on only for a nonzero code; exactly which codes is stated by Protocol.FlagReadingsAgree |
| DataObject.ModuleData.ProgrammingString | thermotecaeroflowflexismart/data_object.py:168-171 | splits on "," into exactly two parts that read back as the two programming numbers |
| DataObject.ModuleData.Language | thermotecaeroflowflexismart/data_object.py:198-204 | "Deutsch" exactly for code 128, "English" for every other code |
| DataObject.RoundHalfEven | thermotecaeroflowflexismart/data_object.py:178 | `round(n / d)`: the remainder is within half a step, and a tie goes to the even quotient |
| DataObject.RoundHalfEvenUnique | thermotecaeroflowflexismart/data_object.py:178 | any integer meeting that contract is the rounding: the contract determines it completely |
| DataObject.BoostTimeLeftExamples | thermotecaeroflowflexismart/data_object.py:173-187 | raw 0 → 0 and inactive; 4 → 0 but active; 12 → 10; 20 → 10 (the tie goes down to the even step); 28 → 20; 36 → 20 |
| DataObject.BoostTimeLeftStringExample | thermotecaeroflowflexismart/data_object.py:182-184 | raw 20 is shown as "< 10 min." |
| DataObject.DecodeModuleData | thermotecaeroflowflexismart/data_object.py:142-157 | succeeds exactly when there are 20 fields, fields 0-2 decode as a Temperature and fields 7-13 read as integers, and fails with MalformedPayload otherwise; temperatures from fields 0-2, time as the zfilled fields 3, 4 and 5 joined by ":", programming 7 and 8, boost 9, offset codec on 10, smart start 11, window detection 12, language 13, ids 15-18, firmware 19 |
| DataObject.ModuleTimeLayout | thermotecaeroflowflexismart/data_object.py:145 | with one- or two-digit clock fields, the module time is "HH:MM:SS" and each pair is two digits reading as field 3, 4 or 5 |
| DataObject.ModuleDataIgnoresUnusedFields | thermotecaeroflowflexismart/data_object.py:142-157 | fields 6, 14 and anything after 19 do not affect the result |
| DataObject.SampleModuleDecodes | thermotecaeroflowflexismart/data_object.py:142-157 | the test's 20 fields decode to the exact record (18.8, 19.0, "02:50:59", …, "v201106") |
| DataObject.ModuleDataExample | thermotecaeroflowflexismart/data_object.py:142-204 | the test's readings: time "02:50:59", programming "0,0", no boost, offset 0.0, both flags on, "English" for 129 |
| DataObject.SampleProgrammingString | thermotecaeroflowflexismart/data_object.py:168-171 | the test's programming numbers 0 and 0 show as "0,0" |
| Protocol.AcceptFields | thermotecaeroflowflexismart/client.py:482-488 | accepted exactly when the reply starts with the identifier; then the payload is the reply with every occurrence of it removed, split on commas |
| Protocol.AcceptNumber | thermotecaeroflowflexismart/client.py:589-596 | a reply not starting with "OK," is InvalidResponse; an accepted number is `int` of the rest |
| Protocol.Confirm | thermotecaeroflowflexismart/client.py:512-513 | succeeds exactly when the reply starts with the status, else InvalidResponse |
| Protocol.ParseIntFields | thermotecaeroflowflexismart/client.py:152-157 | succeeds exactly when every field is an integer; then the list has the same length and each entry is that field's value |
| Protocol.ReadTemperature | thermotecaeroflowflexismart/client.py:482-489 | InvalidResponse without "OK,", otherwise the Temperature decoder on the payload |
| Protocol.ReadOffset | thermotecaeroflowflexismart/client.py:533-543 | InvalidResponse without "OK,"; succeeds exactly when the first field reads as an integer; the value is the offset codec of it, in whole tenths |
| Protocol.ReadAntiFreeze | thermotecaeroflowflexismart/client.py:589-602 | InvalidResponse without "OK,"; succeeds exactly when the payload reads as an integer; raw 255 reads as 5.0 and every other raw as itself in degrees |
| Protocol.ReadBoost | thermotecaeroflowflexismart/client.py:646-661 | InvalidResponse without "OK,"; succeeds exactly when the payload reads as an integer; raw 255 reads as 0 and every other raw as raw·5 minutes |
| Protocol.ReadFlag | thermotecaeroflowflexismart/client.py:710-719 | succeeds exactly on "OK," and a number; true exactly when that number is nonzero |
| Protocol.ReadModuleData | thermotecaeroflowflexismart/client.py:817-827 | InvalidResponse without "OK,", otherwise the ModuleData decoder on the payload |
| Protocol.ReadGatewayDateTime | thermotecaeroflowflexismart/client.py:47-59 | InvalidResponse without "OPOK,"; otherwise the GatewayDateTime decoder on the fields after it |
| Protocol.ReadGatewayData | thermotecaeroflowflexismart/client.py:88-100 | InvalidResponse without "OPOK,"; otherwise the GatewayData decoder on the fields after it |
| Protocol.ReadStatus | thermotecaeroflowflexismart/client.py:105-117 | InvalidResponse without "OPOK,OPS1,"; succeeds exactly on at least 7 fields after it, keeping fields 0, 5 and 6 |
| Protocol.ReadIntList | thermotecaeroflowflexismart/client.py:121-157 | InvalidResponse without the echo "OPOK,<op>,"; otherwise ParseIntFields of the fields after it |
| Protocol.ReadNetworkConfiguration | thermotecaeroflowflexismart/client.py:225-237 | InvalidResponse without "OPOK,OPS38,"; otherwise the network configuration decoder on the fields after it |
| Protocol.ResolveAddress | thermotecaeroflowflexismart/client.py:466-479 | succeeds exactly when the zone exists and a given module is within the zone's count; "D" with the count for -1, "R" with the module otherwise; the zone error or InvalidModule otherwise |
| Protocol.ModuleCommandLayout | thermotecaeroflowflexismart/client.py:479 | "<op>#<zone>#<addr>#0#0*<suffix>" splits back into head and suffix and the head into op, zone, addr, 0, 0: zone and address read back |
| Protocol.AfterTopology | thermotecaeroflowflexismart/client.py:466-480 | "OPS3/" is always sent first and is the only request before the command; the command is sent exactly when the topology reads and the plan accepts it; otherwise the first error stands |
| Protocol.ModuleRequestAddressing | thermotecaeroflowflexismart/client.py:466-480 | a failed zone or module check sends nothing after "OPS3/" and returns the check's error; a valid one sends exactly the addressed command |
| Protocol.BoostSteps | thermotecaeroflowflexismart/client.py:674-680 | 0 below 5 minutes, otherwise the whole 5-minute steps in the time; at most 19 up to 95 minutes |
| Protocol.SetBoost | thermotecaeroflowflexismart/client.py:665-692 | more than 95 minutes is InvalidRequest with no request sent, not even the topology fetch |
| Protocol.SetDateTimeCommandLayout | thermotecaeroflowflexismart/client.py:67-77 | the command is 20 characters; hour, minute, second, weekday, day, month and two-digit year sit at fixed positions and read back as given |
| Protocol.Ping | thermotecaeroflowflexismart/client.py:30-43 | corrected ping: one "PING"; alive exactly when the reply starts with "OP"; a silent gateway is dead |
| Protocol.PingAsWritten | thermotecaeroflowflexismart/client.py:30-43 | ping as written: one "PING", and false whatever the gateway answers |
| Protocol.PingAnswersFalseToLiveGateway | thermotecaeroflowflexismart/client.py:30-43 | the code as written answers false to a gateway replying "OP"; the corrected one answers true |
| Protocol.ReplyFields | thermotecaeroflowflexismart/client.py:482-488 | a reply built from an identifier and plain fields is accepted and gives back exactly those fields |
| Protocol.NumberReply | thermotecaeroflowflexismart/client.py:589-596 | "OK," then `str(n)` reads back as n |
| Protocol.IntListReply | thermotecaeroflowflexismart/client.py:141-157 | a list written as the gateway writes it reads back as the same list |
| Protocol.EmptyListIsMalformed | thermotecaeroflowflexismart/client.py:152-155 | an echo with no fields fails: `int("")` raises, so an empty topology is an error, not [] |
| Protocol.StatusReply | thermotecaeroflowflexismart/client.py:105-117 | `get_status` keeps payload fields 0, 5 and 6 |
| Protocol.GatewayDataReply | thermotecaeroflowflexismart/client.py:88-100 | `get_gateway_data` keeps the first three fields after "OPOK," |
| Protocol.BoostSetThenGet | thermotecaeroflowflexismart/client.py:646-686 | a boost set and read back is the time rounded down to whole 5-minute steps, and 0 below 5 |
| Protocol.AntiFreezeSetThenGet | thermotecaeroflowflexismart/client.py:596-622 | an anti-freeze temperature set and read back loses its fraction; a whole one other than 255 comes back unchanged |
| Protocol.FlagSetThenGet | thermotecaeroflowflexismart/client.py:710-739 | a flag set and read back is the flag |
| Protocol.FlagReadingsAgree | thermotecaeroflowflexismart/client.py:710-719 | the module record (`== 1`, data_object.py:192-196) and the single-setting reading (`bool(int())`) agree on a flag exactly for raw 0 and 1 |
| Protocol.OffsetSetThenGet | thermotecaeroflowflexismart/client.py:533-563 | an offset in whole tenths within one signed byte comes back unchanged |
| Protocol.TemperatureSetThenGet | thermotecaeroflowflexismart/client.py:482-509 | a target temperature in whole degrees up to 128 or half degrees from 1.5 comes back unchanged |
| Client.Gateway.SendMessageGetResponse | thermotecaeroflowflexismart/communication.py:31-42 | records the request with its timeout; returns the next reply, or "UNEXPECTED_ERROR" once the gateway is silent |
| Client.IntFields | thermotecaeroflowflexismart/client.py:152-157 | the append loop returns ParseIntFields of the payload |
| Client.Client.constructor | thermotecaeroflowflexismart/client.py:25-26 | a fresh gateway with nothing sent |
| Client.Client.Ping | thermotecaeroflowflexismart/client.py:30-43 | performs the corrected Protocol.Ping exchange |
| Client.Client.PingAsWritten | thermotecaeroflowflexismart/client.py:30-43 | performs the as-written exchange: one "PING", always false |
| Client.Client.GetDateTime | thermotecaeroflowflexismart/client.py:47-59 | sends "OPH/" and returns the GatewayDateTime of the "OPOK," payload |
| Client.Client.SetDateTime | thermotecaeroflowflexismart/client.py:67-84 | sends the date-time command and confirms "OPOK" |
| Client.Client.GetGatewayData | thermotecaeroflowflexismart/client.py:88-100 | sends "OPF/" and decodes the "OPOK," payload |
| Client.Client.GetStatus | thermotecaeroflowflexismart/client.py:105-117 | sends "OPS1/" and keeps fields 0, 5 and 6 of the "OPOK,OPS1," payload |
| Client.Client.GetZones | thermotecaeroflowflexismart/client.py:121-137 | sends "OPS2/" and returns the integers of the payload |
| Client.Client.GetZonesWithModuleCount | thermotecaeroflowflexismart/client.py:141-157 | sends "OPS3/" and returns the module count of every zone |
| Client.Client.GetNetworkConfiguration | thermotecaeroflowflexismart/client.py:225-237 | sends "OPS38/" and decodes the payload |
| Client.Client.CreateZone | thermotecaeroflowflexismart/client.py:260-275 | the topology, then "OPMW<n+9>,<n+1>/" with no check, confirmed by "OPOK" |
| Client.Client.DeleteZone | thermotecaeroflowflexismart/client.py:279-296 | the topology, the zone check, then "OPMW<128+zone>,0/", confirmed by "OPOK" |
| Client.Client.GetModuleData | thermotecaeroflowflexismart/client.py:299-315 | the topology, the zone check only, then "R#<zone>#<module>#0#0*?F/" and the ModuleData of the "OK," payload |
| Client.Client.RegisterModule | thermotecaeroflowflexismart/client.py:439-461 | the topology, the zone and module checks, then "OPZI199,<zone>,<module>/" with the caller's timeout, confirmed by "OPOK" |
| Client.Client.SendToModule | thermotecaeroflowflexismart/client.py:466-480 | the shared path of the per-setting methods, step by step: performs Protocol.ModuleRequest |
| Client.Client.GetTemperature | thermotecaeroflowflexismart/client.py:465-489 | "?T/" to the resolved address, the Temperature of the "OK," payload |
| Client.Client.SetTemperature | thermotecaeroflowflexismart/client.py:493-515 | "T<code>/" with the target codec, confirmed by "OK" |
| Client.Client.GetTemperatureOffset | thermotecaeroflowflexismart/client.py:519-543 | "?E#0#9/", the offset codec of the first field |
| Client.Client.SetTemperatureOffset | thermotecaeroflowflexismart/client.py:547-569 | "SEP#0#9#<code>/" with the offset codec, confirmed by "OK" |
| Client.Client.GetAntiFreezeTemperature | thermotecaeroflowflexismart/client.py:573-602 | "?E#1#20/", raw 255 read as 5.0 |
| Client.Client.SetAntiFreezeTemperature | thermotecaeroflowflexismart/client.py:606-628 | "SEP#1#20#<int(t)>/", confirmed by "OK" |
| Client.Client.GetBoost | thermotecaeroflowflexismart/client.py:632-661 | "?E#1#22/", raw 255 read as 0, otherwise raw·5 |
| Client.Client.SetBoost | thermotecaeroflowflexismart/client.py:665-692 | refuses more than 95 minutes before any request; otherwise "SEP#1#22#<steps>/" |
| Client.Client.IsWindowOpenDetectionEnabled | thermotecaeroflowflexismart/client.py:696-719 | "?E#0#6/", true for any nonzero number |
| Client.Client.SetWindowOpenDetection | thermotecaeroflowflexismart/client.py:723-745 | "SEP#0#6#<0 or 1>/", confirmed by "OK" |
| Client.Client.IsSmartStartEnabled | thermotecaeroflowflexismart/client.py:749-772 | "?E#0#7/", true for any nonzero number |
| Client.Client.SetSmartStart | thermotecaeroflowflexismart/client.py:776-798 | "SEP#0#7#<0 or 1>/", confirmed by "OK" |
| Client.Client.RestartModule | thermotecaeroflowflexismart/client.py:802-827 | "-TU#0#0#0#0#2/", the ModuleData of the "OK," payload |
| Fixtures.TopologyReply | tests/test_client.py:364 | "OPOK,OPS3,1,2,3" reads as [1, 2, 3] |
| Fixtures.ZonesWithModuleCountFixture | tests/test_client.py:436-444 | "OPOK,OPS3,1,1,0,3" gives [1, 1, 0, 3] after sending "OPS3/" |
| Fixtures.ZoneOneAddresses | tests/test_client_private_methods_fixed.py:17-49 | on that topology zone 1 resolves to D 1 and module 1 to R 1; module 2 and zone 4 are refused |
| Fixtures.GetZoneTemperatureFixture | tests/test_client_private_methods_fixed.py:17-32 | sends "OPS3/" then "D#1#1#0#0*?T/" and reads 18.8 / 20.0 |
| Fixtures.GetModuleTemperatureFixture | tests/test_client_private_methods_fixed.py:34-49 | sends "OPS3/" then "R#1#1#0#0*?T/" and reads 18.8 / 20.0 |
| Fixtures.AddressingFailureFixture | thermotecaeroflowflexismart/client.py:466-478 | zone 4 or module 2 stops after "OPS3/" with the check's error |
| Fixtures.NoZonesFixture | thermotecaeroflowflexismart/client.py:152-155 | a gateway answering "OPOK,OPS3," fails before any zone check |
| Fixtures.TimeoutFixture | thermotecaeroflowflexismart/communication.py:33-42 | a gateway silent after the topology makes the command fail with InvalidResponse |
| Fixtures.SetBoostFixture | tests/test_client_private_methods_fixed.py:409-421 | 30 minutes: "D#1#1#0#0*SEP#1#22#6/" |
| Fixtures.SetLongBoostFixture | tests/test_client_private_methods_fixed.py:423-449 | 60 minutes on module 1: "R#1#1#0#0*SEP#1#22#12/"; 100 minutes sends nothing |
| Fixtures.SentinelFixture | tests/test_client_private_methods_fixed.py:276-287 | "OK,255" is 5.0 of anti-freeze and 0 minutes of boost; "OK,5" is 25 minutes |
| Fixtures.AntiFreezeTruncationFixture | tests/test_client_private_methods_fixed.py:303-329 | 3.5 is sent as 3 to the zone and 4.5 as 4 to module 1 |
| Fixtures.GetModuleDataFixture | tests/test_client.py:485-510 | sends "OPS3/" then "R#1#1#0#0*?F/" and decodes the test's record |
| Fixtures.ModuleDataExchange | thermotecaeroflowflexismart/client.py:299-315 | for any decodable reply, zone 1 module 1 is asked "R#1#1#0#0*?F/" after "OPS3/" and that reply is decoded |
| Fixtures.CreateZoneFixture | tests/test_client.py:357-370 | with three zones, "OPMW12,4/" |
| Fixtures.DeleteZoneFixture | tests/test_client.py:385-398 | zone 1 is deleted with "OPMW129,0/" |
| Fixtures.RegisterModuleFixture | thermotecaeroflowflexismart/client.py:439-461 | zone 1 with timeout 30: "OPZI199,1,1/" sent with timeout 30 |
| Fixtures.SetDateTimeFixture | tests/test_client.py:266-274 | 2023-12-25 14:30:45, a Monday: "OPF1430450/25,12,23/" |
| Fixtures.StatusFixture | tests/test_client.py:331-342 | the test's status reply gives sync id "123", ids "16" and "197" |

## Left out

- The UDP transport (`communication.py`) is out: sockets, the 100 ms sleep, `wait_for` and `asyncio`. The gateway is a sequence of replies. A timeout is recorded with each request but not enforced: a silent gateway gives `UNEXPECTED_ERROR` at once.
- The `host` and `port` given to the constructor are not modelled: they only reach the transport.
- `update_date_time` reads the clock, so it is out. The weekday `set_date_time` gets from `datetime.weekday()` is an input, and a day valid for its month is not checked.
- Python's `int()` also accepts surrounding whitespace and underscores between digits. `Text.ParseInt` accepts an optional `-` or `+` and then digits only, so fields with whitespace or underscores fail.
- Floating point is not modelled: temperatures are exact reals. `float()` rounding and IEEE effects in `temperature * 10` and `temperature % 1` are out.
- The Python `float` of "main.second" is the exact decimal here. `CreateCurrentTemperature` does not model the binary rounding of `float()`.
- The public one-line wrappers are not separate members: they call the private methods with module -1 or a module id, or fix a flag to true or false. These are `get_zone_*`, `set_module_*`, `enable_*`, `disable_*`, `restart_zone`, `restart_module` and `register_module_in_zone`.
- The commented-out OPS4–OPS43 blocks of `client.py` are out.
- Holiday mode and weekly programming are not part of this model: `client.py` has no such methods, only its tests.
- `const.py` is not part of this model. Its constants are inferred from the tests: "OP", "OPOK" and "OK". The default timeout of 3 is the default argument of `send_message_get_response` (communication.py:31).
- The boost time left follows the code, not its comment: the comment on the boost field of `data_object.py` lists 4, 12, 20, 28 and 36 as under 5, 10, 15, 20 and 25 minutes, but `round(raw / 8) * 5` gives 0, 10, 10, 20 and 20, which the model and the repository's boost test agree on.
- The language field follows the code, not its comment: the comment says 128 is English and 129 German, but the code returns "Deutsch" for 128.
- The gateway date-time decoder follows the code's field order (day, month, year, weekday, hour, minute, second). A test in the repository expects another order.
- DataObject.NetworkConfigurationExample: only the ports are checked. The dotted addresses of that sample follow from `NetworkConfigurationLayout`.
- DataObject.ModuleData getters that only return a field are the record's fields. `get_device_identifier`, which one test uses, does not exist in `data_object.py`.
- Exceptions other than the library's are values: `IndexError` and `ValueError` on a short or non-numeric payload become `MalformedPayload`. Python would raise them at the first failing index; the model decides on the whole payload.

## Findings

| source | as written | input that shows it | evidently intended | confidence | as-written member | corrected member |
|---|---|---|---|---|---|---|
| thermotecaeroflowflexismart/client.py:30-43 | the `return False` in `finally` overrides the `return True` of the try block and swallows InvalidResponse, so `ping` answers false on every path | the gateway replies "OP" | true exactly when the reply starts with "OP" (the repository's test expects true for "OP") | high; not executed | Protocol.PingAsWritten, Client.Client.PingAsWritten, Protocol.PingAnswersFalseToLiveGateway | Protocol.Ping, Client.Client.Ping |
