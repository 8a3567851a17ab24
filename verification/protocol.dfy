/** The wire protocol of the client (thermotecaeroflowflexismart/client.py) as pure
    functions: the command text each operation builds, how each reply is accepted and
    read, and, for a gateway that answers with a given sequence of replies, the
    requests an operation sends and the result it ends with. The Client module
    performs these exchanges step by step and is proved to match them. */
module Protocol {
  import opened Wrappers
  import opened Text
  import opened Utils
  import opened DataObject

  /** Reply prefixes: "OP" for any gateway answer, "OPOK" for a successful gateway
      answer, "OK" for a successful module answer. */
  const Operation := "OP"
  const OperationOk := "OPOK"
  const Okay := "OK"

  /** What the transport returns when no reply came in time. */
  const UnexpectedError := "UNEXPECTED_ERROR"

  /** Seconds the transport waits for a reply unless the caller says otherwise. */
  const DefaultTimeout := 3

  // ------------------------------------------------------------ transport

  /** One message handed to the transport, with the timeout it was given. */
  datatype Request = Request(message: string, timeout: int)

  /** The reply to the i-th request: the gateway's i-th answer, or the transport's
      fallback once the gateway has fallen silent. */
  function Answer(replies: seq<string>, i: nat): string {
    if i < |replies| then replies[i] else UnexpectedError
  }

  /** The answers left once `n` requests have been made. */
  function Drop(replies: seq<string>, n: nat): seq<string> {
    if n <= |replies| then replies[n..] else []
  }

  lemma AnswerAfterDrop(replies: seq<string>, n: nat, i: nat)
    ensures Answer(Drop(replies, n), i) == Answer(replies, n + i)
  {
  }

  lemma DropDrop(replies: seq<string>, m: nat, n: nat)
    ensures Drop(Drop(replies, m), n) == Drop(replies, m + n)
  {
    if m + n <= |replies| {
      assert replies[m..][n..] == replies[m + n..];
    }
  }

  /** What one operation does against the gateway: the requests it sends, in order,
      and the value or error it ends with. */
  datatype Exchange<T> = Exchange(sent: seq<Request>, result: Result<T>) {
    /** Reads the reply the exchange ended with; an earlier failure stands. */
    function Read<U>(accept: T -> Result<U>): Exchange<U> {
      Exchange(sent, match result case Success(v) => accept(v) case Failure(e) => Failure(e))
    }
  }

  /** An operation of one request that reads the gateway's answer. */
  function Query<T>(command: string, accept: string -> Result<T>, replies: seq<string>): Exchange<T> {
    Exchange([Request(command, DefaultTimeout)], accept(Answer(replies, 0)))
  }

  // ------------------------------------------------------------ accepting a reply

  /** The payload fields of a reply: its prefix checked, every occurrence of the
      identifier removed, the rest split on commas. */
  function AcceptFields(response: string, identifier: string): (r: Result<seq<string>>)
    requires |identifier| > 0
    ensures r.Success? <==> StartsWith(response, identifier)
    ensures r.Failure? ==> r.error == InvalidResponse
    ensures r.Success? ==> r.value == Split(RemoveAll(response, identifier), ',')
  {
    if StartsWith(response, identifier) then Success(Split(RemoveAll(response, identifier), ','))
    else Failure(InvalidResponse)
  }

  /** A reply whose whole payload after "OK," is one number. */
  function AcceptNumber(response: string): (r: Result<int>)
    ensures !StartsWith(response, Okay + ",") ==> r == Failure(InvalidResponse)
    ensures r.Success? ==> Some(r.value) == ParseInt(RemoveAll(response, Okay + ","))
  {
    if StartsWith(response, Okay + ",") then Need(ParseInt(RemoveAll(response, Okay + ",")))
    else Failure(InvalidResponse)
  }

  /** A reply that only confirms: any text that starts with `status`. */
  function Confirm(response: string, status: string): (r: Result<()>)
    ensures r.Success? <==> StartsWith(response, status)
    ensures r.Failure? ==> r.error == InvalidResponse
  {
    if StartsWith(response, status) then Success(()) else Failure(InvalidResponse)
  }

  function ConfirmOkay(response: string): Result<()> {
    Confirm(response, Okay)
  }

  function ConfirmOperationOk(response: string): Result<()> {
    Confirm(response, OperationOk)
  }

  /** The identifier of a gateway reply that echoes its operation, "OPOK,<operation>,". */
  function EchoIdentifier(operation: string): (id: string)
    ensures |id| > 0 && id[0] == 'O'
  {
    OperationOk + "," + operation + ","
  }

  /** `int` of every field, in order; one unreadable field fails the whole list. */
  function ParseIntFields(data: seq<string>): (r: Result<seq<int>>)
    ensures r.Success? <==> forall k :: 0 <= k < |data| ==> ParseInt(data[k]).Some?
    ensures r.Success? ==> |r.value| == |data|
    ensures r.Success? ==> forall k :: 0 <= k < |data| ==> Some(r.value[k]) == ParseInt(data[k])
    ensures r.Failure? ==> r.error == MalformedPayload
  {
    if data == [] then Success([])
    else
      match (ParseInt(data[0]), ParseIntFields(data[1..]))
      case (Some(first), Success(rest)) => Success([first] + rest)
      case (None, _) => Failure(MalformedPayload)
      case (_, Failure(e)) => Failure(e)
  }

  // ------------------------------------------------------------ readers

  /** `Temperature` from the fields after "OK,". */
  function ReadTemperature(response: string): (r: Result<Temperature>)
    ensures !StartsWith(response, Okay + ",") ==> r == Failure(InvalidResponse)
    ensures StartsWith(response, Okay + ",") ==> r == DecodeTemperature(Split(RemoveAll(response, Okay + ","), ','))
  {
    var data :- AcceptFields(response, Okay + ",");
    DecodeTemperature(data)
  }

  /** The offset codec applied to the first field after "OK,". */
  function ReadOffset(response: string): (r: Result<real>)
    ensures !StartsWith(response, Okay + ",") ==> r == Failure(InvalidResponse)
    ensures r.Success? <==>
      StartsWith(response, Okay + ",") && ParseInt(Split(RemoveAll(response, Okay + ","), ',')[0]).Some?
    ensures r.Success? ==> IsWhole(10.0 * r.value)
    ensures r.Success? ==>
      r.value == CalculateTemperatureOffsetFromInt(ParseInt(Split(RemoveAll(response, Okay + ","), ',')[0]).value)
  {
    var data :- AcceptFields(response, Okay + ",");
    var code :- IntField(data, 0);
    Success(CalculateTemperatureOffsetFromInt(code))
  }

  /** The anti-freeze temperature in whole degrees; 255 means never set and reads as 5. */
  function ReadAntiFreeze(response: string): (r: Result<real>)
    ensures !StartsWith(response, Okay + ",") ==> r == Failure(InvalidResponse)
    ensures r.Success? <==> StartsWith(response, Okay + ",") && ParseInt(RemoveAll(response, Okay + ",")).Some?
    ensures r.Success? ==> IsWhole(r.value)
    ensures r.Success? && ParseInt(RemoveAll(response, Okay + ",")) == Some(255) ==> r.value == 5.0
    ensures r.Success? && ParseInt(RemoveAll(response, Okay + ",")) != Some(255) ==>
      r.value == ParseInt(RemoveAll(response, Okay + ",")).value as real
  {
    var data :- AcceptNumber(response);
    Success(if data == 255 then 5.0 else data as real)
  }

  /** Boost minutes: the raw count of 5-minute steps times 5, 255 meaning no boost. */
  function ReadBoost(response: string): (r: Result<int>)
    ensures !StartsWith(response, Okay + ",") ==> r == Failure(InvalidResponse)
    ensures r.Success? <==> StartsWith(response, Okay + ",") && ParseInt(RemoveAll(response, Okay + ",")).Some?
    ensures r.Success? && ParseInt(RemoveAll(response, Okay + ",")) == Some(255) ==> r.value == 0
    ensures r.Success? && ParseInt(RemoveAll(response, Okay + ",")) != Some(255) ==>
      r.value == ParseInt(RemoveAll(response, Okay + ",")).value * 5
  {
    var data :- AcceptNumber(response);
    Success(if data == 255 then 0 else data * 5)
  }

  /** `bool(int(payload))`: any nonzero number is on. */
  function ReadFlag(response: string): (r: Result<bool>)
    ensures !StartsWith(response, Okay + ",") ==> r == Failure(InvalidResponse)
    ensures r.Success? <==> StartsWith(response, Okay + ",") && ParseInt(RemoveAll(response, Okay + ",")).Some?
    ensures r.Success? ==> (r.value <==> ParseInt(RemoveAll(response, Okay + ",")) != Some(0))
  {
    var data :- AcceptNumber(response);
    Success(data != 0)
  }

  /** `ModuleData` from the fields after "OK,". */
  function ReadModuleData(response: string): (r: Result<ModuleData>)
    ensures !StartsWith(response, Okay + ",") ==> r == Failure(InvalidResponse)
    ensures StartsWith(response, Okay + ",") ==> r == DecodeModuleData(Split(RemoveAll(response, Okay + ","), ','))
  {
    var data :- AcceptFields(response, Okay + ",");
    DecodeModuleData(data)
  }

  /** `GatewayDateTime` from the fields after "OPOK,". */
  function ReadGatewayDateTime(response: string): (r: Result<GatewayDateTime>)
    ensures !StartsWith(response, OperationOk + ",") ==> r == Failure(InvalidResponse)
    ensures StartsWith(response, OperationOk + ",") ==>
      r == DecodeGatewayDateTime(Split(RemoveAll(response, OperationOk + ","), ','))
  {
    var data :- AcceptFields(response, OperationOk + ",");
    DecodeGatewayDateTime(data)
  }

  /** `GatewayData` from the fields after "OPOK,". */
  function ReadGatewayData(response: string): (r: Result<GatewayData>)
    ensures !StartsWith(response, OperationOk + ",") ==> r == Failure(InvalidResponse)
    ensures StartsWith(response, OperationOk + ",") ==>
      r == DecodeGatewayData(Split(RemoveAll(response, OperationOk + ","), ','))
  {
    var data :- AcceptFields(response, OperationOk + ",");
    DecodeGatewayData(data)
  }

  /** The three status fields `get_status` keeps. */
  datatype Status = Status(serverSyncId: string, idA: string, idB: string)

  function ReadStatus(response: string): (r: Result<Status>)
    ensures !StartsWith(response, EchoIdentifier("OPS1")) ==> r == Failure(InvalidResponse)
    ensures r.Success? <==>
      StartsWith(response, EchoIdentifier("OPS1")) && |Split(RemoveAll(response, EchoIdentifier("OPS1")), ',')| >= 7
    ensures r.Success? ==> var data := Split(RemoveAll(response, EchoIdentifier("OPS1")), ',');
      r.value == Status(data[0], data[5], data[6])
  {
    var data :- AcceptFields(response, EchoIdentifier("OPS1"));
    if |data| < 7 then Failure(MalformedPayload) else Success(Status(data[0], data[5], data[6]))
  }

  /** The integers after the operation's echo "OPOK,<operation>,". */
  function ReadIntList(operation: string, response: string): (r: Result<seq<int>>)
    ensures !StartsWith(response, EchoIdentifier(operation)) ==> r == Failure(InvalidResponse)
    ensures StartsWith(response, EchoIdentifier(operation)) ==>
      r == ParseIntFields(Split(RemoveAll(response, EchoIdentifier(operation)), ','))
  {
    var data :- AcceptFields(response, EchoIdentifier(operation));
    ParseIntFields(data)
  }

  function ReadZones(response: string): Result<seq<int>> {
    ReadIntList("OPS2", response)
  }

  function ReadZonesWithModuleCount(response: string): Result<seq<int>> {
    ReadIntList("OPS3", response)
  }

  /** `GatewayNetworkConfiguration` from the fields after "OPOK,OPS38,". */
  function ReadNetworkConfiguration(response: string): (r: Result<GatewayNetworkConfiguration>)
    ensures !StartsWith(response, EchoIdentifier("OPS38")) ==> r == Failure(InvalidResponse)
    ensures StartsWith(response, EchoIdentifier("OPS38")) ==>
      r == DecodeNetworkConfiguration(Split(RemoveAll(response, EchoIdentifier("OPS38")), ','))
  {
    var data :- AcceptFields(response, EchoIdentifier("OPS38"));
    DecodeNetworkConfiguration(data)
  }

  // ------------------------------------------------------------ addressing

  /** The first field of a module command and the module address after the zone. */
  datatype Address = Address(operation: string, targetModule: int)

  /** "D" with the zone's module count when no module is named (-1), otherwise "R" with
      the named module once it is within the count. */
  function ResolveAddress(zones: seq<int>, zone: int, moduleId: int): (r: Result<Address>)
    ensures r.Success? <==> 1 <= zone <= |zones| && (moduleId != -1 ==> moduleId <= zones[zone - 1])
    ensures r.Success? && moduleId == -1 ==> r.value == Address("D", zones[zone - 1])
    ensures r.Success? && moduleId != -1 ==> r.value == Address("R", moduleId)
    ensures !(1 <= zone <= |zones|) ==> r == Failure(CheckIfZoneExists(zones, zone).error)
    ensures 1 <= zone <= |zones| && r.Failure? ==> r.error == InvalidModule
  {
    match CheckIfZoneExists(zones, zone)
    case Fail(e) => Failure(e)
    case Pass =>
      if moduleId == -1 then Success(Address("D", zones[zone - 1]))
      else
        match CheckIfModuleIsValid(zones[zone - 1], moduleId)
        case Fail(e) => Failure(e)
        case Pass => Success(Address("R", moduleId))
  }

  /** The fields before the '*' of a module command. */
  function ModuleCommandHead(address: Address, zone: int): string {
    address.operation + "#" + IntToString(zone) + "#" + IntToString(address.targetModule) + "#0#0"
  }

  /** "<operation>#<zone>#<module>#0#0*<suffix>". */
  function ModuleCommand(address: Address, zone: int, suffix: string): string {
    ModuleCommandHead(address, zone) + "*" + suffix
  }

  /** Neither separator of a module command occurs in `str(n)`. */
  lemma NoSeparatorInNumber(n: int)
    ensures '#' !in IntToString(n) && '*' !in IntToString(n)
  {
    IntToStringChars(n);
  }

  /** The head of a module command splits on '#' into its five fields. */
  lemma HeadFields(operation: string, z: string, m: string)
    requires '#' !in operation && '#' !in z && '#' !in m
    ensures Split(operation + "#" + z + "#" + m + "#0#0", '#') == [operation, z, m, "0", "0"]
  {
    SplitPiece("0", '#');
    SplitAfterPiece("0", '#', "0");
    assert "0#0" == "0" + ['#'] + "0";
    var t1 := m + ['#'] + "0#0";
    SplitAfterPiece(m, '#', "0#0");
    var t2 := z + ['#'] + t1;
    SplitAfterPiece(z, '#', t1);
    SplitAfterPiece(operation, '#', t2);
    HeadNesting(operation, z, m);
  }

  /** The head written left to right is the head built field by field from the right. */
  lemma HeadNesting(operation: string, z: string, m: string)
    ensures operation + "#" + z + "#" + m + "#0#0" == operation + ['#'] + (z + ['#'] + (m + ['#'] + "0#0"))
  {
  }

  /** A module command splits back into its head and suffix, and the head into the
      operation, the zone, the module and two zeros: zone and module are recoverable. */
  lemma ModuleCommandLayout(address: Address, zone: int, suffix: string)
    requires address.operation == "D" || address.operation == "R"
    requires '*' !in suffix
    ensures Split(ModuleCommand(address, zone, suffix), '*') == [ModuleCommandHead(address, zone), suffix]
    ensures var fields := Split(ModuleCommandHead(address, zone), '#');
      && fields == [address.operation, IntToString(zone), IntToString(address.targetModule), "0", "0"]
      && ParseInt(fields[1]) == Some(zone) && ParseInt(fields[2]) == Some(address.targetModule)
  {
    var z, m := IntToString(zone), IntToString(address.targetModule);
    NoSeparatorInNumber(zone);
    NoSeparatorInNumber(address.targetModule);
    var head := ModuleCommandHead(address, zone);
    assert '*' !in head;
    SplitAfterPiece(head, '*', suffix);
    SplitPiece(suffix, '*');
    assert ModuleCommand(address, zone, suffix) == head + ['*'] + suffix;
    HeadFields(address.operation, z, m);
    ParseIntToString(zone);
    ParseIntToString(address.targetModule);
  }

  // ------------------------------------------------------------ topology-first operations

  /** Fetches the topology with "OPS3/", then, unless `plan` refuses the request for
      that topology, sends the one command it plans; the result is that command's raw reply. */
  function AfterTopology(replies: seq<string>, plan: seq<int> -> Result<Request>): (ex: Exchange<string>)
    ensures 1 <= |ex.sent| <= 2 && ex.sent[0] == Request("OPS3/", DefaultTimeout)
    ensures ex.result.Success? <==> |ex.sent| == 2
    ensures |ex.sent| == 2 <==>
      ReadZonesWithModuleCount(Answer(replies, 0)).Success?
      && plan(ReadZonesWithModuleCount(Answer(replies, 0)).value).Success?
    ensures |ex.sent| == 2 ==>
      ex.sent[1] == plan(ReadZonesWithModuleCount(Answer(replies, 0)).value).value
      && ex.result.value == Answer(replies, 1)
    ensures ReadZonesWithModuleCount(Answer(replies, 0)).Failure? ==>
      ex.result == Failure(ReadZonesWithModuleCount(Answer(replies, 0)).error)
    ensures (ReadZonesWithModuleCount(Answer(replies, 0)).Success?
      && plan(ReadZonesWithModuleCount(Answer(replies, 0)).value).Failure?) ==>
      ex.result == Failure(plan(ReadZonesWithModuleCount(Answer(replies, 0)).value).error)
  {
    var topology := Query("OPS3/", ReadZonesWithModuleCount, replies);
    match topology.result
    case Failure(e) => Exchange(topology.sent, Failure(e))
    case Success(zones) =>
      match plan(zones)
      case Failure(e) => Exchange(topology.sent, Failure(e))
      case Success(request) => Exchange(topology.sent + [request], Success(Answer(replies, 1)))
  }

  function ModulePlan(zones: seq<int>, zone: int, moduleId: int, suffix: string): Result<Request> {
    var address :- ResolveAddress(zones, zone, moduleId);
    Success(Request(ModuleCommand(address, zone, suffix), DefaultTimeout))
  }

  /** The shared path of every private per-setting method: topology, zone check, the
      address, one command ending in `suffix`. */
  function ModuleRequest(zone: int, moduleId: int, suffix: string, replies: seq<string>): Exchange<string> {
    AfterTopology(replies, zones => ModulePlan(zones, zone, moduleId, suffix))
  }

  /** With the topology read, an operation on a zone outside it, or on a module beyond the
      zone's count, sends nothing after "OPS3/" and fails with the check's error; a valid
      one sends exactly the addressed command. */
  lemma ModuleRequestAddressing(zone: int, moduleId: int, suffix: string, replies: seq<string>)
    requires ReadZonesWithModuleCount(Answer(replies, 0)).Success?
    ensures var zones := ReadZonesWithModuleCount(Answer(replies, 0)).value;
      var ex := ModuleRequest(zone, moduleId, suffix, replies);
      && (ResolveAddress(zones, zone, moduleId).Failure? ==>
            ex.sent == [Request("OPS3/", DefaultTimeout)] && ex.result == Failure(ResolveAddress(zones, zone, moduleId).error))
      && (ResolveAddress(zones, zone, moduleId).Success? ==>
            ex.sent == [Request("OPS3/", DefaultTimeout),
                        Request(ModuleCommand(ResolveAddress(zones, zone, moduleId).value, zone, suffix), DefaultTimeout)])
  {
    var zones := ReadZonesWithModuleCount(Answer(replies, 0)).value;
    var plan := (zs: seq<int>) => ModulePlan(zs, zone, moduleId, suffix);
    assert plan(zones) == ModulePlan(zones, zone, moduleId, suffix);
  }

  // ------------------------------------------------------------ per-setting operations

  function GetTemperature(zone: int, moduleId: int, replies: seq<string>): Exchange<Temperature> {
    ModuleRequest(zone, moduleId, "?T/", replies).Read(ReadTemperature)
  }

  function SetTemperature(temperature: real, zone: int, moduleId: int, replies: seq<string>): Exchange<()> {
    ModuleRequest(zone, moduleId, "T" + IntToString(CalculateIntFromTemperature(temperature)) + "/", replies).Read(ConfirmOkay)
  }

  function GetTemperatureOffset(zone: int, moduleId: int, replies: seq<string>): Exchange<real> {
    ModuleRequest(zone, moduleId, "?E#0#9/", replies).Read(ReadOffset)
  }

  function SetTemperatureOffset(temperature: real, zone: int, moduleId: int, replies: seq<string>): Exchange<()> {
    ModuleRequest(zone, moduleId, "SEP#0#9#" + IntToString(CalculateIntFromTemperatureOffset(temperature)) + "/", replies)
      .Read(ConfirmOkay)
  }

  function GetAntiFreezeTemperature(zone: int, moduleId: int, replies: seq<string>): Exchange<real> {
    ModuleRequest(zone, moduleId, "?E#1#20/", replies).Read(ReadAntiFreeze)
  }

  function SetAntiFreezeTemperature(temperature: real, zone: int, moduleId: int, replies: seq<string>): Exchange<()> {
    ModuleRequest(zone, moduleId, "SEP#1#20#" + IntToString(Trunc(temperature)) + "/", replies).Read(ConfirmOkay)
  }

  function GetBoost(zone: int, moduleId: int, replies: seq<string>): Exchange<int> {
    ModuleRequest(zone, moduleId, "?E#1#22/", replies).Read(ReadBoost)
  }

  /** The number of 5-minute steps a boost of `time` minutes asks for. */
  function BoostSteps(time: int): (steps: int)
    ensures time < 5 ==> steps == 0
    ensures time >= 5 ==> 5 * steps <= time < 5 * steps + 5
    ensures time <= 95 ==> 0 <= steps <= 19
  {
    if time >= 5 then time / 5 else 0
  }

  /** More than 95 minutes is refused before anything is sent. */
  function SetBoost(time: int, zone: int, moduleId: int, replies: seq<string>): (ex: Exchange<()>)
    ensures time > 95 <==> ex.sent == []
    ensures time > 95 ==> ex.result == Failure(InvalidRequest)
  {
    if time > 95 then Exchange([], Failure(InvalidRequest))
    else ModuleRequest(zone, moduleId, "SEP#1#22#" + IntToString(BoostSteps(time)) + "/", replies).Read(ConfirmOkay)
  }

  /** `int(value)` of a flag. */
  function FlagCode(value: bool): int {
    if value then 1 else 0
  }

  function IsWindowOpenDetectionEnabled(zone: int, moduleId: int, replies: seq<string>): Exchange<bool> {
    ModuleRequest(zone, moduleId, "?E#0#6/", replies).Read(ReadFlag)
  }

  function SetWindowOpenDetection(value: bool, zone: int, moduleId: int, replies: seq<string>): Exchange<()> {
    ModuleRequest(zone, moduleId, "SEP#0#6#" + IntToString(FlagCode(value)) + "/", replies).Read(ConfirmOkay)
  }

  function IsSmartStartEnabled(zone: int, moduleId: int, replies: seq<string>): Exchange<bool> {
    ModuleRequest(zone, moduleId, "?E#0#7/", replies).Read(ReadFlag)
  }

  function SetSmartStart(value: bool, zone: int, moduleId: int, replies: seq<string>): Exchange<()> {
    ModuleRequest(zone, moduleId, "SEP#0#7#" + IntToString(FlagCode(value)) + "/", replies).Read(ConfirmOkay)
  }

  function RestartModule(zone: int, moduleId: int, replies: seq<string>): Exchange<ModuleData> {
    ModuleRequest(zone, moduleId, "-TU#0#0#0#0#2/", replies).Read(ReadModuleData)
  }

  // ------------------------------------------------------------ other topology-first operations

  /** `get_module_data` checks the zone only and always addresses the module with "R". */
  function ModuleDataPlan(zones: seq<int>, zone: int, moduleId: int): Result<Request> {
    var check := CheckIfZoneExists(zones, zone);
    if check.Fail? then Failure(check.error)
    else Success(Request(ModuleCommand(Address("R", moduleId), zone, "?F/"), DefaultTimeout))
  }

  function GetModuleData(zone: int, moduleId: int, replies: seq<string>): Exchange<ModuleData> {
    AfterTopology(replies, zones => ModuleDataPlan(zones, zone, moduleId)).Read(ReadModuleData)
  }

  /** "OPZI199,<zone>,<module>/" with the caller's timeout, the module resolved as for
      the per-setting methods. */
  function RegisterPlan(zones: seq<int>, zone: int, moduleId: int, timeout: int): Result<Request> {
    var address :- ResolveAddress(zones, zone, moduleId);
    Success(Request("OPZI199," + IntToString(zone) + "," + IntToString(address.targetModule) + "/", timeout))
  }

  function RegisterModule(zone: int, timeout: int, moduleId: int, replies: seq<string>): Exchange<()> {
    AfterTopology(replies, zones => RegisterPlan(zones, zone, moduleId, timeout)).Read(ConfirmOperationOk)
  }

  /** "OPMW<n + 9>,<n + 1>/" for a gateway with n zones; nothing is checked. */
  function CreateZonePlan(zones: seq<int>): Result<Request> {
    Success(Request("OPMW" + IntToString(|zones| + 9) + "," + IntToString(|zones| + 1) + "/", DefaultTimeout))
  }

  function CreateZone(replies: seq<string>): Exchange<()> {
    AfterTopology(replies, CreateZonePlan).Read(ConfirmOperationOk)
  }

  /** "OPMW<120 + 8 + zone>,0/" once the zone is known to exist. */
  function DeleteZonePlan(zones: seq<int>, zone: int): Result<Request> {
    var check := CheckIfZoneExists(zones, zone);
    if check.Fail? then Failure(check.error)
    else Success(Request("OPMW" + IntToString(120 + 8 + zone) + ",0/", DefaultTimeout))
  }

  function DeleteZone(zone: int, replies: seq<string>): Exchange<()> {
    AfterTopology(replies, zones => DeleteZonePlan(zones, zone)).Read(ConfirmOperationOk)
  }

  // ------------------------------------------------------------ gateway operations

  function GetDateTime(replies: seq<string>): Exchange<GatewayDateTime> {
    Query("OPH/", ReadGatewayDateTime, replies)
  }

  function GetGatewayData(replies: seq<string>): Exchange<GatewayData> {
    Query("OPF/", ReadGatewayData, replies)
  }

  function GetStatus(replies: seq<string>): Exchange<Status> {
    Query("OPS1/", ReadStatus, replies)
  }

  function GetZones(replies: seq<string>): Exchange<seq<int>> {
    Query("OPS2/", ReadZones, replies)
  }

  function GetZonesWithModuleCount(replies: seq<string>): Exchange<seq<int>> {
    Query("OPS3/", ReadZonesWithModuleCount, replies)
  }

  function GetNetworkConfiguration(replies: seq<string>): Exchange<GatewayNetworkConfiguration> {
    Query("OPS38/", ReadNetworkConfiguration, replies)
  }

  /** A calendar date and clock time as a `datetime` holds them. */
  datatype DateTime = DateTime(year: int, month: int, day: int, hour: int, minute: int, second: int) {
    predicate Valid() {
      1 <= year <= 9999 && 1 <= month <= 12 && 1 <= day <= 31
      && 0 <= hour < 24 && 0 <= minute < 60 && 0 <= second < 60
    }
  }

  /** A number below 100 in two digits, as the strftime directives print it. */
  function Pad2(n: nat): (s: string)
    requires n < 100
    ensures |s| == 2 && IsDigits(s) && DigitsValue(s) == n
  {
    DigitsValueOfNatToString(n);
    ZFillDigits(NatToString(n), 2);
    ZFill(NatToString(n), 2)
  }

  /** "OPF<HH><MM><SS><weekday>/<dd>,<mm>,<yy>/", Monday being weekday 0. */
  function SetDateTimeCommand(target: DateTime, weekday: int): string
    requires target.Valid() && 0 <= weekday <= 6
  {
    ClockText(target, weekday) + DateText(target)
  }

  /** "OPF" + HH + MM + SS + weekday + "/". */
  function ClockText(target: DateTime, weekday: int): string
    requires target.Valid() && 0 <= weekday <= 6
  {
    "OPF" + Pad2(target.hour) + Pad2(target.minute) + Pad2(target.second) + IntToString(weekday) + "/"
  }

  /** dd + "," + mm + "," + yy + "/". */
  function DateText(target: DateTime): string
    requires target.Valid()
  {
    Pad2(target.day) + "," + Pad2(target.month) + "," + Pad2(target.year % 100) + "/"
  }

  function SetDateTime(target: DateTime, weekday: int, replies: seq<string>): Exchange<()>
    requires target.Valid() && 0 <= weekday <= 6
  {
    Query(SetDateTimeCommand(target, weekday), ConfirmOperationOk, replies)
  }

  /** The clock half of the command, part by part. */
  lemma ClockTextLayout(target: DateTime, weekday: int)
    requires target.Valid() && 0 <= weekday <= 6
    ensures var t := ClockText(target, weekday);
      && |t| == 11 && t[..3] == "OPF" && t[10] == '/'
      && ParseInt(t[3..5]) == Some(target.hour)
      && ParseInt(t[5..7]) == Some(target.minute)
      && ParseInt(t[7..9]) == Some(target.second)
      && ParseInt(t[9..10]) == Some(weekday)
  {
    var h, mi, s := Pad2(target.hour), Pad2(target.minute), Pad2(target.second);
    var w := IntToString(weekday);
    ParseIntToString(weekday);
    var t := "OPF" + h + mi + s + w + "/";
    assert t[3..5] == h && t[5..7] == mi && t[7..9] == s && t[9..10] == w;
  }

  /** The date half of the command, part by part. */
  lemma DateTextLayout(target: DateTime)
    requires target.Valid()
    ensures var t := DateText(target);
      && |t| == 9 && t[2] == ',' && t[5] == ',' && t[8] == '/'
      && ParseInt(t[..2]) == Some(target.day)
      && ParseInt(t[3..5]) == Some(target.month)
      && ParseInt(t[6..8]) == Some(target.year % 100)
  {
    var d, mo, y := Pad2(target.day), Pad2(target.month), Pad2(target.year % 100);
    var t := d + "," + mo + "," + y + "/";
    assert t[..2] == d && t[3..5] == mo && t[6..8] == y;
  }

  /** Every part of the date-time command sits at a fixed position and reads back as the
      value it was built from: the command is 20 characters and decodable. */
  lemma SetDateTimeCommandLayout(target: DateTime, weekday: int)
    requires target.Valid() && 0 <= weekday <= 6
    ensures var c := SetDateTimeCommand(target, weekday);
      && |c| == 20 && c[..3] == "OPF" && c[10] == '/' && c[13] == ',' && c[16] == ',' && c[19] == '/'
      && ParseInt(c[3..5]) == Some(target.hour)
      && ParseInt(c[5..7]) == Some(target.minute)
      && ParseInt(c[7..9]) == Some(target.second)
      && ParseInt(c[9..10]) == Some(weekday)
      && ParseInt(c[11..13]) == Some(target.day)
      && ParseInt(c[14..16]) == Some(target.month)
      && ParseInt(c[17..19]) == Some(target.year % 100)
  {
    ClockTextLayout(target, weekday);
    DateTextLayout(target);
    HalvesAt(ClockText(target, weekday), DateText(target));
  }

  /** Where the characters of the two halves land in the whole command. */
  lemma HalvesAt(clock: string, date: string)
    requires |clock| == 11 && |date| == 9
    ensures var c := clock + date;
      && |c| == 20 && c[..3] == clock[..3] && c[10] == clock[10]
      && c[3..5] == clock[3..5] && c[5..7] == clock[5..7] && c[7..9] == clock[7..9] && c[9..10] == clock[9..10]
      && c[13] == date[2] && c[16] == date[5] && c[19] == date[8]
      && c[11..13] == date[..2] && c[14..16] == date[3..5] && c[17..19] == date[6..8]
  {
  }

  // ------------------------------------------------------------ ping

  /** `ping` as written: the `return False` in its `finally` overrides every other exit. */
  function PingAsWritten(replies: seq<string>): (ex: Exchange<bool>)
    ensures ex.sent == [Request("PING", DefaultTimeout)]
    ensures ex.result == Success(false)
  {
    Exchange([Request("PING", DefaultTimeout)], Success(false))
  }

  /** `ping` as intended: alive exactly when the answer starts with "OP". */
  function Ping(replies: seq<string>): (ex: Exchange<bool>)
    ensures ex.sent == [Request("PING", DefaultTimeout)]
    ensures ex.result.Success?
    ensures ex.result.value <==> StartsWith(Answer(replies, 0), Operation)
    ensures |replies| == 0 ==> !ex.result.value
  {
    assert UnexpectedError[..2][1] != Operation[1];
    Exchange([Request("PING", DefaultTimeout)], Success(StartsWith(Answer(replies, 0), Operation)))
  }

  /** A gateway that answers "OP" is reported dead by the code as written and alive by
      the corrected version; a silent gateway is dead under both. */
  lemma PingAnswersFalseToLiveGateway()
    ensures PingAsWritten(["OP"]).result == Success(false)
    ensures Ping(["OP"]).result == Success(true)
    ensures Ping([]).result == PingAsWritten([]).result
  {
  }

  // ------------------------------------------------------------ replies built from values

  /** Text in which the letter 'O' and the comma do not occur: a payload field. Every identifier
      a reply is accepted by starts with 'O', so a payload without that letter cannot hold the
      identifier and removing it touches only the leading copy; a field that did hold it would
      lose it to the `replace` of the source too, so such fields are outside these lemmas. */
  predicate PlainField(f: string) {
    'O' !in f && ',' !in f
  }

  /** `str` of every number, in order. */
  function IntTexts(values: seq<int>): (texts: seq<string>)
    ensures |texts| == |values|
    ensures forall k :: 0 <= k < |values| ==> texts[k] == IntToString(values[k])
  {
    seq(|values|, k requires 0 <= k < |values| => IntToString(values[k]))
  }

  lemma IntTextsPlain(values: seq<int>)
    ensures forall k :: 0 <= k < |values| ==> PlainField(IntTexts(values)[k])
  {
    forall k | 0 <= k < |values|
      ensures PlainField(IntTexts(values)[k])
    {
      IntToStringChars(values[k]);
    }
  }

  /** A reply made of an identifier starting with 'O' and plain fields joined by commas is
      accepted, and its fields come back exactly. */
  lemma ReplyFields(identifier: string, fields: seq<string>)
    requires |identifier| > 0 && identifier[0] == 'O'
    requires |fields| >= 1 && forall k :: 0 <= k < |fields| ==> PlainField(fields[k])
    ensures AcceptFields(identifier + Join(fields, ','), identifier) == Success(fields)
  {
    var payload := Join(fields, ',');
    JoinChars(fields, ',', 'O');
    AbsentByFirstChar(identifier, payload);
    RemoveLeading(identifier, payload);
    assert (identifier + payload)[..|identifier|] == identifier;
    SplitJoin(fields, ',');
  }

  /** "OK," then `str(n)` reads back as n. */
  lemma NumberReply(n: int)
    ensures AcceptNumber(Okay + "," + IntToString(n)) == Success(n)
  {
    var payload := IntToString(n);
    IntToStringChars(n);
    AbsentByFirstChar(Okay + ",", payload);
    RemoveLeading(Okay + ",", payload);
    assert (Okay + "," + payload)[..3] == Okay + ",";
    ParseIntToString(n);
  }

  /** A list of numbers written as the gateway writes it reads back as the same list. */
  lemma IntListReply(operation: string, values: seq<int>)
    requires |values| >= 1
    ensures ReadIntList(operation, EchoIdentifier(operation) + Join(IntTexts(values), ',')) == Success(values)
  {
    var texts := IntTexts(values);
    IntTextsPlain(values);
    ReplyFields(EchoIdentifier(operation), texts);
    forall k | 0 <= k < |texts|
      ensures ParseInt(texts[k]) == Some(values[k])
    {
      ParseIntToString(values[k]);
    }
    var r := ParseIntFields(texts);
    assert r.Success?;
    assert r.value == values by {
      forall k | 0 <= k < |values|
        ensures r.value[k] == values[k]
      {
        assert Some(r.value[k]) == ParseInt(texts[k]);
      }
    }
  }

  /** An echo with no fields after it is not an empty list: `int("")` fails. */
  lemma EmptyListIsMalformed(operation: string)
    ensures ReadIntList(operation, EchoIdentifier(operation)) == Failure(MalformedPayload)
  {
    var id := EchoIdentifier(operation);
    AbsentByFirstChar(id, "");
    RemoveLeading(id, "");
    assert id + "" == id;
    assert id[..|id|] == id;
  }

  /** `get_status` keeps fields 0, 5 and 6 of what follows "OPOK,OPS1,". */
  lemma StatusReply(fields: seq<string>)
    requires |fields| >= 7 && forall k :: 0 <= k < |fields| ==> PlainField(fields[k])
    ensures ReadStatus(EchoIdentifier("OPS1") + Join(fields, ',')) == Success(Status(fields[0], fields[5], fields[6]))
  {
    ReplyFields(EchoIdentifier("OPS1"), fields);
  }

  /** `get_gateway_data` keeps the first three fields after "OPOK,". */
  lemma GatewayDataReply(fields: seq<string>)
    requires |fields| >= 3 && forall k :: 0 <= k < |fields| ==> PlainField(fields[k])
    ensures ReadGatewayData(OperationOk + "," + Join(fields, ',')) == Success(GatewayData(fields[0], fields[1], fields[2]))
  {
    ReplyFields(OperationOk + ",", fields);
  }

  // ------------------------------------------------------------ a set, then a get

  /** A boost set to `time` minutes and read back is `time` rounded down to whole 5-minute
      steps, and 0 below 5 minutes: the step count the set sends is what the get multiplies. */
  lemma BoostSetThenGet(time: int)
    requires time <= 95
    ensures ReadBoost(Okay + "," + IntToString(BoostSteps(time))) == Success(if time >= 5 then time - time % 5 else 0)
  {
    NumberReply(BoostSteps(time));
  }

  /** An anti-freeze temperature in whole degrees other than 255 is read back unchanged;
      a fraction is cut off by the set. */
  lemma AntiFreezeSetThenGet(temperature: real)
    requires Trunc(temperature) != 255
    ensures ReadAntiFreeze(Okay + "," + IntToString(Trunc(temperature))) == Success(Trunc(temperature) as real)
    ensures IsWhole(temperature) ==> ReadAntiFreeze(Okay + "," + IntToString(Trunc(temperature))) == Success(temperature)
  {
    var n := Trunc(temperature);
    NumberReply(n);
    if IsWhole(temperature) {
      assert -temperature == (-temperature.Floor) as real;
      assert n as real == temperature;
    }
  }

  /** A flag set and read back is the flag. */
  lemma FlagSetThenGet(value: bool)
    ensures ReadFlag(Okay + "," + IntToString(FlagCode(value))) == Success(value)
  {
    NumberReply(FlagCode(value));
  }

  /** The module record and the single-setting reading agree on a flag exactly for the codes
      the set commands send, 0 and 1: any other nonzero code is on for `_is_smart_start` and
      `_is_window`, which take `bool(int(...))`, but off in ModuleData, which compares with 1. */
  lemma FlagReadingsAgree(m: ModuleData, raw: int)
    ensures ReadFlag(Okay + "," + IntToString(raw)) == Success(m.(smartStart := raw).IsSmartStartEnabled())
        <==> raw == 0 || raw == 1
    ensures ReadFlag(Okay + "," + IntToString(raw)) == Success(m.(windowOpenDetection := raw).IsWindowOpenDetectionEnabled())
        <==> raw == 0 || raw == 1
  {
    NumberReply(raw);
  }

  /** An offset in whole tenths within one signed byte is read back unchanged. */
  lemma OffsetSetThenGet(temperature: real)
    requires IsWhole(10.0 * temperature) && -12.8 <= temperature <= 12.7
    ensures ReadOffset(Okay + "," + IntToString(CalculateIntFromTemperatureOffset(temperature))) == Success(temperature)
  {
    var code := CalculateIntFromTemperatureOffset(temperature);
    IntTextsPlain([code]);
    ReplyFields(Okay + ",", [IntToString(code)]);
    assert Join([IntToString(code)], ',') == IntToString(code);
    ParseIntToString(code);
    OffsetRoundTrip(temperature);
  }

  /** A target temperature in whole degrees up to 128, or in half degrees from 1.5, is read
      back unchanged next to the module's current temperature. */
  lemma TemperatureSetThenGet(temperature: real, main: int, second: nat)
    requires (IsWhole(temperature) && temperature <= 128.0) || (IsWhole(temperature - 0.5) && temperature >= 1.5)
    ensures var fields := IntTexts([main, second, CalculateIntFromTemperature(temperature)]);
      ReadTemperature(Okay + "," + Join(fields, ','))
      == Success(Temperature(CreateCurrentTemperature(main, second).value, temperature))
  {
    var values := [main, second, CalculateIntFromTemperature(temperature)];
    var fields := IntTexts(values);
    IntTextsPlain(values);
    ReplyFields(Okay + ",", fields);
    assert fields == [IntToString(main), IntToString(second), IntToString(values[2])];
    DecodeTemperatureOfCodes(main, second, values[2], []);
    assert fields + [] == fields;
    TemperatureHalfStepRoundTrip(temperature);
  }
}
