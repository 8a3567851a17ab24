/** The client object of thermotecaeroflowflexismart/client.py and the transport it
    talks through. The transport is a gateway that answers each request with the next of
    its pending replies; every method performs its exchange step by step, as the source
    does, and is proved to send exactly the requests and return exactly the result the
    Protocol module specifies for those replies. */
module Client {
  import opened Wrappers
  import opened Text
  import opened Utils
  import opened DataObject
  import opened Protocol

  /** The gateway as the client sees it: every request made so far, and the replies it
      has yet to give. Once they run out, each request times out and the transport
      answers "UNEXPECTED_ERROR". */
  class Gateway {
    var sent: seq<Request>
    var replies: seq<string>

    constructor (replies: seq<string>)
      ensures sent == [] && this.replies == replies
    {
      sent := [];
      this.replies := replies;
    }

    /** Sends one message and returns the reply, or the fallback text after a timeout. */
    method SendMessageGetResponse(message: string, timeout: int) returns (response: string)
      modifies this
      ensures sent == old(sent) + [Request(message, timeout)]
      ensures response == Answer(old(replies), 0)
      ensures replies == Drop(old(replies), 1)
    {
      sent := sent + [Request(message, timeout)];
      if |replies| > 0 {
        response := replies[0];
        replies := replies[1..];
      } else {
        response := UnexpectedError;
      }
    }
  }

  /** The append loop of `get_zones` and `get_zones_with_module_count`: `int` of every
      field, in order, stopping at the first field that is not a number. */
  method IntFields(data: seq<string>) returns (r: Result<seq<int>>)
    ensures r == ParseIntFields(data)
  {
    var zones: seq<int> := [];
    var i := 0;
    while i < |data|
      invariant 0 <= i <= |data|
      invariant |zones| == i
      invariant forall k :: 0 <= k < i ==> Some(zones[k]) == ParseInt(data[k])
    {
      var value := ParseInt(data[i]);
      if value.None? {
        return Failure(MalformedPayload);
      }
      zones := zones + [value.value];
      i := i + 1;
    }
    var expected := ParseIntFields(data);
    assert expected.Success? && expected.value == zones by {
      forall k | 0 <= k < |data|
        ensures expected.value[k] == zones[k]
      {
        assert Some(expected.value[k]) == ParseInt(data[k]);
      }
    }
    return Success(zones);
  }

  class Client {
    const gateway: Gateway

    /** A client bound to a gateway that will give `replies`. */
    constructor (replies: seq<string>)
      ensures fresh(gateway) && gateway.sent == [] && gateway.replies == replies
    {
      gateway := new Gateway(replies);
    }

    /** Between the pre-state and now, the gateway saw exactly the requests of `ex`, used
        up one reply for each, and the method returned the result of `ex`. */
    twostate predicate Performed<T>(new ex: Exchange<T>, new r: Result<T>)
      reads gateway
    {
      && gateway.sent == old(gateway.sent) + ex.sent
      && gateway.replies == Drop(old(gateway.replies), |ex.sent|)
      && r == ex.result
    }

    // ---------------------------------------------------------- gateway operations

    /** `ping`, corrected: alive exactly when the answer starts with "OP". */
    method Ping() returns (alive: bool)
      modifies gateway
      ensures Performed(Protocol.Ping(old(gateway.replies)), Success(alive))
    {
      var response := gateway.SendMessageGetResponse("PING", DefaultTimeout);
      alive := StartsWith(response, Operation);
    }

    /** `ping` as written: whatever the try block returns or raises, the `finally`
        clause returns False. */
    method PingAsWritten() returns (alive: bool)
      modifies gateway
      ensures Performed(Protocol.PingAsWritten(old(gateway.replies)), Success(alive))
    {
      var response := gateway.SendMessageGetResponse("PING", DefaultTimeout);
      alive := StartsWith(response, Operation);
      alive := false;
    }

    method GetDateTime() returns (r: Result<GatewayDateTime>)
      modifies gateway
      ensures Performed(Protocol.GetDateTime(old(gateway.replies)), r)
    {
      var response := gateway.SendMessageGetResponse("OPH/", DefaultTimeout);
      var data :- AcceptFields(response, OperationOk + ",");
      r := DecodeGatewayDateTime(data);
    }

    /** `set_date_time`, the weekday (Monday 0) given with the date. */
    method SetDateTime(target: DateTime, weekday: int) returns (r: Result<()>)
      requires target.Valid() && 0 <= weekday <= 6
      modifies gateway
      ensures Performed(Protocol.SetDateTime(target, weekday, old(gateway.replies)), r)
    {
      var response := gateway.SendMessageGetResponse(SetDateTimeCommand(target, weekday), DefaultTimeout);
      r := Confirm(response, OperationOk);
    }

    method GetGatewayData() returns (r: Result<GatewayData>)
      modifies gateway
      ensures Performed(Protocol.GetGatewayData(old(gateway.replies)), r)
    {
      var response := gateway.SendMessageGetResponse("OPF/", DefaultTimeout);
      var data :- AcceptFields(response, OperationOk + ",");
      r := DecodeGatewayData(data);
    }

    method GetStatus() returns (r: Result<Status>)
      modifies gateway
      ensures Performed(Protocol.GetStatus(old(gateway.replies)), r)
    {
      var response := gateway.SendMessageGetResponse("OPS1/", DefaultTimeout);
      var data :- AcceptFields(response, EchoIdentifier("OPS1"));
      if |data| < 7 {
        return Failure(MalformedPayload);
      }
      r := Success(Status(data[0], data[5], data[6]));
    }

    method GetZones() returns (r: Result<seq<int>>)
      modifies gateway
      ensures Performed(Protocol.GetZones(old(gateway.replies)), r)
    {
      var response := gateway.SendMessageGetResponse("OPS2/", DefaultTimeout);
      var data :- AcceptFields(response, EchoIdentifier("OPS2"));
      r := IntFields(data);
    }

    /** The topology: the module count of every zone, zone 1 first. */
    method GetZonesWithModuleCount() returns (r: Result<seq<int>>)
      modifies gateway
      ensures Performed(Protocol.GetZonesWithModuleCount(old(gateway.replies)), r)
    {
      var response := gateway.SendMessageGetResponse("OPS3/", DefaultTimeout);
      var data :- AcceptFields(response, EchoIdentifier("OPS3"));
      r := IntFields(data);
    }

    method GetNetworkConfiguration() returns (r: Result<GatewayNetworkConfiguration>)
      modifies gateway
      ensures Performed(Protocol.GetNetworkConfiguration(old(gateway.replies)), r)
    {
      var response := gateway.SendMessageGetResponse("OPS38/", DefaultTimeout);
      var data :- AcceptFields(response, EchoIdentifier("OPS38"));
      r := DecodeNetworkConfiguration(data);
    }

    // ---------------------------------------------------------- zones and registration

    method CreateZone() returns (r: Result<()>)
      modifies gateway
      ensures Performed(Protocol.CreateZone(old(gateway.replies)), r)
    {
      ghost var before := gateway.replies;
      var zones :- GetZonesWithModuleCount();
      var totalZones := |zones|;
      var zonePosition := totalZones + 9;
      var newZoneId := totalZones + 1;
      var command := "OPMW" + IntToString(zonePosition) + "," + IntToString(newZoneId) + "/";
      var response := gateway.SendMessageGetResponse(command, DefaultTimeout);
      AnswerAfterDrop(before, 1, 0);
      DropDrop(before, 1, 1);
      r := Confirm(response, OperationOk);
    }

    method DeleteZone(zone: int) returns (r: Result<()>)
      modifies gateway
      ensures Performed(Protocol.DeleteZone(zone, old(gateway.replies)), r)
    {
      ghost var before := gateway.replies;
      var zones :- GetZonesWithModuleCount();
      :- CheckIfZoneExists(zones, zone);
      var bigZoneId := 120 + 8 + zone;
      var command := "OPMW" + IntToString(bigZoneId) + ",0/";
      var response := gateway.SendMessageGetResponse(command, DefaultTimeout);
      AnswerAfterDrop(before, 1, 0);
      DropDrop(before, 1, 1);
      r := Confirm(response, OperationOk);
    }

    /** `_register_module`: the module is resolved as for the per-setting methods and the
        request carries the caller's timeout. */
    method RegisterModule(zone: int, timeout: int, moduleId: int) returns (r: Result<()>)
      modifies gateway
      ensures Performed(Protocol.RegisterModule(zone, timeout, moduleId, old(gateway.replies)), r)
    {
      ghost var before := gateway.replies;
      var zones :- GetZonesWithModuleCount();
      :- CheckIfZoneExists(zones, zone);
      var targetModule := zones[zone - 1];
      if moduleId != -1 {
        :- CheckIfModuleIsValid(targetModule, moduleId);
        targetModule := moduleId;
      }
      assert ResolveAddress(zones, zone, moduleId).value.targetModule == targetModule;
      var command := "OPZI199," + IntToString(zone) + "," + IntToString(targetModule) + "/";
      assert RegisterPlan(zones, zone, moduleId, timeout) == Success(Request(command, timeout));
      var response := gateway.SendMessageGetResponse(command, timeout);
      AnswerAfterDrop(before, 1, 0);
      DropDrop(before, 1, 1);
      r := Confirm(response, OperationOk);
    }

    /** `get_module_data`: the zone is checked, the module is not, and "R" is always used. */
    method GetModuleData(zone: int, moduleId: int) returns (r: Result<ModuleData>)
      modifies gateway
      ensures Performed(Protocol.GetModuleData(zone, moduleId, old(gateway.replies)), r)
    {
      ghost var before := gateway.replies;
      var zones :- GetZonesWithModuleCount();
      :- CheckIfZoneExists(zones, zone);
      var command := ModuleCommand(Address("R", moduleId), zone, "?F/");
      var response := gateway.SendMessageGetResponse(command, DefaultTimeout);
      AnswerAfterDrop(before, 1, 0);
      DropDrop(before, 1, 1);
      var data :- AcceptFields(response, Okay + ",");
      r := DecodeModuleData(data);
    }

    // ---------------------------------------------------------- per-setting operations

    /** The part every private per-setting method repeats: the topology, the zone check,
        then "D" with the zone's module count, or "R" with the given module once it is
        checked, and the one command; the result is that command's raw reply. */
    method SendToModule(zone: int, moduleId: int, suffix: string) returns (r: Result<string>)
      modifies gateway
      ensures Performed(ModuleRequest(zone, moduleId, suffix, old(gateway.replies)), r)
    {
      ghost var before := gateway.replies;
      var zones :- GetZonesWithModuleCount();
      :- CheckIfZoneExists(zones, zone);
      var operation := "D";
      var targetModule := zones[zone - 1];
      if moduleId != -1 {
        :- CheckIfModuleIsValid(targetModule, moduleId);
        operation := "R";
        targetModule := moduleId;
      }
      var command := ModuleCommand(Address(operation, targetModule), zone, suffix);
      var response := gateway.SendMessageGetResponse(command, DefaultTimeout);
      AnswerAfterDrop(before, 1, 0);
      DropDrop(before, 1, 1);
      r := Success(response);
    }

    method GetTemperature(zone: int, moduleId: int) returns (r: Result<Temperature>)
      modifies gateway
      ensures Performed(Protocol.GetTemperature(zone, moduleId, old(gateway.replies)), r)
    {
      var response :- SendToModule(zone, moduleId, "?T/");
      var data :- AcceptFields(response, Okay + ",");
      r := DecodeTemperature(data);
    }

    method SetTemperature(temperature: real, zone: int, moduleId: int) returns (r: Result<()>)
      modifies gateway
      ensures Performed(Protocol.SetTemperature(temperature, zone, moduleId, old(gateway.replies)), r)
    {
      var targetTemperature := CalculateIntFromTemperature(temperature);
      var response :- SendToModule(zone, moduleId, "T" + IntToString(targetTemperature) + "/");
      r := Confirm(response, Okay);
    }

    method GetTemperatureOffset(zone: int, moduleId: int) returns (r: Result<real>)
      modifies gateway
      ensures Performed(Protocol.GetTemperatureOffset(zone, moduleId, old(gateway.replies)), r)
    {
      var response :- SendToModule(zone, moduleId, "?E#0#9/");
      var data :- AcceptFields(response, Okay + ",");
      var code :- IntField(data, 0);
      r := Success(CalculateTemperatureOffsetFromInt(code));
    }

    method SetTemperatureOffset(temperature: real, zone: int, moduleId: int) returns (r: Result<()>)
      modifies gateway
      ensures Performed(Protocol.SetTemperatureOffset(temperature, zone, moduleId, old(gateway.replies)), r)
    {
      var targetTemperature := CalculateIntFromTemperatureOffset(temperature);
      var response :- SendToModule(zone, moduleId, "SEP#0#9#" + IntToString(targetTemperature) + "/");
      r := Confirm(response, Okay);
    }

    method GetAntiFreezeTemperature(zone: int, moduleId: int) returns (r: Result<real>)
      modifies gateway
      ensures Performed(Protocol.GetAntiFreezeTemperature(zone, moduleId, old(gateway.replies)), r)
    {
      var response :- SendToModule(zone, moduleId, "?E#1#20/");
      var data :- AcceptNumber(response);
      if data == 255 {
        data := 5;
      }
      r := Success(data as real);
    }

    method SetAntiFreezeTemperature(temperature: real, zone: int, moduleId: int) returns (r: Result<()>)
      modifies gateway
      ensures Performed(Protocol.SetAntiFreezeTemperature(temperature, zone, moduleId, old(gateway.replies)), r)
    {
      var targetTemperature := Trunc(temperature);
      var response :- SendToModule(zone, moduleId, "SEP#1#20#" + IntToString(targetTemperature) + "/");
      r := Confirm(response, Okay);
    }

    method GetBoost(zone: int, moduleId: int) returns (r: Result<int>)
      modifies gateway
      ensures Performed(Protocol.GetBoost(zone, moduleId, old(gateway.replies)), r)
    {
      var response :- SendToModule(zone, moduleId, "?E#1#22/");
      var data :- AcceptNumber(response);
      if data == 255 {
        data := 0;
      }
      r := Success(data * 5);
    }

    /** More than 95 minutes is refused before the topology is fetched. */
    method SetBoost(time: int, zone: int, moduleId: int) returns (r: Result<()>)
      modifies gateway
      ensures Performed(Protocol.SetBoost(time, zone, moduleId, old(gateway.replies)), r)
    {
      if time > 95 {
        return Failure(InvalidRequest);
      }
      var targetTime := 0;
      if time >= 5 {
        targetTime := time / 5;
      }
      var response :- SendToModule(zone, moduleId, "SEP#1#22#" + IntToString(targetTime) + "/");
      r := Confirm(response, Okay);
    }

    method IsWindowOpenDetectionEnabled(zone: int, moduleId: int) returns (r: Result<bool>)
      modifies gateway
      ensures Performed(Protocol.IsWindowOpenDetectionEnabled(zone, moduleId, old(gateway.replies)), r)
    {
      var response :- SendToModule(zone, moduleId, "?E#0#6/");
      var data :- AcceptNumber(response);
      r := Success(data != 0);
    }

    method SetWindowOpenDetection(value: bool, zone: int, moduleId: int) returns (r: Result<()>)
      modifies gateway
      ensures Performed(Protocol.SetWindowOpenDetection(value, zone, moduleId, old(gateway.replies)), r)
    {
      var targetValue := if value then 1 else 0;
      var response :- SendToModule(zone, moduleId, "SEP#0#6#" + IntToString(targetValue) + "/");
      r := Confirm(response, Okay);
    }

    method IsSmartStartEnabled(zone: int, moduleId: int) returns (r: Result<bool>)
      modifies gateway
      ensures Performed(Protocol.IsSmartStartEnabled(zone, moduleId, old(gateway.replies)), r)
    {
      var response :- SendToModule(zone, moduleId, "?E#0#7/");
      var data :- AcceptNumber(response);
      r := Success(data != 0);
    }

    method SetSmartStart(value: bool, zone: int, moduleId: int) returns (r: Result<()>)
      modifies gateway
      ensures Performed(Protocol.SetSmartStart(value, zone, moduleId, old(gateway.replies)), r)
    {
      var targetValue := if value then 1 else 0;
      var response :- SendToModule(zone, moduleId, "SEP#0#7#" + IntToString(targetValue) + "/");
      r := Confirm(response, Okay);
    }

    method RestartModule(zone: int, moduleId: int) returns (r: Result<ModuleData>)
      modifies gateway
      ensures Performed(Protocol.RestartModule(zone, moduleId, old(gateway.replies)), r)
    {
      var response :- SendToModule(zone, moduleId, "-TU#0#0#0#0#2/");
      var data :- AcceptFields(response, Okay + ",");
      r := DecodeModuleData(data);
    }
  }
}
