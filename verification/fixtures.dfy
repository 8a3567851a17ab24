/** Whole exchanges on the wire fixtures of the repository's tests: the gateway's
    replies in, the requests sent and the result out. */
module Fixtures {
  import opened Wrappers
  import opened Text
  import opened Utils
  import opened DataObject
  import opened Protocol

  /** The topology most fixtures start with: three zones holding 1, 2 and 3 modules. */
  const Topology := "OPOK,OPS3,1,2,3"

  const Ops3 := Request("OPS3/", DefaultTimeout)

  // ------------------------------------------------------------ texts and replies

  lemma SmallTexts()
    ensures IntToString(0) == "0" && IntToString(1) == "1" && IntToString(2) == "2" && IntToString(3) == "3"
    ensures IntToString(4) == "4" && IntToString(6) == "6"
  {
  }

  lemma TwelveText()
    ensures IntToString(12) == "12"
  {
    assert NatToString(12) == NatToString(1) + [DigitChar(2)];
  }

  lemma OneTwentyNineText()
    ensures IntToString(129) == "129"
  {
    TwelveText();
    assert NatToString(129) == NatToString(12) + [DigitChar(9)];
  }

  lemma Ops3Echo()
    ensures EchoIdentifier("OPS3") == "OPOK,OPS3,"
  {
  }

  lemma TopologyPayload()
    ensures Join(IntTexts([1, 2, 3]), ',') == "1,2,3"
  {
    SmallTexts();
    assert IntTexts([1, 2, 3]) == ["1", "2", "3"];
  }

  lemma TopologyReply()
    ensures ReadZonesWithModuleCount(Topology) == Success([1, 2, 3])
  {
    Ops3Echo();
    TopologyPayload();
    assert "OPOK,OPS3," + "1,2,3" == Topology;
    IntListReply("OPS3", [1, 2, 3]);
  }

  lemma CountsPayload()
    ensures Join(IntTexts([1, 1, 0, 3]), ',') == "1,1,0,3"
  {
    SmallTexts();
    assert IntTexts([1, 1, 0, 3]) == ["1", "1", "0", "3"];
  }

  /** "OPOK,OPS3,1,1,0,3" is the list [1, 1, 0, 3]. */
  lemma ZonesWithModuleCountFixture()
    ensures GetZonesWithModuleCount(["OPOK,OPS3,1,1,0,3"]) == Exchange([Ops3], Success([1, 1, 0, 3]))
  {
    Ops3Echo();
    CountsPayload();
    assert "OPOK,OPS3," + "1,1,0,3" == "OPOK,OPS3,1,1,0,3";
    IntListReply("OPS3", [1, 1, 0, 3]);
  }

  lemma TemperaturePayload()
    ensures Okay + "," + Join(["18", "08", "20"], ',') == "OK,18,08,20"
  {
    assert Join(["18", "08", "20"], ',') == "18,08,20";
  }

  lemma TemperatureReply()
    ensures ReadTemperature("OK,18,08,20") == Success(Temperature(18.8, 20.0))
  {
    TemperaturePayload();
    ReplyFields(Okay + ",", ["18", "08", "20"]);
    DecodeTemperatureExample();
  }

  lemma Confirmations()
    ensures ConfirmOkay("OK") == Success(()) && ConfirmOperationOk("OPOK") == Success(())
  {
    assert StartsWith("OK", Okay) && StartsWith("OPOK", OperationOk);
  }

  // ------------------------------------------------------------ module commands

  /** Zone 1 of that topology holds one module: a zone command names module 1 with "D",
      a module command names its module with "R", and module 2 is refused. */
  lemma ZoneOneAddresses()
    ensures ResolveAddress([1, 2, 3], 1, -1) == Success(Address("D", 1))
    ensures ResolveAddress([1, 2, 3], 1, 1) == Success(Address("R", 1))
    ensures ResolveAddress([1, 2, 3], 1, 2) == Failure(InvalidModule)
    ensures ResolveAddress([1, 2, 3], 4, -1) == Failure(ZoneOutOfRange(1, 3, 4))
  {
  }

  lemma ZoneOneCommand(operation: string, suffix: string)
    ensures ModuleCommand(Address(operation, 1), 1, suffix) == operation + "#1#1#0#0*" + suffix
  {
    SmallTexts();
  }

  /** On that topology an addressable module command is sent second and its reply is kept. */
  lemma ModuleOnTopology(zone: int, moduleId: int, address: Address, suffix: string, reply: string)
    requires ResolveAddress([1, 2, 3], zone, moduleId) == Success(address)
    ensures ModuleRequest(zone, moduleId, suffix, [Topology, reply])
         == Exchange([Ops3, Request(ModuleCommand(address, zone, suffix), DefaultTimeout)], Success(reply))
  {
    TopologyReply();
    ModuleRequestAddressing(zone, moduleId, suffix, [Topology, reply]);
  }

  /** The head of a command to zone 1 of that topology, for the zone and for its module. */
  const ZoneHead := "D#1#1#0#0*"
  const ModuleHead := "R#1#1#0#0*"

  lemma Heads()
    ensures "D" + "#1#1#0#0*" == ZoneHead && "R" + "#1#1#0#0*" == ModuleHead
  {
  }

  /** A request to zone 1 of that topology: the command its address resolves to, then the reply. */
  lemma ZoneOneRequest(operation: string, head: string, moduleId: int, suffix: string, reply: string)
    requires ResolveAddress([1, 2, 3], 1, moduleId) == Success(Address(operation, 1))
    requires head == operation + "#1#1#0#0*"
    ensures ModuleRequest(1, moduleId, suffix, [Topology, reply])
         == Exchange([Ops3, Request(head + suffix, DefaultTimeout)], Success(reply))
  {
    ModuleOnTopology(1, moduleId, Address(operation, 1), suffix, reply);
    ZoneOneCommand(operation, suffix);
  }

  // ------------------------------------------------------------ per-setting exchanges

  /** A zone read goes to "D" with the zone's module count. */
  lemma GetZoneTemperatureFixture()
    ensures GetTemperature(1, -1, [Topology, "OK,18,08,20"])
         == Exchange([Ops3, Request(ZoneHead + "?T/", DefaultTimeout)], Success(Temperature(18.8, 20.0)))
  {
    ZoneOneAddresses();
    Heads();
    ZoneOneRequest("D", ZoneHead, -1, "?T/", "OK,18,08,20");
    TemperatureReply();
  }

  /** A module read goes to "R" with the module's id. */
  lemma GetModuleTemperatureFixture()
    ensures GetTemperature(1, 1, [Topology, "OK,18,08,20"])
         == Exchange([Ops3, Request(ModuleHead + "?T/", DefaultTimeout)], Success(Temperature(18.8, 20.0)))
  {
    ZoneOneAddresses();
    Heads();
    ZoneOneRequest("R", ModuleHead, 1, "?T/", "OK,18,08,20");
    TemperatureReply();
  }

  /** A zone beyond the topology, or a module beyond the zone's count, stops after "OPS3/". */
  lemma AddressingFailureFixture()
    ensures GetTemperature(4, -1, [Topology, "OK,18,08,20"]) == Exchange([Ops3], Failure(ZoneOutOfRange(1, 3, 4)))
    ensures GetTemperature(1, 2, [Topology, "OK,18,08,20"]) == Exchange([Ops3], Failure(InvalidModule))
  {
    TopologyReply();
    ZoneOneAddresses();
    ModuleRequestAddressing(4, -1, "?T/", [Topology, "OK,18,08,20"]);
    ModuleRequestAddressing(1, 2, "?T/", [Topology, "OK,18,08,20"]);
  }

  /** A gateway with no zones: "OPOK,OPS3," is not an empty list but an unreadable one. */
  lemma NoZonesFixture()
    ensures GetTemperature(1, -1, ["OPOK,OPS3,"]) == Exchange([Ops3], Failure(MalformedPayload))
  {
    EmptyListIsMalformed("OPS3");
    assert EchoIdentifier("OPS3") == "OPOK,OPS3,";
  }

  /** A gateway that falls silent after the topology: the transport's fallback text is
      not an "OK," reply. */
  lemma TimeoutFixture()
    ensures GetTemperature(1, -1, [Topology]).result == Failure(InvalidResponse)
  {
    TopologyReply();
    ZoneOneAddresses();
    ModuleRequestAddressing(1, -1, "?T/", [Topology]);
    assert Answer([Topology], 1) == UnexpectedError;
    assert !StartsWith(UnexpectedError, Okay + ",") by {
      assert UnexpectedError[..3][0] != (Okay + ",")[0];
    }
  }

  lemma BoostSuffixes()
    ensures "SEP#1#22#" + IntToString(BoostSteps(30)) + "/" == "SEP#1#22#6/"
    ensures "SEP#1#22#" + IntToString(BoostSteps(60)) + "/" == "SEP#1#22#12/"
  {
    SmallTexts();
    TwelveText();
  }

  lemma AntiFreezeSuffixes()
    ensures "SEP#1#20#" + IntToString(Trunc(3.5)) + "/" == "SEP#1#20#3/"
    ensures "SEP#1#20#" + IntToString(Trunc(4.5)) + "/" == "SEP#1#20#4/"
  {
    SmallTexts();
    assert Trunc(3.5) == 3 && Trunc(4.5) == 4;
  }

  /** 30 minutes of boost are 6 steps. */
  lemma SetBoostFixture()
    ensures SetBoost(30, 1, -1, [Topology, "OK"])
         == Exchange([Ops3, Request(ZoneHead + "SEP#1#22#6/", DefaultTimeout)], Success(()))
  {
    BoostSuffixes();
    ZoneOneAddresses();
    Heads();
    ZoneOneRequest("D", ZoneHead, -1, "SEP#1#22#6/", "OK");
    Confirmations();
  }

  /** 60 minutes of boost are 12 steps; more than 95 are refused with nothing sent. */
  lemma SetLongBoostFixture()
    ensures SetBoost(60, 1, 1, [Topology, "OK"])
         == Exchange([Ops3, Request(ModuleHead + "SEP#1#22#12/", DefaultTimeout)], Success(()))
    ensures SetBoost(100, 1, -1, [Topology, "OK"]) == Exchange([], Failure(InvalidRequest))
  {
    BoostSuffixes();
    ZoneOneAddresses();
    Heads();
    ZoneOneRequest("R", ModuleHead, 1, "SEP#1#22#12/", "OK");
    Confirmations();
  }

  /** Raw 255 reads as 5 degrees of anti-freeze and as no boost; 5 reads as 25 minutes. */
  lemma SentinelFixture()
    ensures ReadAntiFreeze("OK,255") == Success(5.0)
    ensures ReadBoost("OK,255") == Success(0)
    ensures ReadBoost("OK,5") == Success(25)
  {
    NumberReply(255);
    NumberReply(5);
    assert IntToString(255) == "255" by {
      assert NatToString(255) == NatToString(25) + [DigitChar(5)];
      assert NatToString(25) == NatToString(2) + [DigitChar(5)];
    }
    assert IntToString(5) == "5";
    assert Okay + "," + "255" == "OK,255";
    assert Okay + "," + "5" == "OK,5";
  }

  /** 3.5 degrees of anti-freeze are sent as 3 and 4.5 as 4: the set truncates. */
  lemma AntiFreezeTruncationFixture()
    ensures SetAntiFreezeTemperature(3.5, 1, -1, [Topology, "OK"])
         == Exchange([Ops3, Request(ZoneHead + "SEP#1#20#3/", DefaultTimeout)], Success(()))
    ensures SetAntiFreezeTemperature(4.5, 1, 1, [Topology, "OK"])
         == Exchange([Ops3, Request(ModuleHead + "SEP#1#20#4/", DefaultTimeout)], Success(()))
  {
    AntiFreezeSuffixes();
    ZoneOneAddresses();
    Heads();
    ZoneOneRequest("D", ZoneHead, -1, "SEP#1#20#3/", "OK");
    ZoneOneRequest("R", ModuleHead, 1, "SEP#1#20#4/", "OK");
    Confirmations();
  }

  lemma ModuleDataRequest()
    ensures ModuleDataPlan([1, 2, 3], 1, 1) == Success(Request(ModuleHead + "?F/", DefaultTimeout))
  {
    ZoneOneCommand("R", "?F/");
    Heads();
  }

  lemma SampleModuleReply()
    ensures ReadModuleData(Okay + "," + Join(SampleModuleFields, ',')) == Success(SampleModule)
  {
    assert forall k :: 0 <= k < |SampleModuleFields| ==> PlainField(SampleModuleFields[k]);
    ReplyFields(Okay + ",", SampleModuleFields);
    SampleModuleDecodes();
  }

  /** `get_module_data` on zone 1, module 1: "R" and the module id, whatever the zone's count. */
  lemma GetModuleDataFixture()
    ensures GetModuleData(1, 1, [Topology, Okay + "," + Join(SampleModuleFields, ',')])
         == Exchange([Ops3, Request(ModuleHead + "?F/", DefaultTimeout)], Success(SampleModule))
  {
    SampleModuleReply();
    ModuleDataExchange(Okay + "," + Join(SampleModuleFields, ','), SampleModule);
  }

  /** Whatever the module answers, zone 1 module 1 is asked with "?F/" after the topology. */
  lemma ModuleDataExchange(reply: string, m: ModuleData)
    requires ReadModuleData(reply) == Success(m)
    ensures GetModuleData(1, 1, [Topology, reply])
         == Exchange([Ops3, Request(ModuleHead + "?F/", DefaultTimeout)], Success(m))
  {
    TopologyReply();
    ModuleDataRequest();
  }

  // ------------------------------------------------------------ zones and registration

  lemma CreateZoneRequest()
    ensures CreateZonePlan([1, 2, 3]) == Success(Request("OPMW12,4/", DefaultTimeout))
  {
    SmallTexts();
    TwelveText();
    assert "OPMW" + "12" + "," + "4" + "/" == "OPMW12,4/";
  }

  /** A zone is created at position n + 9 of a gateway with n zones. */
  lemma CreateZoneFixture()
    ensures CreateZone([Topology, "OPOK"])
         == Exchange([Ops3, Request("OPMW12,4/", DefaultTimeout)], Success(()))
  {
    TopologyReply();
    CreateZoneRequest();
    Confirmations();
  }

  lemma DeleteZoneRequest()
    ensures DeleteZonePlan([1, 2, 3], 1) == Success(Request("OPMW129,0/", DefaultTimeout))
  {
    OneTwentyNineText();
    assert "OPMW" + "129" + ",0/" == "OPMW129,0/";
  }

  /** Zone 1 is deleted as position 129. */
  lemma DeleteZoneFixture()
    ensures DeleteZone(1, [Topology, "OPOK"])
         == Exchange([Ops3, Request("OPMW129,0/", DefaultTimeout)], Success(()))
  {
    TopologyReply();
    DeleteZoneRequest();
    Confirmations();
  }

  lemma RegisterRequest()
    ensures RegisterPlan([1, 2, 3], 1, -1, 30) == Success(Request("OPZI199,1,1/", 30))
  {
    SmallTexts();
    ZoneOneAddresses();
    assert "OPZI199," + "1" + "," + "1" + "/" == "OPZI199,1,1/";
  }

  /** Registration uses the caller's timeout and the zone's module count. */
  lemma RegisterModuleFixture()
    ensures RegisterModule(1, 30, -1, [Topology, "OPOK"])
         == Exchange([Ops3, Request("OPZI199,1,1/", 30)], Success(()))
  {
    TopologyReply();
    RegisterRequest();
    Confirmations();
  }

  // ------------------------------------------------------------ gateway exchanges

  lemma ClockPads()
    ensures Pad2(14) == "14" && Pad2(30) == "30" && Pad2(45) == "45"
  {
    assert NatToString(14) == NatToString(1) + [DigitChar(4)];
    assert NatToString(30) == NatToString(3) + [DigitChar(0)];
    assert NatToString(45) == NatToString(4) + [DigitChar(5)];
  }

  lemma ClockTextFixture()
    ensures ClockText(DateTime(2023, 12, 25, 14, 30, 45), 0) == "OPF1430450/"
  {
    ClockPads();
    SmallTexts();
    assert "OPF" + "14" + "30" + "45" + "0" + "/" == "OPF1430450/";
  }

  lemma DatePads()
    ensures Pad2(25) == "25" && Pad2(12) == "12" && Pad2(23) == "23"
  {
    assert NatToString(25) == NatToString(2) + [DigitChar(5)];
    assert NatToString(12) == NatToString(1) + [DigitChar(2)];
    assert NatToString(23) == NatToString(2) + [DigitChar(3)];
  }

  lemma DateTextFixture()
    ensures DateText(DateTime(2023, 12, 25, 14, 30, 45)) == "25,12,23/"
  {
    DatePads();
    assert 2023 % 100 == 23;
    assert "25" + "," + "12" + "," + "23" + "/" == "25,12,23/";
  }

  /** 25 December 2023, 14:30:45, a Monday. */
  lemma SetDateTimeFixture()
    ensures SetDateTime(DateTime(2023, 12, 25, 14, 30, 45), 0, ["OPOK"])
         == Exchange([Request("OPF1430450/25,12,23/", DefaultTimeout)], Success(()))
  {
    ClockTextFixture();
    DateTextFixture();
    assert "OPF1430450/" + "25,12,23/" == "OPF1430450/25,12,23/";
    Confirmations();
  }

  /** The status reply of the tests, "OPOK,OPS1,123,122,0,0,0,16,197,215,34,0", in three pieces. */
  const StatusFront := ["123", "122", "0"]
  const StatusMiddle := ["0", "0", "16"]
  const StatusBack := ["197", "215", "34", "0"]
  const StatusFields := StatusFront + StatusMiddle + StatusBack
  const StatusPayload := "123,122,0" + ",0,0,16" + ",197,215,34,0"

  lemma StatusText()
    ensures Join(StatusFields, ',') == StatusPayload
  {
    assert StatusFields == StatusFront + (StatusMiddle + StatusBack);
    JoinAppend(StatusFront, StatusMiddle + StatusBack, ',');
    JoinAppend(StatusMiddle, StatusBack, ',');
    StatusParts();
  }

  lemma StatusParts()
    ensures Join(StatusFront, ',') == "123,122,0"
    ensures [','] + Join(StatusMiddle, ',') == ",0,0,16"
    ensures [','] + Join(StatusBack, ',') == ",197,215,34,0"
  {
  }

  /** `get_status` keeps the sync id and the two ids at payload positions 5 and 6. */
  lemma StatusFixture()
    ensures GetStatus(["OPOK,OPS1," + StatusPayload]).result == Success(Status("123", "16", "197"))
  {
    assert forall k :: 0 <= k < |StatusFields| ==> PlainField(StatusFields[k]);
    StatusText();
    StatusReply(StatusFields);
    assert EchoIdentifier("OPS1") == "OPOK,OPS1,";
  }
}
