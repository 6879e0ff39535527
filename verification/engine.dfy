/** The rule engine as the service runs it: one pass that starts from empty
    lists, appends notes and lines stage by stage, reassigns the requirement
    flag, the system type and the battery size, counts override components in
    one loop and merges override lines in a nested loop. */
module Engine {
  import opened Strings
  import opened Building
  import opened Occupancy
  import opened Requirement
  import opened Sizing
  import opened Bom
  import opened Report

  /** Occupancy classification and requirement test: the flag, the type the
      assembly branch may force, and the stage's notes. */
  method EvaluateOccupancy(b: BuildingInput) returns (isRequired: bool, systemType: SystemType, notes: seq<Note>)
    ensures isRequired == IsRequired(b)
    ensures systemType == ForcedType(b)
    ensures notes == RequirementNotes(b)
  {
    notes := [];
    systemType := NoneRequired;
    isRequired := false;
    if Contains(Upper(b.occupancy), "R-2") || Contains(Upper(b.occupancy), "RESIDENTIAL") {
      if b.numStories > 4 || b.numUnits > 16 {
        isRequired := true;
        notes := notes + [ResidentialRequired];
      } else if b.numUnits > 11 {
        notes := notes + [CheckLocalAmendments];
      } else {
        notes := notes + [MayNotBeRequired];
      }
    } else if Lower(b.occupancy) == "assembly" {
      if b.occupants > 300 {
        isRequired := true;
        notes := notes + [VoiceEvacRequired];
        systemType := VoiceEvac;
      }
    } else if Lower(b.occupancy) in ["mercantile", "business", "mixed-use"] {
      if b.sqft > 30000 || b.numStories > 3 {
        isRequired := true;
        notes := notes + [MercantileRequired];
      }
    }
  }

  /** The estimated addressable point count, adding each override room's components in turn. */
  method CountPoints(b: BuildingInput) returns (estPoints: int)
    ensures estPoints == b.numUnits + 4 * b.numStories + 1 + TotalComponents(Rooms(b))
  {
    estPoints := b.numUnits + (b.numStories * 2) + (b.numStories * 2 + 1);
    if b.aiOverrides.Some? {
      var rooms := b.aiOverrides.value.rooms.GetOr([]);
      for i := 0 to |rooms|
        invariant estPoints == b.numUnits + 4 * b.numStories + 1 + TotalComponents(rooms[..i])
      {
        assert rooms[..i + 1][..i] == rooms[..i];
        estPoints := estPoints + |RoomComponents(rooms[i])|;
      }
      assert rooms[..|rooms|] == rooms;
    }
  }

  /** Alarm current, battery capacity and the battery size picked by overwriting
      the smallest size whenever a larger threshold is passed. */
  method SizePower(b: BuildingInput) returns (alarmLoadAmps: real, batteryAh: real, battSize: Battery)
    ensures alarmLoadAmps == AlarmLoadAmps(NotificationLoad(b))
    ensures batteryAh == BatteryAh(NotificationLoad(b))
    ensures var n := NotificationLoad(b);
      battSize == if n >= 1624 then Ah18 else if n >= 767 then Ah10 else Ah7
  {
    alarmLoadAmps := ((b.numUnits + (b.numStories * 2)) as real) * 0.035;
    var standbyLoadAmps := 0.150;
    batteryAh := ((standbyLoadAmps * 24.0) + (alarmLoadAmps * 0.0833)) * 1.2;
    battSize := Ah7;
    if batteryAh > 7.0 {
      battSize := Ah10;
    }
    if batteryAh > 10.0 {
      battSize := Ah18;
    }
    BatteryTierThresholds(NotificationLoad(b));
  }

  /** Appends the vision note and one Tier B line per override component,
      room by room; nothing already in the lists changes. */
  method MergeOverrides(rooms: seq<Room>, notes: seq<Note>, bomB: seq<BomLine>)
    returns (notes': seq<Note>, bomB': seq<BomLine>)
    ensures notes' == notes + AiNotes(rooms)
    ensures bomB' == bomB + AiLines(rooms)
  {
    notes', bomB' := notes, bomB;
    if rooms != [] {
      notes' := notes' + [AiVisionIntegrated(|rooms|)];
      for i := 0 to |rooms|
        invariant bomB' == bomB + AiLines(rooms[..i])
      {
        var roomName := RoomName(rooms[i]);
        var components := RoomComponents(rooms[i]);
        for j := 0 to |components|
          invariant bomB' == bomB + AiLines(rooms[..i]) + RoomLines(roomName, components[..j])
        {
          var sku := ComponentSku(components[j]);
          var desc := ComponentDesc(components[j]);
          assert components[..j + 1][..j] == components[..j];
          bomB' := bomB' + [AiMatch(desc, roomName, sku)];
        }
        assert components[..|components|] == components;
        assert rooms[..i + 1][..i] == rooms[..i];
      }
      assert rooms[..|rooms|] == rooms;
    }
  }

  /** Tier A and the rule-derived Tier B of a required system, with the notes
      emitted on the way. */
  method ComposeBom(b: BuildingInput, facpModel: Panel, battSize: Battery, alarmLoadAmps: real, notes: seq<Note>)
    returns (bomA: seq<BomLine>, bomB: seq<BomLine>, notes': seq<Note>)
    requires facpModel == PanelFor(EstimatedPoints(b))
    requires battSize == BatteryFor(BatteryAh(NotificationLoad(b)))
    requires alarmLoadAmps == AlarmLoadAmps(NotificationLoad(b))
    ensures bomA == HeadEnd(b)
    ensures bomB == FieldDevices(b)
    ensures notes' == notes + NotificationNotes(b)
  {
    notes' := notes;
    bomB := [];
    bomA := [FacpLine(facpModel), RemoteAnnunciator, CellularCommunicator, SurgeProtection,
             DocBox, Batteries(battSize)];
    if alarmLoadAmps > 6.0 {
      bomA := bomA + [BoosterPowerSupply];
    }
    if Contains(Upper(b.occupancy), "R-2") {
      notes' := notes' + [SleepingAreaSounders];
      bomB := bomB + [LfSounders(b.numUnits)];
      bomB := bomB + [NotificationCircuits(b.numStories)];
    }
    notes' := notes' + [CorridorStrobes];
    bomB := bomB + [WallStrobes];
    if b.sprinklered {
      bomB := bomB + [MonitorModules];
    } else {
      notes' := notes' + [FullSmokeDetection];
    }
    bomB := bomB + [PullStations(b.numStories * 2 + 1)];
  }

  /** One evaluation of a building record. */
  method Analyze(b: BuildingInput) returns (d: DesignOutput)
    ensures d.status == "Design Generated"
    ensures d == Design(b)
  {
    var bomA: seq<BomLine> := [];
    var bomB: seq<BomLine> := [];
    var isRequired, systemType, notes := EvaluateOccupancy(b);

    // System type determination
    if isRequired && systemType == NoneRequired {
      systemType := Addressable;
      if b.sprinklered {
        notes := notes + [SprinklerMonitoringRequired];
      }
    }
    assert systemType == SystemTypeOf(b);
    assert notes == RequirementNotes(b) + SelectorNotes(b);

    // Panel selection by point count
    var estPoints := CountPoints(b);
    var facpModel := if estPoints > 64 then VS4 else VS1;
    if isRequired {
      notes := notes + [SystemLoad(estPoints, facpModel)];
    }

    // Power calculations
    var alarmLoadAmps, batteryAh, battSize := SizePower(b);
    BatteryTierThresholds(NotificationLoad(b));
    if isRequired {
      notes := notes + [PowerAnalysis(alarmLoadAmps, batteryAh, battSize)];
    }
    assert notes == RequirementNotes(b) + SelectorNotes(b) + (if isRequired then SizingNotes(b) else []);

    // Notification rules and the two bills of materials
    if isRequired {
      bomA, bomB, notes := ComposeBom(b, facpModel, battSize, alarmLoadAmps, notes);
    }
    assert notes == RuleNotes(b);

    // Vision override merge
    if b.aiOverrides.Some? {
      var rooms := b.aiOverrides.value.rooms.GetOr([]);
      notes, bomB := MergeOverrides(rooms, notes, bomB);
    }

    d := DesignOutput("Design Generated", systemType, notes, bomA, bomB);
  }
}
