/** The design report `analyze` returns, as a function of the
    building record alone, and what it promises per occupancy category. */
module Report {
  import opened Building
  import opened Occupancy
  import opened Requirement
  import opened Sizing
  import opened Bom

  /** Notes from the rules, in stage order; the override note follows them. */
  function RuleNotes(b: BuildingInput): seq<Note> {
    RequirementNotes(b) + SelectorNotes(b)
    + (if IsRequired(b) then SizingNotes(b) + NotificationNotes(b) else [])
  }

  function RuleHeadEnd(b: BuildingInput): seq<BomLine> {
    if IsRequired(b) then HeadEnd(b) else []
  }

  function RuleFieldLines(b: BuildingInput): seq<BomLine> {
    if IsRequired(b) then FieldDevices(b) else []
  }

  /** The report for one building record. */
  function Design(b: BuildingInput): DesignOutput {
    DesignOutput(
      DESIGN_GENERATED,
      SystemTypeOf(b),
      RuleNotes(b) + AiNotes(Rooms(b)),
      RuleHeadEnd(b),
      RuleFieldLines(b) + AiLines(Rooms(b)))
  }

  /** Without a requirement only the override merge contributes to the lists. */
  lemma NotRequiredReport(b: BuildingInput)
    requires !IsRequired(b)
    ensures Design(b).systemType == NoneRequired
    ensures Design(b).notes == RequirementNotes(b) + AiNotes(Rooms(b))
    ensures Design(b).bomA == []
    ensures Design(b).bomB == AiLines(Rooms(b))
  {
  }

  /** An occupancy outside the three categories yields an empty design apart from the overrides. */
  lemma UnclassifiedReport(b: BuildingInput)
    requires Classify(b.occupancy) == Unclassified
    ensures Design(b).status == "Design Generated"
    ensures Design(b).systemType == NoneRequired
    ensures Design(b).bomA == []
    ensures Design(b).notes == AiNotes(Rooms(b))
    ensures Design(b).bomB == AiLines(Rooms(b))
    ensures Rooms(b) == [] ==> Design(b).notes == [] && Design(b).bomB == []
  {
  }

  /** R-2 / residential: required above four stories or sixteen units; otherwise one advisory note. */
  lemma ResidentialReport(b: BuildingInput)
    requires Classify(b.occupancy) == Residential
    ensures IsRequired(b) <==> b.numStories > 4 || b.numUnits > 16
    ensures IsRequired(b) ==>
      Design(b).systemType == Addressable && Design(b).notes[0] == ResidentialRequired
    ensures !IsRequired(b) ==>
      && Design(b).systemType == NoneRequired
      && Design(b).notes
         == [if b.numUnits > 11 then CheckLocalAmendments else MayNotBeRequired] + AiNotes(Rooms(b))
      && Design(b).bomA == []
      && Design(b).bomB == AiLines(Rooms(b))
  {
  }

  /** The sprinkler-monitoring note comes from the system-type selector alone. */
  lemma SprinklerNoteFromSelector(b: BuildingInput)
    ensures SprinklerMonitoringRequired in Design(b).notes <==> SelectorNotes(b) != []
  {
    var req, sel, ai := RequirementNotes(b), SelectorNotes(b), AiNotes(Rooms(b));
    var rest := if IsRequired(b) then SizingNotes(b) + NotificationNotes(b) else [];
    assert Design(b).notes == req + sel + rest + ai;
    assert SprinklerMonitoringRequired !in req;
    assert SprinklerMonitoringRequired !in rest;
    assert SprinklerMonitoringRequired !in ai;
  }

  /** Assembly: Voice/Evac above three hundred occupants, and never the sprinkler-monitoring note. */
  lemma AssemblyReport(b: BuildingInput)
    requires Classify(b.occupancy) == Assembly
    ensures IsRequired(b) <==> b.occupants > 300
    ensures IsRequired(b) ==> Design(b).systemType == VoiceEvac && Design(b).notes[0] == VoiceEvacRequired
    ensures SprinklerMonitoringRequired !in Design(b).notes
    ensures !IsRequired(b) ==>
      && Design(b).systemType == NoneRequired
      && Design(b).notes == AiNotes(Rooms(b))
      && Design(b).bomA == []
      && Design(b).bomB == AiLines(Rooms(b))
  {
    SprinklerNoteFromSelector(b);
  }

  /** Mercantile, business, mixed-use: required above 30000 sqft or three stories;
      the sprinkler-monitoring note appears exactly when sprinklered. */
  lemma MercantileReport(b: BuildingInput)
    requires Classify(b.occupancy) == MercantileBusiness
    ensures IsRequired(b) <==> b.sqft > 30000 || b.numStories > 3
    ensures IsRequired(b) ==>
      && Design(b).systemType == Addressable
      && Design(b).notes[0] == MercantileRequired
      && (SprinklerMonitoringRequired in Design(b).notes <==> b.sprinklered)
    ensures !IsRequired(b) ==>
      && Design(b).systemType == NoneRequired
      && Design(b).notes == AiNotes(Rooms(b))
      && Design(b).bomA == []
      && Design(b).bomB == AiLines(Rooms(b))
  {
    SprinklerNoteFromSelector(b);
  }

  /** Tier A of a required design: six fixed lines, panel first and batteries last, plus
      the booster when the alarm current exceeds 6 A. */
  lemma HeadEndReport(b: BuildingInput)
    requires IsRequired(b)
    ensures var a := Design(b).bomA; var n := NotificationLoad(b);
      && |a| == (if n >= 172 then 7 else 6)
      && a[0] == FacpLine(if b.numUnits + 4 * b.numStories + 1 + TotalComponents(Rooms(b)) > 64
                          then VS4 else VS1)
      && a[1..5] == [RemoteAnnunciator, CellularCommunicator, SurgeProtection, DocBox]
      && a[5] == Batteries(if n >= 1624 then Ah18 else if n >= 767 then Ah10 else Ah7)
      && (n >= 172 ==> a[6] == BoosterPowerSupply)
  {
    BoosterThreshold(NotificationLoad(b));
    BatteryTierThresholds(NotificationLoad(b));
  }

  /** Tier B of a required design starts with the rule lines in their fixed order:
      sounders and circuits for R-2, strobes, monitor modules when sprinklered,
      then the pull stations. */
  lemma FieldDeviceReport(b: BuildingInput)
    requires IsRequired(b)
    ensures var f := Design(b).bomB; var r := if HasR2(b.occupancy) then 2 else 0;
      var m := if b.sprinklered then 1 else 0;
      && |f| == r + 2 + m + TotalComponents(Rooms(b))
      && (HasR2(b.occupancy) ==>
            f[0] == LfSounders(b.numUnits) && f[1] == NotificationCircuits(b.numStories))
      && f[r] == WallStrobes
      && (b.sprinklered ==> f[r + 1] == MonitorModules)
      && f[r + 1 + m] == PullStations(b.numStories * 2 + 1)
  {
    var rule := FieldDevices(b);
    FieldDevicesLayout(b);
    AiLinesLength(Rooms(b));
    assert Design(b).bomB == rule + AiLines(Rooms(b));
    assert Design(b).bomB[..|rule|] == rule;
  }

  /** Sounder lines appear only in required designs whose occupancy names "R-2":
      a plain "RESIDENTIAL" occupancy gets none. */
  lemma SounderLinesNeedR2(b: BuildingInput)
    ensures (exists k :: 0 <= k < |Design(b).bomB| && Design(b).bomB[k].LfSounders?)
        <==> IsRequired(b) && HasR2(b.occupancy)
  {
    var f := Design(b).bomB;
    var rule := RuleFieldLines(b);
    AiLinesLayout(Rooms(b));
    if IsRequired(b) && HasR2(b.occupancy) {
      assert f[0].LfSounders?;
    }
    if exists k :: 0 <= k < |f| && f[k].LfSounders? {
      var k :| 0 <= k < |f| && f[k].LfSounders?;
      assert k < |rule|;
    }
  }

  /** Notes with no vision note, followed by the vision note for `rooms`: that
      note is present exactly when there are rooms, and only at the end. */
  lemma AppendedAiNotes(notes: seq<Note>, rooms: seq<Room>)
    requires forall k :: 0 <= k < |notes| ==> !notes[k].AiVisionIntegrated?
    ensures var n := notes + AiNotes(rooms);
      && n[..|notes|] == notes
      && (rooms != [] ==> n[|n| - 1] == AiVisionIntegrated(|rooms|))
      && (forall k :: 0 <= k < |n| && n[k].AiVisionIntegrated? ==> rooms != [] && k == |n| - 1)
  {
  }

  lemma RuleNotesHaveNoVisionNote(b: BuildingInput)
    ensures forall k :: 0 <= k < |RuleNotes(b)| ==> !RuleNotes(b)[k].AiVisionIntegrated?
  {
  }

  /** The override merge only appends: the rule notes and lines stay in front,
      one line per override component follows them, and one vision note closes
      the notes exactly when there are rooms. */
  lemma AiMergeReport(b: BuildingInput)
    ensures var d := Design(b); var rooms := Rooms(b); var rule := RuleFieldLines(b);
      && d.notes[..|RuleNotes(b)|] == RuleNotes(b)
      && d.bomB[..|rule|] == rule
      && |d.bomB| == |rule| + TotalComponents(rooms)
      && (rooms != [] ==> d.notes[|d.notes| - 1] == AiVisionIntegrated(|rooms|))
      && (forall k :: 0 <= k < |d.notes| && d.notes[k].AiVisionIntegrated? ==>
            rooms != [] && k == |d.notes| - 1)
  {
    AiLinesLength(Rooms(b));
    RuleNotesHaveNoVisionNote(b);
    AppendedAiNotes(RuleNotes(b), Rooms(b));
  }

  /** Component `j` of override room `i` becomes the Tier B line right after the
      rule lines, the components of the rooms before `i` and the components
      before `j`, with the missing-key defaults applied. */
  lemma AiMergeLineAt(b: BuildingInput, i: int, j: int)
    requires 0 <= i < |Rooms(b)| && 0 <= j < |RoomComponents(Rooms(b)[i])|
    ensures var rooms := Rooms(b); var c := RoomComponents(rooms[i])[j];
      var k := |RuleFieldLines(b)| + TotalComponents(rooms[..i]) + j;
      k < |Design(b).bomB|
      && Design(b).bomB[k] == AiMatch(ComponentDesc(c), RoomName(rooms[i]), ComponentSku(c))
  {
    var rule, rooms := RuleFieldLines(b), Rooms(b);
    AiLineAt(rooms, i, j);
    assert Design(b).bomB == rule + AiLines(rooms);
  }

  /** The report the caller receives: the fixed status, the "None Required"
      label exactly when no system is required, and one text per note and line. */
  lemma RenderedDesign(b: BuildingInput, fmt2: real -> string)
    ensures var r := Render(Design(b), fmt2);
      && r.status == "Design Generated"
      && (r.systemType == "None Required" <==> !IsRequired(b))
      && |r.complianceNotes| == |Design(b).notes|
      && |r.bomTierA| == |Design(b).bomA|
      && |r.bomTierB| == |Design(b).bomB|
  {
    var t := Design(b).systemType;
    assert t.Text() == "None Required" <==> t == NoneRequired;
  }
}
