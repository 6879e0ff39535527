/** Notification Rules and the AI Vision Override merge: the Tier A head-end skeleton, the rule-derived Tier B field
    devices with their notes, and the Tier B lines merged in from the vision
    overrides. */
module Bom {
  import opened Building
  import opened Occupancy
  import opened Sizing

  /** Tier A for a required system: panel first, batteries sixth, booster last when needed. */
  function HeadEnd(b: BuildingInput): seq<BomLine> {
    var n := NotificationLoad(b);
    [ FacpLine(PanelFor(EstimatedPoints(b))), RemoteAnnunciator, CellularCommunicator,
      SurgeProtection, DocBox, Batteries(BatteryFor(BatteryAh(n))) ]
    + (if AlarmLoadAmps(n) > BOOSTER_THRESHOLD_AMPS then [BoosterPowerSupply] else [])
  }

  /** Rule-derived Tier B for a required system. */
  function FieldDevices(b: BuildingInput): seq<BomLine> {
    (if HasR2(b.occupancy) then [LfSounders(b.numUnits), NotificationCircuits(b.numStories)] else [])
    + [WallStrobes]
    + (if b.sprinklered then [MonitorModules] else [])
    + [PullStations(b.numStories * 2 + 1)]
  }

  /** The rule lines of Tier B in their fixed order. */
  lemma FieldDevicesLayout(b: BuildingInput)
    ensures var f := FieldDevices(b); var r := if HasR2(b.occupancy) then 2 else 0;
      var m := if b.sprinklered then 1 else 0;
      && |f| == r + 2 + m
      && (HasR2(b.occupancy) ==>
            f[0] == LfSounders(b.numUnits) && f[1] == NotificationCircuits(b.numStories))
      && f[r] == WallStrobes
      && (b.sprinklered ==> f[r + 1] == MonitorModules)
      && f[r + 1 + m] == PullStations(b.numStories * 2 + 1)
  {
  }

  /** The notes emitted while composing Tier B for a required system. */
  function NotificationNotes(b: BuildingInput): seq<Note> {
    (if HasR2(b.occupancy) then [SleepingAreaSounders] else [])
    + [CorridorStrobes]
    + (if b.sprinklered then [] else [FullSmokeDetection])
  }

  /** The Tier B line for one override component, with the missing-key defaults. */
  function MatchLine(roomName: string, c: Component): BomLine {
    AiMatch(ComponentDesc(c), roomName, ComponentSku(c))
  }

  function RoomLines(roomName: string, cs: seq<Component>): seq<BomLine> {
    if cs == [] then []
    else RoomLines(roomName, cs[..|cs| - 1]) + [MatchLine(roomName, cs[|cs| - 1])]
  }

  /** The override lines of all rooms, room by room, component by component. */
  function AiLines(rooms: seq<Room>): seq<BomLine> {
    if rooms == [] then []
    else
      var last := rooms[|rooms| - 1];
      AiLines(rooms[..|rooms| - 1]) + RoomLines(RoomName(last), RoomComponents(last))
  }

  /** The note for a non-empty room list. */
  function AiNotes(rooms: seq<Room>): seq<Note> {
    if rooms == [] then [] else [AiVisionIntegrated(|rooms|)]
  }

  lemma {:induction false} RoomLinesLayout(roomName: string, cs: seq<Component>)
    ensures |RoomLines(roomName, cs)| == |cs|
    ensures forall j :: 0 <= j < |cs| ==> RoomLines(roomName, cs)[j] == MatchLine(roomName, cs[j])
    decreases |cs|
  {
    if cs != [] {
      RoomLinesLayout(roomName, cs[..|cs| - 1]);
    }
  }

  lemma {:induction false} AiLinesAppend(xs: seq<Room>, ys: seq<Room>)
    ensures AiLines(xs + ys) == AiLines(xs) + AiLines(ys)
    decreases |ys|
  {
    if ys == [] {
      assert xs + ys == xs;
    } else {
      var init, last := ys[..|ys| - 1], ys[|ys| - 1];
      var mine := RoomLines(RoomName(last), RoomComponents(last));
      assert (xs + ys)[..|xs + ys| - 1] == xs + init;
      assert (xs + ys)[|xs + ys| - 1] == last;
      assert AiLines(xs + ys) == AiLines(xs + init) + mine;
      AiLinesAppend(xs, init);
      assert AiLines(ys) == AiLines(init) + mine;
    }
  }

  /** One line per override component: as many lines as the point count adds. */
  lemma {:induction false} AiLinesLength(rooms: seq<Room>)
    ensures |AiLines(rooms)| == TotalComponents(rooms)
    decreases |rooms|
  {
    if rooms != [] {
      var last := rooms[|rooms| - 1];
      AiLinesLength(rooms[..|rooms| - 1]);
      RoomLinesLayout(RoomName(last), RoomComponents(last));
    }
  }

  /** The components of the rooms before `i` and of room `i` fit within the total. */
  lemma PrefixComponentsBound(rooms: seq<Room>, i: int)
    requires 0 <= i < |rooms|
    ensures TotalComponents(rooms[..i]) + |RoomComponents(rooms[i])| <= TotalComponents(rooms)
  {
    assert rooms == rooms[..i + 1] + rooms[i + 1..];
    TotalComponentsAppend(rooms[..i + 1], rooms[i + 1..]);
    assert rooms[..i + 1][..i] == rooms[..i];
  }

  /** Component `j` of room `i` is the line right after the lines of the rooms before `i`
      and the components before `j`. */
  lemma AiLineAt(rooms: seq<Room>, i: int, j: int)
    requires 0 <= i < |rooms| && 0 <= j < |RoomComponents(rooms[i])|
    ensures TotalComponents(rooms[..i]) + j < |AiLines(rooms)|
    ensures AiLines(rooms)[TotalComponents(rooms[..i]) + j]
      == MatchLine(RoomName(rooms[i]), RoomComponents(rooms[i])[j])
  {
    var r := rooms[i];
    var before, after := rooms[..i], rooms[i + 1..];
    var mine := RoomLines(RoomName(r), RoomComponents(r));
    assert rooms == before + ([r] + after);
    AiLinesAppend(before, [r] + after);
    AiLinesAppend([r], after);
    assert [r][..0] == [];
    assert AiLines([r]) == mine;
    assert AiLines(rooms) == AiLines(before) + (mine + AiLines(after));
    AiLinesLength(before);
    RoomLinesLayout(RoomName(r), RoomComponents(r));
    assert (mine + AiLines(after))[j] == mine[j];
  }

  /** The override lines in room-then-component order; every one is an AI match. */
  lemma AiLinesLayout(rooms: seq<Room>)
    ensures |AiLines(rooms)| == TotalComponents(rooms)
    ensures forall i :: 0 <= i < |rooms| ==>
      TotalComponents(rooms[..i]) + |RoomComponents(rooms[i])| <= TotalComponents(rooms)
    ensures forall i, j :: 0 <= i < |rooms| && 0 <= j < |RoomComponents(rooms[i])| ==>
      AiLines(rooms)[TotalComponents(rooms[..i]) + j]
        == MatchLine(RoomName(rooms[i]), RoomComponents(rooms[i])[j])
    ensures forall k :: 0 <= k < |AiLines(rooms)| ==> AiLines(rooms)[k].AiMatch?
  {
    AiLinesLength(rooms);
    forall i | 0 <= i < |rooms|
      ensures TotalComponents(rooms[..i]) + |RoomComponents(rooms[i])| <= TotalComponents(rooms)
    {
      PrefixComponentsBound(rooms, i);
    }
    forall i, j | 0 <= i < |rooms| && 0 <= j < |RoomComponents(rooms[i])|
      ensures AiLines(rooms)[TotalComponents(rooms[..i]) + j]
        == MatchLine(RoomName(rooms[i]), RoomComponents(rooms[i])[j])
    {
      AiLineAt(rooms, i, j);
    }
    forall k | 0 <= k < |AiLines(rooms)|
      ensures AiLines(rooms)[k].AiMatch?
    {
      AiMatchAt(rooms, k);
    }
  }

  lemma {:induction false} AiMatchAt(rooms: seq<Room>, k: int)
    requires 0 <= k < |AiLines(rooms)|
    ensures AiLines(rooms)[k].AiMatch?
    decreases |rooms|
  {
    var last := rooms[|rooms| - 1];
    var init := rooms[..|rooms| - 1];
    if k >= |AiLines(init)| {
      RoomLinesLayout(RoomName(last), RoomComponents(last));
    } else {
      AiMatchAt(init, k);
    }
  }
}
