/** FACP Selection (Point Count) and Power Calculations (24VDC): addressable point count, alarm
    current and standby battery capacity, and the equipment they select.
    Currents and capacities are exact reals over the engine's constants. */
module Sizing {
  import opened Building

  /** Components over all override rooms, counted room by room in order. */
  function TotalComponents(rooms: seq<Room>): nat {
    if rooms == [] then 0
    else TotalComponents(rooms[..|rooms| - 1]) + |RoomComponents(rooms[|rooms| - 1])|
  }

  lemma {:induction false} TotalComponentsAppend(xs: seq<Room>, ys: seq<Room>)
    ensures TotalComponents(xs + ys) == TotalComponents(xs) + TotalComponents(ys)
    decreases |ys|
  {
    if ys == [] {
      assert xs + ys == xs;
    } else {
      var init := ys[..|ys| - 1];
      assert (xs + ys)[..|xs + ys| - 1] == xs + init;
      TotalComponentsAppend(xs, init);
    }
  }

  /** One point per unit, two per story for corridors, and the pull stations,
      plus one per override component. */
  function EstimatedPoints(b: BuildingInput): int {
    b.numUnits + (b.numStories * 2) + (b.numStories * 2 + 1) + TotalComponents(Rooms(b))
  }

  function PanelFor(points: int): Panel {
    if points > 64 then VS4 else VS1
  }

  /** Notification devices counted for the alarm current: units plus two per story. */
  function NotificationLoad(b: BuildingInput): int {
    b.numUnits + b.numStories * 2
  }

  const DEVICE_AMPS: real := 0.035
  const STANDBY_LOAD_AMPS: real := 0.150
  const STANDBY_HOURS: real := 24.0
  const ALARM_HOURS: real := 0.0833
  const SAFETY_FACTOR: real := 1.2
  const BOOSTER_THRESHOLD_AMPS: real := 6.0

  function AlarmLoadAmps(n: int): real {
    (n as real) * DEVICE_AMPS
  }

  function BatteryAh(n: int): real {
    ((STANDBY_LOAD_AMPS * STANDBY_HOURS) + (AlarmLoadAmps(n) * ALARM_HOURS)) * SAFETY_FACTOR
  }

  /** The battery table read low to high with the last matching tier winning. */
  function BatteryFor(ah: real): Battery {
    if ah > 10.0 then Ah18 else if ah > 7.0 then Ah10 else Ah7
  }

  /** Battery tiers as integer thresholds on the notification load; the
      capacity never lands exactly on a tier boundary. */
  lemma BatteryTierThresholds(n: int)
    ensures BatteryFor(BatteryAh(n)) == if n >= 1624 then Ah18 else if n >= 767 then Ah10 else Ah7
    ensures BatteryAh(n) != 7.0 && BatteryAh(n) != 10.0
  {
    var x := n as real;
    assert BatteryAh(n) == 4.32 + x * 0.0034986;
    if n >= 1624 {
      assert x >= 1624.0;
    } else if n >= 767 {
      assert 767.0 <= x <= 1623.0;
    } else {
      assert x <= 766.0;
    }
  }

  /** The booster power supply threshold as an integer threshold on the notification load. */
  lemma BoosterThreshold(n: int)
    ensures AlarmLoadAmps(n) > BOOSTER_THRESHOLD_AMPS <==> n >= 172
  {
    var x := n as real;
    if n >= 172 {
      assert x >= 172.0;
    } else {
      assert x <= 171.0;
    }
  }

  /** More units or more stories never select a smaller battery. */
  lemma BatteryNeverShrinks(b: BuildingInput, b': BuildingInput)
    requires b.numUnits <= b'.numUnits && b.numStories <= b'.numStories
    ensures BatteryFor(BatteryAh(NotificationLoad(b))).Rank()
         <= BatteryFor(BatteryAh(NotificationLoad(b'))).Rank()
  {
    BatteryTierThresholds(NotificationLoad(b));
    BatteryTierThresholds(NotificationLoad(b'));
  }

  /** Adding override rooms raises the point count by their components and
      never moves the panel from VS4 back to VS1. */
  lemma AddedRoomsNeverShrinkPanel(b: BuildingInput, b': BuildingInput, extra: seq<Room>)
    requires b'.numUnits == b.numUnits && b'.numStories == b.numStories
    requires Rooms(b') == Rooms(b) + extra
    ensures EstimatedPoints(b') == EstimatedPoints(b) + TotalComponents(extra)
    ensures PanelFor(EstimatedPoints(b)) == VS4 ==> PanelFor(EstimatedPoints(b')) == VS4
  {
    TotalComponentsAppend(Rooms(b), extra);
  }

  /** Adding one component to one override room raises the point count by one
      and never moves the panel from VS4 back to VS1. */
  lemma AddedComponentNeverShrinksPanel(b: BuildingInput, b': BuildingInput, i: nat, c: Component)
    requires b'.numUnits == b.numUnits && b'.numStories == b.numStories
    requires i < |Rooms(b)|
    requires Rooms(b') == Rooms(b)[..i]
      + [Room(Rooms(b)[i].name, Some(RoomComponents(Rooms(b)[i]) + [c]))]
      + Rooms(b)[i + 1..]
    ensures EstimatedPoints(b') == EstimatedPoints(b) + 1
    ensures PanelFor(EstimatedPoints(b)) == VS4 ==> PanelFor(EstimatedPoints(b')) == VS4
  {
    var rs := Rooms(b);
    var r' := Room(rs[i].name, Some(RoomComponents(rs[i]) + [c]));
    assert rs == rs[..i] + [rs[i]] + rs[i + 1..];
    TotalComponentsAppend(rs[..i] + [rs[i]], rs[i + 1..]);
    TotalComponentsAppend(rs[..i], [rs[i]]);
    TotalComponentsAppend(rs[..i] + [r'], rs[i + 1..]);
    TotalComponentsAppend(rs[..i], [r']);
    assert TotalComponents([r']) == TotalComponents([rs[i]]) + 1 by {
      assert [r'][..0] == [] && [rs[i]][..0] == [];
    }
  }

  /** The sizing notes: point count with the panel, then the power analysis. */
  function SizingNotes(b: BuildingInput): seq<Note> {
    var points := EstimatedPoints(b);
    var n := NotificationLoad(b);
    [SystemLoad(points, PanelFor(points)), PowerAnalysis(AlarmLoadAmps(n), BatteryAh(n), BatteryFor(BatteryAh(n)))]
  }
}
