/** The records the design engine consumes and produces: the building facts
    (with the vision collaborator's room/component overrides) and the design
    report, whose notes and bill-of-materials lines are kept as tagged values
    together with the exact text each one renders to. */
module Building {
  import opened Strings

  datatype Option<T> = None | Some(value: T) {
    function GetOr(default: T): T {
      match this
      case Some(v) => v
      case None => default
    }
  }

  /** A catalogue match the vision collaborator attached to a room; either key may be missing. */
  datatype Component = Component(sku: Option<string>, generic: Option<string>)

  /** A scanned room; either key may be missing. */
  datatype Room = Room(name: Option<string>, components: Option<seq<Component>>)

  /** The override dictionary; `rooms` is its only key the engine reads. */
  datatype AiOverrides = AiOverrides(rooms: Option<seq<Room>>)

  /** One building record. `None` for `aiOverrides` stands for a missing or empty dictionary. */
  datatype BuildingInput = BuildingInput(
    occupancy: string,
    sqft: int,
    ceilingHeight: int,
    occupants: int,
    numStories: int,
    numUnits: int,
    sprinklered: bool,
    aiOverrides: Option<AiOverrides>)

  /** The rooms the engine iterates over: none unless the overrides hold a `rooms` list. */
  function Rooms(b: BuildingInput): seq<Room> {
    match b.aiOverrides
    case None => []
    case Some(o) => o.rooms.GetOr([])
  }

  function RoomName(r: Room): string {
    r.name.GetOr("Unknown Room")
  }

  function RoomComponents(r: Room): seq<Component> {
    r.components.GetOr([])
  }

  function ComponentSku(c: Component): string {
    c.sku.GetOr("Generic")
  }

  function ComponentDesc(c: Component): string {
    c.generic.GetOr("Device")
  }

  const DESIGN_GENERATED := "Design Generated"

  datatype SystemType = NoneRequired | VoiceEvac | Addressable {
    /** The engine's test `system_type == "None Required"` is the tag test `NoneRequired?`. */
    function Text(): (t: string)
      ensures t == "None Required" <==> this == NoneRequired
    {
      match this
      case NoneRequired => "None Required"
      case VoiceEvac => "Voice/Evac"
      case Addressable => "Addressable Fire Alarm (Manual + Automatic)"
    }
  }

  /** Fire alarm control panel models, chosen by point count. */
  datatype Panel = VS1 | VS4 {
    function Text(): string {
      match this
      case VS1 => "Kidde VS1-G-2 (64 pts)"
      case VS4 => "Kidde VS4-G-2 (250 pts)"
    }
  }

  /** Standby battery sizes, smallest first. */
  datatype Battery = Ah7 | Ah10 | Ah18 {
    function Text(): string {
      match this
      case Ah7 => "7Ah"
      case Ah10 => "10Ah"
      case Ah18 => "18Ah"
    }

    function Rank(): nat {
      match this
      case Ah7 => 0
      case Ah10 => 1
      case Ah18 => 2
    }
  }

  /** Compliance notes, one tag per note the engine can emit. */
  datatype Note =
    | ResidentialRequired
    | CheckLocalAmendments
    | MayNotBeRequired
    | VoiceEvacRequired
    | MercantileRequired
    | SprinklerMonitoringRequired
    | SystemLoad(points: int, panel: Panel)
    | PowerAnalysis(alarmLoadAmps: real, batteryAh: real, battery: Battery)
    | SleepingAreaSounders
    | CorridorStrobes
    | FullSmokeDetection
    | AiVisionIntegrated(roomCount: nat)
  {
    /** The note's text; `fmt2` renders a float with two decimals. */
    function Text(fmt2: real -> string): string {
      match this
      case ResidentialRequired =>
        "System REQUIRED: R-2 Occupancy > 16 Units or > 4 Stories (NFPA 101 30.3.4.1)."
      case CheckLocalAmendments =>
        "Check Local Amendments: R-2 with 12-16 units often requires system in South FL."
      case MayNotBeRequired =>
        "System may NOT be required (Below R-2 Thresholds). Verify Local Amendments."
      case VoiceEvacRequired =>
        "Voice Evacuation System REQUIRED (>300 occupants/Assembly)."
      case MercantileRequired =>
        "System REQUIRED: Mercantile/Business threshold met."
      case SprinklerMonitoringRequired =>
        "Sprinkler Monitoring REQUIRED (NFPA 72 / FBC 903.4)."
      case SystemLoad(points, panel) =>
        "System Load: " + DecimalText(points) + " Estimated Addressable Points. Selected Panel: "
        + panel.Text() + "."
      case PowerAnalysis(amps, ah, battery) =>
        "Power Analysis: " + fmt2(amps) + "A Alarm Load. Battery Required: " + fmt2(ah)
        + "Ah -> Use (2) 12V " + battery.Text() + "."
      case SleepingAreaSounders =>
        "Sleeping Areas: 520Hz Low Frequency Sounders REQUIRED (NFPA 72 18.4.5)."
      case CorridorStrobes =>
        "Corridors/Common Areas: Visible Notification (Strobes) required per ADA/NFPA."
      case FullSmokeDetection =>
        "Full Smoke Detection likely required if NOT sprinklered (Check 101.30.3.4.4)."
      case AiVisionIntegrated(n) =>
        "AI Vision Analysis Integrated: " + DecimalText(n) + " Rooms Scanned."
    }
  }

  /** Bill-of-materials lines: Tier A (head end) and Tier B (field devices). */
  datatype BomLine =
    | FacpLine(panel: Panel)
    | RemoteAnnunciator
    | CellularCommunicator
    | SurgeProtection
    | DocBox
    | Batteries(battery: Battery)
    | BoosterPowerSupply
    | LfSounders(units: int)
    | NotificationCircuits(stories: int)
    | WallStrobes
    | MonitorModules
    | PullStations(count: int)
    | AiMatch(desc: string, room: string, sku: string)
  {
    function Text(): string {
      match this
      case FacpLine(panel) => "Addressable FACP: " + panel.Text()
      case RemoteAnnunciator => "Remote Annunciator (Lobby)"
      case CellularCommunicator => "Cellular/IP Communicator"
      case SurgeProtection => "Surge Protection (120V)"
      case DocBox => "Doc Box"
      case Batteries(battery) => "Batteries: (2) 12V " + battery.Text()
      case BoosterPowerSupply => "Booster Power Supply (BPS-10A) - Load Exceeds 6A"
      case LfSounders(units) =>
        DecimalText(units) + " x LF Sounder Bases / Mini-Horns (520Hz) [One per unit minimum]"
      case NotificationCircuits(stories) =>
        DecimalText(stories) + " x Notification Circuits (Risers estimate)"
      case WallStrobes => "Wall Strobes (15cd/30cd based on coverage)"
      case MonitorModules => "Monitor Modules (Flow/Tamper per Riser)"
      case PullStations(count) => DecimalText(count) + " x Pull Stations (Exits + FACP)"
      case AiMatch(desc, room, sku) => "[AI MATCH] " + desc + " in " + room + " -> Spec: " + sku
    }
  }

  /** An AI match line names the component's description, its room and its SKU. */
  lemma AiMatchTextMentions(desc: string, room: string, sku: string)
    ensures var t := AiMatch(desc, room, sku).Text();
      Contains(t, desc) && Contains(t, room) && Contains(t, sku)
  {
    var t := AiMatch(desc, room, sku).Text();
    assert t == "[AI MATCH] " + desc + (" in " + room + " -> Spec: " + sku);
    ContainsInside("[AI MATCH] ", desc, " in " + room + " -> Spec: " + sku);
    assert t == "[AI MATCH] " + desc + " in " + room + (" -> Spec: " + sku);
    ContainsInside("[AI MATCH] " + desc + " in ", room, " -> Spec: " + sku);
    assert t == "[AI MATCH] " + desc + " in " + room + " -> Spec: " + sku + "";
    ContainsInside("[AI MATCH] " + desc + " in " + room + " -> Spec: ", sku, "");
  }

  /** The design report, with tagged notes and lines. */
  datatype DesignOutput = DesignOutput(
    status: string,
    systemType: SystemType,
    notes: seq<Note>,
    bomA: seq<BomLine>,
    bomB: seq<BomLine>)

  /** The report as the caller receives it: every tag replaced by its text. */
  datatype RenderedOutput = RenderedOutput(
    status: string,
    systemType: string,
    complianceNotes: seq<string>,
    bomTierA: seq<string>,
    bomTierB: seq<string>)

  function Render(d: DesignOutput, fmt2: real -> string): RenderedOutput {
    RenderedOutput(
      d.status,
      d.systemType.Text(),
      seq(|d.notes|, i requires 0 <= i < |d.notes| => d.notes[i].Text(fmt2)),
      seq(|d.bomA|, i requires 0 <= i < |d.bomA| => d.bomA[i].Text()),
      seq(|d.bomB|, i requires 0 <= i < |d.bomB| => d.bomB[i].Text()))
  }
}
