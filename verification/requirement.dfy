/** Occupancy & Requirement Analysis and System Type Determination: whether the building's
    category threshold is met, the notes that decision emits, and the alarm
    architecture label. */
module Requirement {
  import opened Building
  import opened Occupancy

  /** Whether a fire alarm system is required (NFPA 101 section 30.3.4.1 for
      R-2, section 36.3.4.1 for mercantile); all thresholds are strict. */
  function IsRequired(b: BuildingInput): bool {
    match Classify(b.occupancy)
    case Residential => b.numStories > 4 || b.numUnits > 16
    case Assembly => b.occupants > 300
    case MercantileBusiness => b.sqft > 30000 || b.numStories > 3
    case Unclassified => false
  }

  /** The notes of the occupancy stage: one per residential building, one per
      required assembly or mercantile building, none otherwise. */
  function RequirementNotes(b: BuildingInput): seq<Note> {
    match Classify(b.occupancy)
    case Residential =>
      if IsRequired(b) then [ResidentialRequired]
      else if b.numUnits > 11 then [CheckLocalAmendments]
      else [MayNotBeRequired]
    case Assembly => if IsRequired(b) then [VoiceEvacRequired] else []
    case MercantileBusiness => if IsRequired(b) then [MercantileRequired] else []
    case Unclassified => []
  }

  /** The system type as the occupancy stage leaves it. */
  function ForcedType(b: BuildingInput): SystemType {
    if Classify(b.occupancy) == Assembly && IsRequired(b) then VoiceEvac else NoneRequired
  }

  /** The selector only overrides a type the occupancy stage left at "None Required". */
  function SystemTypeOf(b: BuildingInput): (t: SystemType)
    ensures t == NoneRequired <==> !IsRequired(b)
    ensures t == VoiceEvac <==> IsRequired(b) && Classify(b.occupancy) == Assembly
    ensures t == Addressable <==> IsRequired(b) && Classify(b.occupancy) != Assembly
  {
    if IsRequired(b) && ForcedType(b) == NoneRequired then Addressable else ForcedType(b)
  }

  /** The selector's sprinkler-monitoring note, emitted only when it chose the addressable type. */
  function SelectorNotes(b: BuildingInput): seq<Note> {
    if IsRequired(b) && ForcedType(b) == NoneRequired && b.sprinklered
    then [SprinklerMonitoringRequired]
    else []
  }
}
