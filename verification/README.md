# Fire alarm design engine — a Dafny model

The service takes one building record and returns a fire-alarm design report. The record holds:

- the occupancy text;
- the floor area, occupant count, story count and dwelling-unit count;
- the sprinkler flag;
- optional room/component overrides from a vision collaborator.

Its single rule pass, the `analyze` endpoint, does the following in order:

1. It classifies the occupancy: residential (`R-2` or `RESIDENTIAL` anywhere in the upper-cased text), then assembly, then mercantile/business/mixed-use.
2. It decides whether NFPA 101 requires a system. The residential rule is NFPA 101 section 30.3.4.1 and the mercantile rule is section 36.3.4.1.
3. It picks the architecture label, adding a sprinkler-monitoring note when it applies.
4. It counts addressable points and picks a Kidde VS1 or VS4 panel.
5. It computes the 24 V alarm current and the standby battery capacity. From these it picks the 7/10/18 Ah battery and decides whether a booster supply is needed.
6. It composes the head-end bill of materials (Tier A) and the field-device bill of materials (Tier B).
7. It appends one Tier B line per override component.

The model keeps notes and bill-of-materials lines as tagged values (`Building.Note`, `Building.BomLine`). Each value carries the exact text it renders to.

The project has two layers:

- **Specification.** `Report.Design` is a pure function that builds the report from stage functions:
  - `Requirement.IsRequired` and `Requirement.RequirementNotes`;
  - `Requirement.SystemTypeOf` and `Requirement.SelectorNotes`;
  - `Sizing.SizingNotes`;
  - `Bom.HeadEnd`, `Bom.FieldDevices` and `Bom.NotificationNotes`;
  - `Bom.AiLines` and `Bom.AiNotes`.
- **Engine.** `Engine.Analyze` is the engine written the way the service runs it. It starts from empty lists and appends to them stage by stage. It reassigns the flag, the label and the battery size. It counts components in one loop and merges override lines in a nested loop. It is proved equal to `Report.Design`.

The properties of the report are proved about `Report.Design`:

- the per-category outcomes;
- the panel and battery thresholds as integer thresholds;
- the fixed order of the bill-of-materials lines;
- the append-only override merge.

## Model

| member | source | states |
|---|---|---|
| Engine.Analyze | cell_fire_alarm/main.py:31-166 | one pass over the record yields exactly the report `Report.Design` specifies, with status "Design Generated" |
| Engine.EvaluateOccupancy | cell_fire_alarm/main.py:46-70 | the if/elif chain sets the requirement flag, the forced Voice/Evac label and the stage's notes as the category rules define them |
| Engine.CountPoints | cell_fire_alarm/main.py:83-89 | the loop yields units + 4·stories + 1 plus the component count of every override room; a room without components adds nothing |
| Engine.SizePower | cell_fire_alarm/main.py:99-105 | alarm current and capacity over the source constants; overwriting "7Ah" with "10Ah" above 7 and then with "18Ah" above 10 selects 18 Ah iff units + 2·stories ≥ 1624, 10 Ah iff it is in 767..1623 |
| Engine.ComposeBom | cell_fire_alarm/main.py:111-141 | a required design gets the head-end skeleton, the Tier B rule lines and the notification notes of the specification |
| Engine.MergeOverrides | cell_fire_alarm/main.py:143-158 | the merge only appends: the vision note when there are rooms, then one line per component in room-then-component order |
| Occupancy.ResidentialText | cell_fire_alarm/main.py:48 | defines the residential test: "R-2" or "RESIDENTIAL" anywhere in the upper-cased occupancy |
| Occupancy.HasR2 | cell_fire_alarm/main.py:127 | defines the sounder test: "R-2" anywhere in the upper-cased occupancy |
| Occupancy.Classify | cell_fire_alarm/main.py:48-70 | defines the category: the residential substring test first, then whole-text "assembly", then whole-text mercantile/business/mixed-use, else unclassified (characterised by `Occupancy.ClassifyPriority`) |
| Occupancy.ClassifyPriority | cell_fire_alarm/main.py:48-70 | residential iff "R-2" or "RESIDENTIAL" occurs at some position of the upper-cased text; assembly and mercantile/business/mixed-use need the whole lower-cased text to match, and only when not residential; otherwise unclassified |
| Occupancy.ClassifyIgnoresCase | cell_fire_alarm/main.py:48-66 | texts that differ only in letter case get the same category and the same "R-2" test |
| Strings.Upper | cell_fire_alarm/main.py:48 | defines `str.upper()` over ASCII letters, as used for the residential test (and the "R-2" test at line 127) |
| Strings.Lower | cell_fire_alarm/main.py:59-66 | defines `str.lower()` over ASCII letters, as used for the assembly and mercantile/business/mixed-use comparisons |
| Strings.Contains | cell_fire_alarm/main.py:48 | defines Python's substring test `t in s`, as used at lines 48 and 127 |
| Strings.ContainsIffOccurs | cell_fire_alarm/main.py:48 | the substring test holds exactly when the needle occurs at some index of the text |
| Strings.UpperFromLower | cell_fire_alarm/main.py:48-66 | texts equal after lower-casing are equal after upper-casing, so the two case tests of the chain agree |
| Strings.AbsentCharExcludes | cell_fire_alarm/main.py:48 | a needle holding a character the text lacks is not a substring |
| Strings.NatText | cell_fire_alarm/main.py:93 | a natural number renders as a non-empty run of decimal digits (the digits after the sign of every rendered count) |
| Strings.NatTextRoundTrip | cell_fire_alarm/main.py:93 | the digits of a natural number parse back to the number |
| Strings.DecimalText | cell_fire_alarm/main.py:93 | defines `str` of a Python `int`, as interpolated for the point count (and the counts at lines 129, 130, 141, 148); the text is non-empty, starts with "-" exactly for a negative number and is digits after that |
| Strings.DecimalTextRoundTrip | cell_fire_alarm/main.py:93 | every rendered count, the point count and the unit, story and pull-station counts included, negative ones too, parses back to the number |
| Building.Rooms | cell_fire_alarm/main.py:86-87 | defines the rooms the engine iterates over: none when the overrides are missing or empty, otherwise the `rooms` entry with `[]` as its default (the same test and lookup recur at lines 144-146) |
| Building.RoomName | cell_fire_alarm/main.py:151 | defines a room's name with the "Unknown Room" default |
| Building.RoomComponents | cell_fire_alarm/main.py:152 | defines a room's components with the `[]` default, as also read at line 89 |
| Building.ComponentSku | cell_fire_alarm/main.py:154 | defines a component's SKU with the "Generic" default |
| Building.ComponentDesc | cell_fire_alarm/main.py:155 | defines a component's description with the "Device" default |
| Building.Panel.Text | cell_fire_alarm/main.py:91 | defines the two panel labels |
| Building.Battery.Text | cell_fire_alarm/main.py:103-105 | defines the three battery labels |
| Building.SystemType.Text | cell_fire_alarm/main.py:73 | the label equals "None Required" exactly for the tag the selector tests, so the string comparison is a tag test |
| Building.Note.Text | cell_fire_alarm/main.py:52-148 | defines the exact text of each note, the two-decimal floats through a formatting parameter |
| Building.BomLine.Text | cell_fire_alarm/main.py:113-158 | defines the exact text of each bill-of-materials line |
| Building.Render | cell_fire_alarm/main.py:160-166 | defines the returned record: the status, the label text, and the text of every note and of every Tier A and Tier B line, in order |
| Building.AiMatchTextMentions | cell_fire_alarm/main.py:158 | an override line's text contains the component's description, its room name and its SKU |
| Requirement.IsRequired | cell_fire_alarm/main.py:46-70 | defines the requirement decision per category with the strict thresholds: residential stories > 4 or units > 16, assembly occupants > 300, mercantile sqft > 30000 or stories > 3, unclassified never |
| Requirement.RequirementNotes | cell_fire_alarm/main.py:48-70 | defines the occupancy-stage notes: one of three for residential (required, 12+ units advisory, below thresholds), the requirement note for a required assembly or mercantile building, nothing otherwise |
| Requirement.ForcedType | cell_fire_alarm/main.py:59-64 | defines the label the occupancy stage leaves: Voice/Evac for a required assembly building, "None Required" otherwise |
| Requirement.SelectorNotes | cell_fire_alarm/main.py:72-76 | defines the selector's note: sprinkler monitoring when it switches a required building to addressable and the building is sprinklered |
| Requirement.SystemTypeOf | cell_fire_alarm/main.py:59-74 | "None Required" iff no system is required; Voice/Evac iff required and assembly; addressable iff required and not assembly |
| Sizing.TotalComponents | cell_fire_alarm/main.py:86-89 | defines the number of override components over all rooms, a room without a components key counting zero |
| Sizing.EstimatedPoints | cell_fire_alarm/main.py:83-89 | defines the point count: units + 2·stories + (2·stories + 1) plus the override components |
| Sizing.PanelFor | cell_fire_alarm/main.py:91 | defines the panel choice: VS4 above 64 points, VS1 otherwise |
| Sizing.NotificationLoad | cell_fire_alarm/main.py:99 | defines the device count the alarm current is taken over: units + 2·stories |
| Sizing.AlarmLoadAmps | cell_fire_alarm/main.py:99 | defines the alarm current: 0.035 A per device |
| Sizing.BatteryAh | cell_fire_alarm/main.py:100-102 | defines the capacity: (0.150 A · 24 h + alarm current · 0.0833 h) · 1.2 |
| Sizing.BatteryFor | cell_fire_alarm/main.py:103-105 | defines the battery: 18 Ah above 10, 10 Ah above 7, 7 Ah otherwise, the outcome of the source's overwriting assignments |
| Sizing.SizingNotes | cell_fire_alarm/main.py:91-108 | defines the sizing notes of a required design: the point count with its panel, then the power analysis |
| Sizing.TotalComponentsAppend | cell_fire_alarm/main.py:86-89 | the component count of two room lists laid end to end is the sum of their counts |
| Sizing.BatteryTierThresholds | cell_fire_alarm/main.py:99-105 | the battery tier as thresholds 767 and 1624 on units + 2·stories; the capacity is never exactly 7 or 10 Ah |
| Sizing.BoosterThreshold | cell_fire_alarm/main.py:99-124 | the alarm current exceeds 6 A iff units + 2·stories ≥ 172 |
| Sizing.BatteryNeverShrinks | cell_fire_alarm/main.py:99-105 | more units or stories never select a smaller battery |
| Sizing.AddedRoomsNeverShrinkPanel | cell_fire_alarm/main.py:83-91 | appending override rooms raises the point count by their components and never turns a VS4 panel into VS1 |
| Sizing.AddedComponentNeverShrinksPanel | cell_fire_alarm/main.py:83-91 | one more component in one room raises the point count by exactly one and never turns a VS4 panel into VS1 |
| Bom.HeadEnd | cell_fire_alarm/main.py:111-124 | defines Tier A: panel, annunciator, communicator, surge protection, doc box, batteries, and the booster when the alarm current exceeds 6 A |
| Bom.FieldDevices | cell_fire_alarm/main.py:126-141 | defines the rule lines of Tier B, sounders and circuits only for "R-2" |
| Bom.NotificationNotes | cell_fire_alarm/main.py:127-139 | defines the notification notes: sleeping areas for "R-2", corridor strobes, and full smoke detection when not sprinklered |
| Bom.MatchLine | cell_fire_alarm/main.py:151-158 | defines one override line with the "Unknown Room", "Generic" and "Device" defaults |
| Bom.RoomLines | cell_fire_alarm/main.py:152-158 | defines the override lines of one room, in component order |
| Bom.AiLines | cell_fire_alarm/main.py:146-158 | defines the override lines of all rooms, room by room |
| Bom.AiNotes | cell_fire_alarm/main.py:147-148 | defines the vision note with the room count, present only for a non-empty room list |
| Bom.FieldDevicesLayout | cell_fire_alarm/main.py:126-141 | the rule lines of Tier B: sounders and circuits first for "R-2", then strobes, monitor modules when sprinklered, and pull stations for 2·stories + 1 exits |
| Bom.RoomLinesLayout | cell_fire_alarm/main.py:150-158 | a room yields one line per component, line j naming component j with the "Device"/"Generic" defaults |
| Bom.AiLinesAppend | cell_fire_alarm/main.py:150-158 | the override lines of two room lists laid end to end are the lines of the first followed by those of the second |
| Bom.AiLinesLength | cell_fire_alarm/main.py:86-158 | the merge appends exactly as many lines as the point count added components |
| Bom.PrefixComponentsBound | cell_fire_alarm/main.py:86-89 | the components of the rooms before i plus those of room i are within the total |
| Bom.AiLineAt | cell_fire_alarm/main.py:150-158 | component j of room i is the override line at the position after the earlier rooms' components and the j components before it |
| Bom.AiLinesLayout | cell_fire_alarm/main.py:144-158 | all override lines in room-then-component order, each of them an AI match line |
| Bom.AiMatchAt | cell_fire_alarm/main.py:158 | every override line is an AI match line |
| Report.RuleNotes | cell_fire_alarm/main.py:38-141 | defines the rule notes in stage order: occupancy, selector, and for a required design sizing and notification |
| Report.RuleHeadEnd | cell_fire_alarm/main.py:111-124 | defines Tier A as `Bom.HeadEnd` when required, empty otherwise |
| Report.RuleFieldLines | cell_fire_alarm/main.py:111-141 | defines the rule part of Tier B as `Bom.FieldDevices` when required, empty otherwise |
| Report.Design | cell_fire_alarm/main.py:31-166 | defines the whole report: status, label, rule notes then vision note, Tier A, rule lines then override lines (the engine is proved equal to it) |
| Report.NotRequiredReport | cell_fire_alarm/main.py:92-141 | without a requirement the label is "None Required", Tier A is empty and only the occupancy note and the override merge fill the lists |
| Report.UnclassifiedReport | cell_fire_alarm/main.py:48-70 | an unclassified occupancy gets no rule notes and no rule lines, only the override note and lines, and with no rooms an empty design |
| Report.ResidentialReport | cell_fire_alarm/main.py:48-57 | residential: required iff more than 4 stories or 16 units, with the required note first; otherwise exactly one advisory note (12+ units: local amendments) and empty bills |
| Report.SprinklerNoteFromSelector | cell_fire_alarm/main.py:72-76 | the sprinkler-monitoring note is in the report iff the selector emitted it |
| Report.AssemblyReport | cell_fire_alarm/main.py:59-76 | assembly: required iff more than 300 occupants, then Voice/Evac with its note first; never the sprinkler-monitoring note |
| Report.MercantileReport | cell_fire_alarm/main.py:66-76 | mercantile/business/mixed-use: required iff above 30000 sqft or 3 stories, then addressable with its note first, and the sprinkler note iff sprinklered |
| Report.HeadEndReport | cell_fire_alarm/main.py:111-124 | Tier A has 6 lines, or 7 with the booster iff units + 2·stories ≥ 172; the panel is VS4 iff points > 64; the fixed lines follow in order; the battery tier is given by the integer thresholds |
| Report.FieldDeviceReport | cell_fire_alarm/main.py:126-141 | Tier B starts with sounders and circuits for "R-2", then strobes, monitor modules when sprinklered, and pull stations (2·stories + 1), followed by one line per override component |
| Report.SounderLinesNeedR2 | cell_fire_alarm/main.py:127-130 | a sounder line appears iff the system is required and the occupancy names "R-2" |
| Report.AppendedAiNotes | cell_fire_alarm/main.py:146-148 | appending the vision note keeps the earlier notes, and the note appears only last and only when there are rooms |
| Report.RuleNotesHaveNoVisionNote | cell_fire_alarm/main.py:38-141 | no rule stage emits the vision note |
| Report.AiMergeReport | cell_fire_alarm/main.py:143-158 | the rule notes and lines stay in front, Tier B grows by the component count, and the vision note with the room count is last and unique |
| Report.AiMergeLineAt | cell_fire_alarm/main.py:150-158 | component j of room i lands right after the rule lines, the earlier rooms' components and the j components before it |
| Report.RenderedDesign | cell_fire_alarm/main.py:160-166 | the returned report has status "Design Generated", the label "None Required" iff no system is required, and one text per note and line |
| Scenarios.ResidentialWord | cell_fire_alarm/main.py:48 | "Residential" passes the residential test but not the "R-2" test |
| Scenarios.R2FiveStories | cell_fire_alarm/main.py:48-52 | "R-2" with 5 stories and 10 units is required by the story rule, and Tier B opens with 10 sounders and 5 circuits |
| Scenarios.ResidentialGrayZone | cell_fire_alarm/main.py:53-55 | "Residential" with 14 units on 2 stories is not required, gets only the local-amendments note and has empty bills |
| Scenarios.ResidentialWithoutR2 | cell_fire_alarm/main.py:127-130 | "Residential" with 20 units is required yet has no sounder line |
| Scenarios.MercantileWord | cell_fire_alarm/main.py:66 | "Mercantile" classifies as mercantile |
| Scenarios.MercantileBoundary | cell_fire_alarm/main.py:68 | the mercantile thresholds are strict: 30000 sqft on 3 stories is not required, 30001 sqft is |
| Scenarios.OneRoomTwoComponents | cell_fire_alarm/main.py:86-158 | one room with two components adds 2 points and two Tier B lines in component order after the rule lines |

## Left out

- The web layer is not modelled. This covers the FastAPI application, the pydantic validation of the request, the `print` logging and the knowledge-base path probe (`main.py:1-11`, `main.py:36`, `main.py:145`, `main.py:168-170`).
- `Strings.Upper` / `Strings.Lower` map ASCII letters only, while Python's `upper()`/`lower()` map all Unicode letters. A non-ASCII occupancy text may therefore classify differently (`main.py:48-66`) and may pass or fail the "R-2" sounder test at `main.py:127` differently.
- Currents and capacities are exact rationals, not IEEE doubles. The thresholds 172, 767 and 1624 hold exactly. With doubles they hold as long as units + 2·stories stays far below 2^53.
- `Sizing.AlarmLoadAmps` does not model the `OverflowError` that `main.py:99` raises when units + 2·stories is too large to convert to a double (about 1.8e308): the model returns a report for such inputs, the service returns an error.
- The two-decimal rendering (`:.2f`) of the power-analysis note is a parameter of `Building.Note.Text`, so the note's digits are not modelled.
- `ai_overrides` is modelled as a missing-or-empty dictionary (`None`), or a dictionary whose `rooms` key is missing or holds a list of rooms. Rooms and components are records whose keys may be missing. Not modelled:
  - other keys;
  - values of other types;
  - a `rooms` or `components` key present with value `null`, which the source would fail on.
- The `ceiling_height` input is carried but unused, as in the source.
- Everything outside `cell_fire_alarm/main.py` is not part of this model. This includes the `cortex/` services and the `documentation_support/` scripts.
- Behaviour of the code that is easy to misread:
  - Sounder and notification-circuit lines, and the sleeping-area note, are added only when the upper-cased occupancy contains "R-2" (`main.py:127`). This is narrower than the residential test, so "Residential" alone gets none (`Report.SounderLinesNeedR2`).
  - An unclassified occupancy with override rooms still gets the vision note and the override lines (`Report.UnclassifiedReport`).
  - A required assembly building never gets the sprinkler-monitoring note, whatever its sprinkler flag. The selector only acts on a "None Required" label (`Report.AssemblyReport`).
  - A battery capacity exactly at 7 or 10 Ah cannot arise from integer unit and story counts (`Sizing.BatteryTierThresholds`), so the boundary case exists only as the strict comparisons in `Sizing.BatteryFor`.
