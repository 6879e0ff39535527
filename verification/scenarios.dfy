/** Concrete building records evaluated by the report specification. */
module Scenarios {
  import opened Strings
  import opened Building
  import opened Occupancy
  import opened Requirement
  import opened Sizing
  import opened Bom
  import opened Report

  function Plain(occupancy: string, sqft: int, stories: int, units: int): BuildingInput {
    BuildingInput(occupancy, sqft, 10, 0, stories, units, false, None)
  }

  lemma ResidentialCase()
    ensures Upper("Residential") == "RESIDENTIAL"
  {
    assert |Upper("Residential")| == 11;
    forall i | 0 <= i < 11
      ensures Upper("Residential")[i] == "RESIDENTIAL"[i]
    {
    }
  }

  /** "Residential" names the residential category without naming "R-2". */
  lemma ResidentialWord()
    ensures ResidentialText("Residential") && !HasR2("Residential")
  {
    ResidentialCase();
    assert Contains("RESIDENTIAL", "RESIDENTIAL");
    AbsentCharExcludes("RESIDENTIAL", "R-2", '-');
  }

  /** "R-2" with five stories and ten units: the story rule alone requires a
      system, and Tier B opens with ten sounders and five circuits. */
  lemma R2FiveStories()
    ensures var d := Design(Plain("R-2", 20000, 5, 10));
      && d.systemType == Addressable
      && d.bomB[..2] == [LfSounders(10), NotificationCircuits(5)]
  {
    var b := Plain("R-2", 20000, 5, 10);
    assert Upper("R-2") == "R-2";
    assert Contains(Upper("R-2"), "R-2");
    assert Classify(b.occupancy) == Residential;
    FieldDeviceReport(b);
  }

  /** "Residential" with fourteen units on two stories: not required, one gray-zone note. */
  lemma ResidentialGrayZone()
    ensures var d := Design(Plain("Residential", 20000, 2, 14));
      d.systemType == NoneRequired && d.notes == [CheckLocalAmendments] && d.bomA == [] && d.bomB == []
  {
    var b := Plain("Residential", 20000, 2, 14);
    ResidentialWord();
    ResidentialReport(b);
  }

  /** "Residential" with twenty units: required, but without "R-2" no sounder lines. */
  lemma ResidentialWithoutR2()
    ensures var b := Plain("Residential", 20000, 2, 20);
      Design(b).systemType == Addressable
      && forall k :: 0 <= k < |Design(b).bomB| ==> !Design(b).bomB[k].LfSounders?
  {
    var b := Plain("Residential", 20000, 2, 20);
    ResidentialWord();
    SounderLinesNeedR2(b);
  }

  lemma MercantileCase()
    ensures Upper("Mercantile") == "MERCANTILE" && Lower("Mercantile") == "mercantile"
  {
    assert |Upper("Mercantile")| == |Lower("Mercantile")| == 10;
    forall i | 0 <= i < 10
      ensures Upper("Mercantile")[i] == "MERCANTILE"[i] && Lower("Mercantile")[i] == "mercantile"[i]
    {
    }
  }

  /** An occupancy whose upper-cased text lacks both '-' and 'S' is not residential. */
  lemma NotResidentialWithout(occupancy: string, upper: string)
    requires Upper(occupancy) == upper && '-' !in upper && 'S' !in upper
    ensures !ResidentialText(occupancy)
  {
    AbsentCharExcludes(upper, "R-2", '-');
    AbsentCharExcludes(upper, "RESIDENTIAL", 'S');
  }

  /** "Mercantile" names the mercantile category. */
  lemma MercantileWord()
    ensures Classify("Mercantile") == MercantileBusiness
  {
    MercantileCase();
    NotResidentialWithout("Mercantile", "MERCANTILE");
    assert "mercantile" != "assembly" by {
      assert "mercantile"[0] != "assembly"[0];
    }
  }

  /** Mercantile thresholds are strict: 30000 sqft on three stories is not required, 30001 on one is. */
  lemma MercantileBoundary()
    ensures !IsRequired(Plain("Mercantile", 30000, 3, 0))
    ensures IsRequired(Plain("Mercantile", 30001, 1, 0))
  {
    MercantileWord();
  }

  /** One room with two components adds two points and two Tier B lines, in component order. */
  lemma OneRoomTwoComponents(b: BuildingInput, c1: Component, c2: Component)
    requires Rooms(b) == [Room(Some("Lobby"), Some([c1, c2]))]
    ensures var plain := b.(aiOverrides := None);
      && EstimatedPoints(b) == EstimatedPoints(plain) + 2
      && Design(b).bomB == RuleFieldLines(b) + [MatchLine("Lobby", c1), MatchLine("Lobby", c2)]
  {
    var r := Room(Some("Lobby"), Some([c1, c2]));
    assert [r][..0] == [];
    assert [c1, c2][..1] == [c1] && [c1][..0] == [];
    assert RoomLines("Lobby", [c1]) == [MatchLine("Lobby", c1)];
    assert AiLines([r]) == RoomLines("Lobby", [c1, c2]);
    assert Design(b).bomB == RuleFieldLines(b) + AiLines(Rooms(b));
    assert TotalComponents(Rooms(b)) == 2 by {
      assert TotalComponents([r]) == TotalComponents([]) + 2;
    }
  }
}
