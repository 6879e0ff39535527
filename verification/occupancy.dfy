/** Occupancy & Requirement Analysis, first half: maps the free-text occupancy to the one category whose
    code threshold the engine applies, testing residential first, then
    assembly, then mercantile/business/mixed-use. */
module Occupancy {
  import opened Strings

  datatype Category = Residential | Assembly | MercantileBusiness | Unclassified

  /** The residential test: "R-2" or "RESIDENTIAL" anywhere in the upper-cased text. */
  predicate ResidentialText(occupancy: string) {
    Contains(Upper(occupancy), "R-2") || Contains(Upper(occupancy), "RESIDENTIAL")
  }

  /** The sounder test: "R-2" anywhere in the upper-cased text ("RESIDENTIAL" alone does not count). */
  predicate HasR2(occupancy: string) {
    Contains(Upper(occupancy), "R-2")
  }

  /** Residential first, then assembly, then mercantile/business/mixed-use. */
  function Classify(occupancy: string): Category {
    if ResidentialText(occupancy) then Residential
    else if Lower(occupancy) == "assembly" then Assembly
    else if Lower(occupancy) in ["mercantile", "business", "mixed-use"] then MercantileBusiness
    else Unclassified
  }

  /** The classification by position of the keywords: a residential keyword
      anywhere wins over every other test; the other categories need the whole
      lower-cased text to match. */
  lemma ClassifyPriority(occupancy: string)
    ensures Classify(occupancy) == Residential <==>
      Occurs(Upper(occupancy), "R-2") || Occurs(Upper(occupancy), "RESIDENTIAL")
    ensures Classify(occupancy) == Assembly <==>
      Classify(occupancy) != Residential && Lower(occupancy) == "assembly"
    ensures Classify(occupancy) == MercantileBusiness <==>
      Classify(occupancy) != Residential && Lower(occupancy) in {"mercantile", "business", "mixed-use"}
    ensures Classify(occupancy) == Unclassified <==>
      Classify(occupancy) != Residential
      && Lower(occupancy) !in {"assembly", "mercantile", "business", "mixed-use"}
  {
    ContainsIffOccurs(Upper(occupancy), "R-2");
    ContainsIffOccurs(Upper(occupancy), "RESIDENTIAL");
  }

  /** Occupancy strings that differ only in letter case fall in the same category. */
  lemma ClassifyIgnoresCase(s: string, t: string)
    requires Lower(s) == Lower(t)
    ensures Classify(s) == Classify(t)
    ensures HasR2(s) == HasR2(t)
  {
    UpperFromLower(s, t);
  }
}
