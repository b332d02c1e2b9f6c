/** Country-by-country risk profiles: every listed country is scored from
    its preset and the score stored under its name, in list order. */
module CountryRisk {
  import opened RiskModel
  import opened Catalog
  import opened OrderedDict

  /** The countries tracked, in display order. */
  const Countries: seq<string> := ["United States", "China", "Russia", "European Union", "India", "Middle East"]

  /** The expected table: one entry per listed country, in list order, holding
      the score of that country's preset. */
  function CountryRiskTable(): (t: Dict<string, real>)
    ensures Keys(t) == Countries
  {
    seq(|Countries|, i requires 0 <= i < |Countries| => (Countries[i], Risk(CountryScenario(Countries[i]))))
  }

  /** Fills the country-risk dictionary one country at a time. */
  method ComputeCountryRisks() returns (countryRisks: Dict<string, real>)
    ensures Keys(countryRisks) == Countries
    ensures forall i :: 0 <= i < |Countries| ==> countryRisks[i].1 == Risk(CountryScenario(Countries[i]))
    ensures countryRisks == CountryRiskTable()
  {
    countryRisks := [];
    for i := 0 to |Countries|
      invariant Keys(countryRisks) == Countries[..i]
      invariant forall j :: 0 <= j < i ==> countryRisks[j].1 == Risk(CountryScenario(Countries[j]))
    {
      var country := Countries[i];
      var factors := CountryScenario(country);
      assert country !in Keys(countryRisks) by { CountriesDistinct(); }
      countryRisks := Put(countryRisks, country, Risk(factors));
      assert Countries[..i + 1] == Countries[..i] + [country];
    }
    assert Countries[..|Countries|] == Countries;
  }

  /** The six listed countries are pairwise distinct. */
  lemma CountriesDistinct()
    ensures forall i, j :: 0 <= i < j < |Countries| ==> Countries[i] != Countries[j]
  {
  }

  /** The table has no repeated key. */
  lemma CountryRiskTableDistinct()
    ensures DistinctKeys(CountryRiskTable())
  {
    var t := CountryRiskTable();
    CountriesDistinct();
    forall i, j | 0 <= i < j < |t|
      ensures t[i].0 != t[j].0
    {
      assert t[i].0 == Countries[i] && t[j].0 == Countries[j];
    }
  }

  /** Looking a listed country up gives the score of its preset; looking up
      an unlisted name gives nothing. */
  lemma CountryRiskLookup(country: string)
    ensures Lookup(CountryRiskTable(), country)
         == if country in Countries then Some(Risk(CountryScenario(country))) else None
  {
    var t := CountryRiskTable();
    if country in Countries {
      var i :| 0 <= i < |Countries| && Countries[i] == country;
      CountryRiskTableDistinct();
      LookupAt(t, i);
    } else {
      assert country !in Keys(t);
    }
  }

  /** Every listed country has its own preset, so no listed country is
      scored from the fallback record by accident. */
  lemma CountriesAreInCatalog()
    ensures forall c :: c in Countries <==> c in CountryTable
  {
  }

  /** The concrete scores, exactly. */
  lemma CountryRiskValues()
    ensures CountryRiskTable() == [
      ("United States", 7.7389),
      ("China", 8.2756),
      ("Russia", 8.0506),
      ("European Union", 7.4335),
      ("India", 7.1882),
      ("Middle East", 7.7529)
    ]
  {
    CountryScenarioKnown();
  }
}
