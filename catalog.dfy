/** The two static preset catalogs — named macro-scenarios and countries —
    each a finite map from names to indicator sets, looked up with a fixed
    fallback for a name that is not in the map. */
module Catalog {
  import opened RiskModel

  /** Country presets for individual tracking. */
  const CountryTable: map<string, Indicators> := map[
    "United States" := Indicators(130.0, 0.7, 0.07, 2.0, 0.6, 0.6),
    "China" := Indicators(140.0, 0.8, 0.08, 2.0, 0.9, 0.7),
    "Russia" := Indicators(135.0, 0.6, 0.08, 3.0, 0.85, 0.8),
    "European Union" := Indicators(125.0, 0.5, 0.05, 1.0, 0.7, 0.6),
    "India" := Indicators(120.0, 0.4, 0.06, 1.0, 0.8, 0.7),
    "Middle East" := Indicators(130.0, 0.5, 0.07, 2.0, 0.9, 0.8)
  ]

  /** The country whose entry stands in for an unknown country. */
  const CountryFallback: string := "United States"

  /** The preset of a country; an unknown name gets the fallback country's preset. */
  function CountryScenario(country: string): (r: Indicators)
    ensures r in CountryTable.Values
  {
    if country in CountryTable then CountryTable[country] else CountryTable[CountryFallback]
  }

  /** The names the scenario selector offers, in display order. */
  const ScenarioOptions: seq<string> := [
    "Custom", "Trade War Escalation", "Energy Crisis", "Cyber Conflict", "Calm Recovery",
    "Sanctions Spiral", "Alliance Breakdown", "Global Recovery", "Climate Shock Conflict"
  ]

  /** Named macro-scenario presets. */
  const ScenarioTable: map<string, Indicators> := map[
    "Trade War Escalation" := Indicators(130.0, 0.7, 0.07, 2.0, 0.8, 0.7),
    "Energy Crisis" := Indicators(125.0, 0.4, 0.05, 1.0, 0.9, 0.8),
    "Cyber Conflict" := Indicators(120.0, 0.5, 0.06, 2.0, 0.7, 0.6),
    "Calm Recovery" := Indicators(110.0, 0.3, 0.04, 0.0, 0.6, 0.5),
    "Sanctions Spiral" := Indicators(135.0, 0.8, 0.07, 2.0, 0.85, 0.75),
    "Alliance Breakdown" := Indicators(140.0, 0.6, 0.07, 3.0, 0.8, 0.8),
    "Global Recovery" := Indicators(105.0, 0.2, 0.03, 0.0, 0.5, 0.4),
    "Climate Shock Conflict" := Indicators(135.0, 0.5, 0.06, 2.0, 0.95, 0.85)
  ]

  /** The record an unknown scenario name gets. */
  const ScenarioDefault: Indicators := Indicators(120.0, 0.4, 0.05, 1.0, 0.7, 0.6)

  /** The preset of a named scenario; an unknown name gets the default record. */
  function ScenarioPreset(preset: string): (r: Indicators)
    ensures r in ScenarioTable.Values || r == ScenarioDefault
  {
    if preset in ScenarioTable then ScenarioTable[preset] else ScenarioDefault
  }

  // ---------------------------------------------------------------------
  // Country lookups.
  // ---------------------------------------------------------------------

  /** Each of the six known countries gets its own record. */
  lemma CountryScenarioKnown()
    ensures CountryScenario("United States") == Indicators(130.0, 0.7, 0.07, 2.0, 0.6, 0.6)
    ensures CountryScenario("China") == Indicators(140.0, 0.8, 0.08, 2.0, 0.9, 0.7)
    ensures CountryScenario("Russia") == Indicators(135.0, 0.6, 0.08, 3.0, 0.85, 0.8)
    ensures CountryScenario("European Union") == Indicators(125.0, 0.5, 0.05, 1.0, 0.7, 0.6)
    ensures CountryScenario("India") == Indicators(120.0, 0.4, 0.06, 1.0, 0.8, 0.7)
    ensures CountryScenario("Middle East") == Indicators(130.0, 0.5, 0.07, 2.0, 0.9, 0.8)
  {
  }

  /** Any other name gets the United States record, and never an error. */
  lemma CountryScenarioFallback(country: string)
    requires country !in {"United States", "China", "Russia", "European Union", "India", "Middle East"}
    ensures CountryScenario(country) == Indicators(130.0, 0.7, 0.07, 2.0, 0.6, 0.6)
  {
  }

  /** A name gets the United States record exactly when it is that name or unknown. */
  lemma CountryScenarioIsUnitedStates(country: string)
    ensures CountryScenario(country) == CountryTable["United States"]
        <==> country == "United States" || country !in CountryTable
  {
  }

  /** The concrete fallback case: "Atlantis" resolves to the United States record. */
  lemma AtlantisIsUnitedStates()
    ensures CountryScenario("Atlantis") == CountryScenario("United States")
  {
  }

  // ---------------------------------------------------------------------
  // Scenario lookups.
  // ---------------------------------------------------------------------

  /** Each of the eight named presets gets its listed record. */
  lemma ScenarioPresetKnown()
    ensures ScenarioPreset("Trade War Escalation") == Indicators(130.0, 0.7, 0.07, 2.0, 0.8, 0.7)
    ensures ScenarioPreset("Energy Crisis") == Indicators(125.0, 0.4, 0.05, 1.0, 0.9, 0.8)
    ensures ScenarioPreset("Cyber Conflict") == Indicators(120.0, 0.5, 0.06, 2.0, 0.7, 0.6)
    ensures ScenarioPreset("Calm Recovery") == Indicators(110.0, 0.3, 0.04, 0.0, 0.6, 0.5)
    ensures ScenarioPreset("Sanctions Spiral") == Indicators(135.0, 0.8, 0.07, 2.0, 0.85, 0.75)
    ensures ScenarioPreset("Alliance Breakdown") == Indicators(140.0, 0.6, 0.07, 3.0, 0.8, 0.8)
    ensures ScenarioPreset("Global Recovery") == Indicators(105.0, 0.2, 0.03, 0.0, 0.5, 0.4)
    ensures ScenarioPreset("Climate Shock Conflict") == Indicators(135.0, 0.5, 0.06, 2.0, 0.95, 0.85)
  {
  }

  /** Any name outside the eight presets gets (120, 0.4, 0.05, 1, 0.7, 0.6). */
  lemma ScenarioPresetFallback(preset: string)
    requires preset !in {"Trade War Escalation", "Energy Crisis", "Cyber Conflict", "Calm Recovery",
                         "Sanctions Spiral", "Alliance Breakdown", "Global Recovery", "Climate Shock Conflict"}
    ensures ScenarioPreset(preset) == Indicators(120.0, 0.4, 0.05, 1.0, 0.7, 0.6)
  {
  }

  /** The selector offers exactly the eight presets plus "Custom", and
      "Custom" has no entry of its own, so it always gets the default record. */
  lemma CustomUsesDefault()
    ensures (set name | name in ScenarioOptions) == ScenarioTable.Keys + {"Custom"}
    ensures "Custom" !in ScenarioTable
    ensures ScenarioPreset("Custom") == ScenarioDefault
  {
    var options := set name | name in ScenarioOptions;
    forall name | name in ScenarioTable.Keys + {"Custom"}
      ensures name in options
    {
      assert name in ScenarioOptions;
    }
  }

  /** The default record is not the record of any named preset, so a miss can
      be told apart from a hit by its result. */
  lemma ScenarioDefaultIsDistinct()
    ensures ScenarioDefault !in ScenarioTable.Values
  {
  }
}
