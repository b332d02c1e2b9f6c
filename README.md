# Geopolitical conflict-risk simulator — verified model

This project models the computational core of the WW3 geopolitical risk
simulator, a single Python script (`ww3_risk_sim.py`) behind an interactive
dashboard. Its core has four parts:

- **The risk score** (`RiskModel`). This is a fixed affine combination of six
  indicators: GTI (geopolitical tension), TWSI (trade-war severity), MBR
  (military build-up rate), AFS (alliance fragmentation), EDS (energy
  dependency) and EVI (economic vulnerability). The intercept is 1 and the
  slopes are 0.05, 0.10, 0.07, 0.04, 0.06 and 0.08. It is modelled over
  Dafny's exact `real`, so the decimal coefficients are exact. The score is
  total: no input is validated or clamped.
- **The two preset catalogs** (`Catalog`). Each maps names to indicator
  records. A name that is not in the country catalog gets the "United
  States" record. A name that is not in the scenario catalog gets the fixed
  default record (120, 0.4, 0.05, 1, 0.7, 0.6). "Custom" is offered by the
  selector but has no entry, so it always gets that default.
- **The country table** (`CountryRisk`, using `OrderedDict`). The script
  loop that scores each of the six listed countries and stores the score
  under the country's name. It is a method over an insertion-ordered
  association list with the semantics of Python's `dict`.
- **The timeline** (`Timeline`). The script loop over the years 2025..2035.
  Each year it multiplies every base indicator by that year's noise factor,
  scores the product and appends the score. The random draw becomes a
  parameter: one six-tuple of factors per year.

The base indicators of the timeline are the current slider values. Here they
are a parameter of the method.

## Model

| member | source | states |
|---|---|---|
| `RiskModel.Risk` | ww3_risk_sim.py:9-27 | the score of any real indicators, with no precondition, equals the intercept b0 plus the weighted sum of the indicator vector (GTI, TWSI, MBR, AFS, EDS, EVI) with the slopes b1..b6 |
| `RiskModel.RiskIsWeightedSum` | ww3_risk_sim.py:9-27 | for every real input the score is 1 plus the weighted sum of (GTI, TWSI, MBR, AFS, EDS, EVI) with weights 0.05, 0.10, 0.07, 0.04, 0.06, 0.08; no precondition |
| `RiskModel.RiskBaseline` | ww3_risk_sim.py:10-26 | with all six indicators at 0 the score is exactly 1 |
| `RiskModel.RiskFieldDelta` | ww3_risk_sim.py:18-26 | changing one indicator by d, others fixed, changes the score by exactly that indicator's coefficient times d |
| `RiskModel.Coefficient` | ww3_risk_sim.py:11-16 | each indicator's coefficient is positive |
| `RiskModel.RiskStrictlyIncreasing` | ww3_risk_sim.py:11-26 | raising any single indicator strictly raises the score |
| `RiskModel.RiskAdditive` | ww3_risk_sim.py:18-26 | the slope part (score minus 1) of a field-wise sum is the sum of the slope parts |
| `RiskModel.RiskScaling` | ww3_risk_sim.py:18-26 | scaling all six indicators by c scales the slope part of the score by c |
| `RiskModel.RiskMonotone` | ww3_risk_sim.py:11-26 | if every indicator of x is at most the same indicator of y then score(x) <= score(y) |
| `Catalog.CountryScenario` | ww3_risk_sim.py:30-39 | the lookup is total and always returns one of the six country records |
| `Catalog.CountryScenarioKnown` | ww3_risk_sim.py:31-38 | each of the six known countries gets exactly its listed record |
| `Catalog.CountryScenarioFallback` | ww3_risk_sim.py:32-39 | any other name gets the United States record (130, 0.7, 0.07, 2, 0.6, 0.6) |
| `Catalog.CountryScenarioIsUnitedStates` | ww3_risk_sim.py:32-39 | a name gets the United States record if and only if it is "United States" or not in the table |
| `Catalog.AtlantisIsUnitedStates` | ww3_risk_sim.py:39 | the unknown name "Atlantis" resolves to the United States record |
| `Catalog.ScenarioPreset` | ww3_risk_sim.py:51-62 | the lookup is total; it returns one of the eight preset records or the default record |
| `Catalog.ScenarioPresetKnown` | ww3_risk_sim.py:52-61 | each of the eight named presets gets exactly its listed record |
| `Catalog.ScenarioPresetFallback` | ww3_risk_sim.py:62 | any name outside the eight presets gets (120, 0.4, 0.05, 1, 0.7, 0.6) |
| `Catalog.CustomUsesDefault` | ww3_risk_sim.py:46-62 | the selector offers exactly the eight presets plus "Custom"; "Custom" has no entry and gets the default record |
| `Catalog.ScenarioDefaultIsDistinct` | ww3_risk_sim.py:52-62 | the default record differs from every named preset, so a miss is distinguishable from a hit |
| `OrderedDict.Lookup` | ww3_risk_sim.py:81-84 | a dictionary lookup finds nothing exactly when the key is not among the keys |
| `OrderedDict.Put` | ww3_risk_sim.py:84 | assignment appends a new key at the end and keeps an existing key in its place |
| `OrderedDict.PutLookup` | ww3_risk_sim.py:84 | after `d[k] = v`, k looks up v and every other key looks up what it did before |
| `OrderedDict.PutDistinct` | ww3_risk_sim.py:84 | assignment never creates a repeated key |
| `OrderedDict.LookupAt` | ww3_risk_sim.py:81-84 | in a dictionary without repeated keys, the key at position i looks up the value at position i |
| `CountryRisk.ComputeCountryRisks` | ww3_risk_sim.py:80-84 | the loop yields exactly one entry per listed country, in list order, each the score of that country's preset |
| `CountryRisk.CountryRiskTable` | ww3_risk_sim.py:80-84 | the expected table's keys are the six listed countries in order |
| `CountryRisk.CountryRiskLookup` | ww3_risk_sim.py:80-84 | a listed country looks up the score of its preset; any other name looks up nothing |
| `CountryRisk.CountryRiskTableDistinct` | ww3_risk_sim.py:80-84 | the country table has no repeated key |
| `CountryRisk.CountriesDistinct` | ww3_risk_sim.py:80 | the six listed country names are pairwise distinct |
| `CountryRisk.CountriesAreInCatalog` | ww3_risk_sim.py:80 | a name is listed for the table if and only if it has its own country preset, so no listed country falls back |
| `CountryRisk.CountryRiskValues` | ww3_risk_sim.py:80-84 | the exact scores: United States 7.7389, China 8.2756, Russia 8.0506, European Union 7.4335, India 7.1882, Middle East 7.7529 |
| `Timeline.Range` | ww3_risk_sim.py:98 | `range(lo, hi)` has hi - lo elements (none when hi <= lo), the i-th being lo + i |
| `Timeline.Years` | ww3_risk_sim.py:98 | `list(range(2025, 2036))`: one year per position, position i holding 2025 + i |
| `Timeline.YearsShape` | ww3_risk_sim.py:98 | the years are exactly 2025..2035: 11 of them, strictly ascending |
| `Timeline.SimulateTimeline` | ww3_risk_sim.py:98-112 | one risk per year (11 in all); year i's risk is the score of the base indicators multiplied field by field by draw i |
| `Timeline.Perturb` | ww3_risk_sim.py:104-111 | each base indicator is multiplied by its own factor; the all-ones draw leaves the base unchanged, and six equal factors c scale the whole base by c |
| `Timeline.RiskPath` | ww3_risk_sim.py:99-112 | the reference the timeline loop is proved equal to: one risk per draw, each the score of the same base perturbed by that draw |
| `Timeline.RiskPathAt` | ww3_risk_sim.py:102-112 | the yearly risks have one entry per draw, entry i being the score of the base perturbed by draw i |
| `Timeline.NoCompounding` | ww3_risk_sim.py:104-111 | year i's risk depends only on the base values and draw i; the other years' draws do not affect it |
| `Timeline.FlatWithoutNoise` | ww3_risk_sim.py:102-112 | when every factor is 1, every year's risk equals the score of the base indicators |
| `Timeline.UniformNoise` | ww3_risk_sim.py:103-111 | a year whose six factors all equal c has risk 1 + c * (score(base) - 1) |

## Left out

- The Streamlit widgets are presentation only and are not modelled: the title, the selectors, the metric display and the `.2f` percentage formatting (ww3_risk_sim.py:42-48, 67-76, 135-136).
- The slider ranges and the `int(...)`/`float(...)` coercions of preset values (ww3_risk_sim.py:67-72) are widget behaviour. The score accepts any real. The timeline's base indicators, which are the slider values, are a parameter here.
- The pandas tables, the matplotlib charts and the Excel export (ww3_risk_sim.py:86-94, 114-133) are presentation and file I/O. The pairing of the years with the timeline risks into one table (line 114) is not modelled. Timeline risk i belongs to `Years()[i]`.
- `np.random.normal(1, 0.02, 6)` (ww3_risk_sim.py:103) is a call into a foreign random library. It is replaced by the `draws` parameter. The Gaussian distribution of the factors is not modelled.
- Timeline.SimulateTimeline: requires exactly one draw per year (11). The random source always supplies six factors for each of the 11 years.
- IEEE double rounding is not modelled. The model uses exact reals, so Python's results differ from the model's in their last digits.
- The batch (Monte-Carlo) simulation mode and its fixed seed have no code in ww3_risk_sim.py, so they are not modelled.
