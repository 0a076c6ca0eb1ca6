# Clinker Factor simulation: a Dafny model

This models the arithmetic core of a Streamlit script that simulates a cement
plant's Clinker Factor (clinker consumed per cement produced, in percent) and
the CO₂ emission that follows from it. The script:

- selects one Month and Periode of a source sheet;
- takes either the Actual or the Budget pair of consumption and production
  columns;
- derives each cement type's Clinker Factor and the consolidated factor of the
  selection;
- offers two simulations on a copy of that table:
  - Mode A, "change the consolidated factor": the clinker that a target
    consolidated factor needs beyond what the unpicked types consume is shared
    among the picked types in proportion to their production;
  - Mode B, "change the factor per cement type": each given type's first row
    takes a new factor and the consumption it implies;
- computes a CO₂ estimate per ton of cement from a consolidated factor and five
  plant parameters.

Quantities are Dafny `real`s, so every identity holds exactly.

Modules:

- `Table`: the working table's `Row` and the `Simulation` outcome. It holds the
  sums, the consolidated factor, and the proof that the consolidated factor is
  the production-weighted mean of the row factors.
- `Selection`: the filter, the Actual/Budget projection, the per-row factor and
  the baseline consolidated factor.
- `TargetMode`: Mode A.
  - `SimulateTarget` is the script's steps. It copies the table into an array
    and calls `ShareInPlace`, the in-place loop over the picked rows.
  - Both are proved against the functions `Reallocated` and `TargetSimulation`.
  - The lemmas prove the target is hit, fixed rows are untouched, allocation is
    proportional, picked factors are uniform and nothing is clamped.
- `TypeMode`: Mode B.
  - `SimulateOverrides` is the script's steps. It copies the table and calls
    `OverrideInPlace`, the in-place loop over the override dictionary.
  - Both are proved against `ApplyOverrides` and `TypeSimulation`.
  - The lemmas prove the overrides are exact, only first rows are written, and
    production and factor consistency are kept.
- `Emission`: the CO₂ formula, its factorised form and its monotonicity.
- `Wrappers`: `Option`.

Modelling choices:

- The script's empty selection is not an error. It divides zero by zero, so the
  baseline factor is not a number, and `BaselineFactor` returns `None` there.
- The override dictionary is a sequence of `Override` entries. A later entry for
  a type replaces an earlier one, as re-assigning a dictionary key does.
- `.index[0]` of the rows of a type is the position of that type's first row
  (`FirstIndexOf`).
- Mode A's loop runs over the index of the picked rows. The model visits every
  position and writes only picked ones, which writes the same rows in the same
  order.

## Model

| member | source | states |
|---|---|---|
| Selection.Filter | streamlit_appco2rev1.py:21 | each source row is kept exactly as often as it occurs, if its Month and Periode are the chosen ones, and never otherwise |
| Selection.KeptRows | streamlit_appco2rev1.py:21 | a source row is in the filtered sheet if and only if it is in the sheet and of the chosen Month and Periode |
| Selection.ChosenConsumption | streamlit_appco2rev1.py:23-28 | the consumption column: Actual for "Actual", Budget for any other data type |
| Selection.ChosenProduction | streamlit_appco2rev1.py:23-28 | the production column: Actual for "Actual", Budget for any other data type |
| Selection.ProjectRow | streamlit_appco2rev1.py:23-31 | a source row's working-table row: its type, the chosen consumption and production, and factor consumption / production * 100 |
| Selection.ProjectionMatches | streamlit_appco2rev1.py:23-31 | every projected row comes from a kept source row and every kept source row yields one; type, chosen consumption and production, and factor agree |
| Selection.Select | streamlit_appco2rev1.py:21-31 | the working table: one row per kept source row, same length and same order as the filtered sheet, row i projected from kept row i (the Actual pair for "Actual", the Budget pair otherwise, factor consumption / production * 100); hence every row comes from a source row of the chosen period and every such source row is represented; production positive, factors consistent |
| Selection.BaselineFactor | streamlit_appco2rev1.py:32-34 | none for an empty selection (0/0); defined for any non-empty table of positive production; its value times total production is total consumption times 100 |
| Table.ClinkerFactor | streamlit_appco2rev1.py:31 | a row's factor: consumption / production * 100 |
| Table.SumConsumption | streamlit_appco2rev1.py:32 | total clinker consumption of a table |
| Table.SumProduction | streamlit_appco2rev1.py:33 | total cement production of a table |
| Table.ConsolidatedFactor | streamlit_appco2rev1.py:34 | total consumption / total production * 100 |
| Table.SumProductionAtLeastRow | streamlit_appco2rev1.py:33 | total production is at least any one row's production, hence positive for a non-empty table |
| Table.SameProductionSameSum | streamlit_appco2rev1.py:69 | rewriting consumption and factor keeps total production, so the total computed before a simulation stays the right divisor |
| Table.SameTypesSameSet | streamlit_appco2rev1.py:93 | rewriting consumption and factor keeps the set of cement types |
| Table.WeightedSumIsConsumption | streamlit_appco2rev1.py:31-34 | with consistent factors, the sum of production times factor is total consumption times 100 |
| Table.ConsolidatedIsWeightedMean | streamlit_appco2rev1.py:31-34 | the consolidated factor equals the production-weighted mean of the per-row factors |
| Table.WeightedSumBounds | streamlit_appco2rev1.py:31-34 | bounds lo and hi on every row factor bound the weighted sum by lo and hi times total production |
| Table.ConsolidatedWithinRowFactors | streamlit_appco2rev1.py:32-34 | the consolidated factor lies between any lower and upper bound of the per-row factors |
| TargetMode.FixedClinker | streamlit_appco2rev1.py:51-52 | clinker of the rows whose type is not picked |
| TargetMode.PickedProduction | streamlit_appco2rev1.py:55-56 | production of the rows whose type is picked |
| TargetMode.ClinkerToShare | streamlit_appco2rev1.py:59-60 | target / 100 * total production less the fixed clinker |
| TargetMode.SharedRow | streamlit_appco2rev1.py:64-67 | a picked row with consumption share * (production / picked production) and factor that consumption / production * 100 |
| TargetMode.Shared | streamlit_appco2rev1.py:63-67 | the table with every picked row replaced by its shared row and every other row kept |
| TargetMode.Reallocated | streamlit_appco2rev1.py:48-67 | the table after Mode A's loop: the clinker to share split over the picked production |
| TargetMode.TargetSimulation | streamlit_appco2rev1.py:45-69 | no result for fewer than two picked types, otherwise the reallocated table and its consumption over the original total production, in percent |
| TargetMode.PickedProductionPositive | streamlit_appco2rev1.py:55-56 | the picked production is at least the production of any picked row |
| TargetMode.DivisorsPositive | streamlit_appco2rev1.py:56-65 | with one type picked from the table, picked production and total production are both positive |
| TargetMode.ClinkerSplits | streamlit_appco2rev1.py:51-55 | total consumption is the fixed rows' clinker plus the picked rows' clinker |
| TargetMode.SharingKeepsFixedClinker | streamlit_appco2rev1.py:51-52 | sharing leaves the fixed rows' total clinker unchanged |
| TargetMode.PickedClinkerScales | streamlit_appco2rev1.py:63-66 | if every picked row consumes c per unit of production, the picked rows consume c times the picked production |
| TargetMode.SharedScales | streamlit_appco2rev1.py:63-66 | after sharing, each picked row consumes share / picked production per unit of its production; types and production unchanged |
| TargetMode.SharingPicked | streamlit_appco2rev1.py:63-66 | shared over the picked production, the picked rows together consume exactly the amount shared |
| TargetMode.SharedClinker | streamlit_appco2rev1.py:63-66 | after sharing, picked clinker is the amount shared, fixed clinker is as before, and total clinker is their sum |
| TargetMode.ReallocatedClinker | streamlit_appco2rev1.py:59-66 | after reallocation the picked rows consume target / 100 * total production - fixed clinker, and the table consumes target / 100 * total production |
| TargetMode.TargetReached | streamlit_appco2rev1.py:45-69 | with at least two picked types the mode runs and the new consolidated factor equals the target exactly |
| TargetMode.SharedProportional | streamlit_appco2rev1.py:63-66 | for any amount shared, two picked rows' consumptions are in the ratio of their productions |
| TargetMode.Proportional | streamlit_appco2rev1.py:56-66 | after reallocation any two picked rows' consumptions are in the ratio of their productions |
| TargetMode.SharedFactor | streamlit_appco2rev1.py:67 | every picked row of a shared table has factor share / picked production * 100 |
| TargetMode.UniformPickedFactor | streamlit_appco2rev1.py:56-67 | after reallocation every picked row has the same factor: clinker to share over picked production, in percent |
| TargetMode.SharedNegative | streamlit_appco2rev1.py:65-66 | a negative amount to share gives every picked row a negative consumption |
| TargetMode.UnclampedBelowFixed | streamlit_appco2rev1.py:59-66 | nothing is clamped: a target below the fixed rows' clinker makes every picked row's consumption negative |
| TargetMode.ReallocatedKeeps | streamlit_appco2rev1.py:48-67 | reallocation keeps types and production, leaves every unpicked row as it was, and keeps factors consistent |
| TargetMode.ShareInPlace | streamlit_appco2rev1.py:63-67 | the in-place loop leaves the array equal to the shared table of its old contents |
| TargetMode.SimulateTarget | streamlit_appco2rev1.py:45-69 | no result if and only if fewer than two types are picked; otherwise the target factor exactly, same length, unpicked rows unchanged, types and production kept, consistency kept; equal to TargetSimulation |
| TypeMode.OverriddenRow | streamlit_appco2rev1.py:94-96 | a row given factor v and consumption production * v / 100 |
| TypeMode.ApplyOverrides | streamlit_appco2rev1.py:91-96 | the table with the first row of each overridden type replaced by its overridden row |
| TypeMode.TypeSimulation | streamlit_appco2rev1.py:90-98 | no result for an empty dictionary, otherwise the overridden table and its consumption over the original total production, in percent |
| TypeMode.FirstIndexOf | streamlit_appco2rev1.py:93 | a row of the type, and no earlier row has that type |
| TypeMode.OverrideFor | streamlit_appco2rev1.py:85-88 | a type has an override if and only if some entry names it, and the value found is one of that type's entries |
| TypeMode.TotalPositive | streamlit_appco2rev1.py:98 | with an override of a type from the table, total production is positive |
| TypeMode.OverrideForDistinct | streamlit_appco2rev1.py:88-92 | with distinct dictionary keys, each entry's type finds that entry's factor |
| TypeMode.OverrideExact | streamlit_appco2rev1.py:92-96 | the first row of each overridden type ends with exactly the given factor and consumption production * factor / 100; type and production unchanged |
| TypeMode.OthersUntouched | streamlit_appco2rev1.py:91-96 | a row that is not the first row of an overridden type comes out unchanged |
| TypeMode.OverridesKeepProduction | streamlit_appco2rev1.py:94-96 | overrides keep every row's type and production, and total production |
| TypeMode.OverridesKeepConsistency | streamlit_appco2rev1.py:95-96 | an overridden row's factor agrees with its new consumption and production, so consistent tables stay consistent |
| TypeMode.TypeSimulationFactor | streamlit_appco2rev1.py:98 | the mode runs, the new consolidated factor is the consolidated factor of the rewritten table, and it lies between bounds of the new row factors |
| TypeMode.FirstIndexSameTypes | streamlit_appco2rev1.py:93-96 | the first row of a type is found at the same position before and after rows are rewritten |
| TypeMode.ApplyOneMore | streamlit_appco2rev1.py:92-96 | one more dictionary entry rewrites exactly the first row of its type with its factor |
| TypeMode.OverrideInPlace | streamlit_appco2rev1.py:91-96 | the in-place loop leaves the array equal to the overridden table of its old contents |
| TypeMode.SimulateOverrides | streamlit_appco2rev1.py:90-98 | no result if and only if the dictionary is empty; otherwise types and production kept, total production positive, the new factor the consolidated factor of the new table, consistency kept; equal to TypeSimulation |
| Emission.Co2Process | streamlit_appco2rev1.py:119 | clinker factor / 100 * calcination factor * 1000 |
| Emission.Co2Fuel | streamlit_appco2rev1.py:120 | STEC * fuel emission factor * (1 - TSR / 100) * clinker factor / 100 |
| Emission.Co2Total | streamlit_appco2rev1.py:121-122 | process plus fuel emission, times the adjustment factor |
| Emission.Co2PerClinker | streamlit_appco2rev1.py:119-122 | the estimate is factor / 100 of a ton of cement times the CO₂ per ton of clinker (calcination plus fossil fuel), times the adjustment |
| Emission.Co2Monotone | streamlit_appco2rev1.py:119-122 | with non-negative CO₂ per clinker and adjustment, a lower clinker factor never raises the estimate |
| Emission.Co2AtDefaults | streamlit_appco2rev1.py:113-122 | at clinker factor 80 and the default parameters: process 424.8, fuel 222.700512, estimate 653.97551712 |

## Left out

- Page setup, select boxes, radio buttons, multiselects, number inputs, warnings, success banners and table display: user interface. The choices they return are parameters of the model.
- Loading the Excel sheet: I/O. The sheet is a sequence of `SourceRow`s.
- The `.2f` and `.0f` display formatting and the rounded default of Mode B's input widgets: presentation only.
- Floating-point rounding: quantities are exact reals.
- Zero or negative production: the simulations and `Select` require positive production in every selected row. This excludes the not-a-number and infinite factors a zero production gives, and also negative production, for which the script would compute finite factors. Only the empty selection's 0/0 baseline is modelled, as `None`.
- Missing Month or Periode values and how pandas derives the select box options: Month and Periode are strings compared by equality.
- pandas index labels: rows are addressed by position in a sequence.
- Mode B's default value for each picked type: the script converts that type's factor column to a single number before the override loop, which raises an error when the type occurs in more than one row of the selection, so Mode B never runs for a repeated type.
- TypeMode.SimulateOverrides: for a type that occurs in more than one row it returns a table with only the first such row rewritten, where the script stops with an error before its override loop; the first-row behaviour of `FirstIndexOf` and `ApplyOverrides` is only reachable in the script for types that occur once.
- TypeMode.OverrideExact: requires distinct dictionary keys, which a Python dictionary always has. Without that requirement the last entry for a type wins (`OverrideFor`).
