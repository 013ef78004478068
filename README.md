# Tokyo 23-ward rent and cash-flow projection, modelled in Dafny

This project models the arithmetic core of `lend.py`, a one-page dashboard. For a chosen
Tokyo ward it projects rent, a population index and a household index at five checkpoints
(2025 to 2045). From that projection it computes a property's yearly net operating income
(NOI) and net yield. It also sorts the ward into one of three household-demand bands and
shows how far a sale or purchase has progressed along a fixed list of steps.

All float arithmetic of the script is modelled on exact reals (`real`). Python's `int()`
on a float is modelled as truncation toward zero (`Numeric.Trunc`), and this is proved to
be the floor on the non-negative values where the script applies it.

Modules, in the order of the script's sections:

- `Errors` (errors.dfy): the two failures the model reports. `InvalidWard` is the
  dictionary lookup failure. `DivisionByZero` is a zero divisor.
- `Numeric` (numeric.dfy): `int()` as `Trunc`, `**` as `Pow`, and monotonicity facts.
- `Wards` (wards.dfy): the 23-entry reference table, the lookup, and the demand bands.
- `Projection` (projection.dfy): the per-checkpoint formulas, the projection as a function
  (`Projected`), and the projection loop as a method (`Project`) proved equal to it. It
  also holds the growth rate of the rent.
- `CashFlow` (cashflow.dfy): gross revenue, expenses, NOI, yields, the simulation as a
  function (`CashFlowOf`), and the cash-flow loop as a method (`ComputeCashFlow`) proved
  equal to it.
- `Roadmap` (roadmap.dfy): the 9-step sale list, the 10-step purchase list, and the
  progress fraction.

The script's widget values enter as parameters:

- the ward record;
- the room size, an integer from 15 to 80 square metres (`ValidRoom`);
- the inflation rate, a fraction from 0 to 0.03 (the lemmas only need it non-negative);
- the vacancy rate, a fraction from 0 to 0.10 (`ValidVacancy`);
- the price, fees and tax, which are unrestricted integers as in the number inputs.

Two consequences of the script's code:

- The script fails only on a purchase price of exactly zero. A negative price gives a yield
  with the opposite sign. The model therefore reports `DivisionByZero` only for price 0.
- The script validates no input. It relies on the widgets' bounds, so the bounds appear only
  as preconditions of the lemmas that need them.

Idempotence comes for free: every operation is a Dafny function of its inputs, or a
method proved equal to one.

## Model

| member | source | states |
|---|---|---|
| Numeric.Trunc | lend.py:73 | `int()` truncates toward zero. On a non-negative value the result is the largest integer not above it; on a negative value, the smallest not below it. |
| Numeric.TruncIsFloor | lend.py:130 | On non-negative values `int()` is the floor. |
| Numeric.Pow | lend.py:70 | A zero exponent gives 1. A non-negative base gives a non-negative power. A base of at least 1 gives a power of at least 1. |
| Numeric.PowMonotone | lend.py:70 | With a base of at least 1, the power does not decrease as the exponent grows. |
| Wards.TablePositive | lend.py:15-39 | Every table entry has positive rent, population ratio and household ratio. No rent per area is below 2700, and 2700 occurs. |
| Wards.WardNamesCoverTable | lend.py:45 | The selector lists 23 names, with no repeats, and exactly the table's keys. |
| Wards.Lookup | lend.py:56 | A name in the table gives its entry, and that entry is positive. Any other name fails with `InvalidWard`, as the dictionary lookup raises. |
| Wards.Classify | lend.py:116-121 | There are exactly three bands. High demand is above 1.15. Stable growth is from 1.05 to 1.15, both ends included. Selective is below 1.05. |
| Wards.ClassifyMonotone | lend.py:116-121 | A larger household ratio never gets a weaker band. |
| Wards.BoundaryWards | lend.py:116-121 | Taito (1.15), Bunkyo (1.05) and Meguro (1.05) fall in the middle band. Shibuya (1.16) is high demand. Setagaya (1.04) is selective. |
| Wards.HighDemandWards | lend.py:116-121 | Exactly Chiyoda, Chuo, Minato, Koto and Shibuya are in the high-demand band. |
| Projection.Fraction | lend.py:66-67 | The interpolation fraction `i/4` lies in [0, 1]. It is 0 at the first checkpoint and 1 at the last. |
| Projection.IndexAt | lend.py:66-67 | An index is 100 at the first checkpoint and 100 times the 2045 ratio at the last. In between it is the linear blend of those endpoints with weight `i/4`. |
| Projection.DemandImpact | lend.py:69 | 40% of household growth. It is above -0.4 for a positive ratio. Its sign follows the sign of the household growth. |
| Projection.DemandFactor | lend.py:73 | The demand factor is 1 at the first checkpoint. For a positive household ratio it stays above 0.6. |
| Projection.InflationFactor | lend.py:70 | The compounded inflation factor is 1 at the first checkpoint. It is at least 1 for a non-negative rate. |
| Projection.CurrentRent | lend.py:72 | For a non-negative rent per area, the current rent of a room from the slider lies between 15 and 80 times the rent per area. The same value is shown as the current market rent at lend.py:91. |
| Projection.RentValue | lend.py:73 | The untruncated rent equals the current rent at the first checkpoint. It is non-negative for a positive ward, a non-negative room size, non-negative inflation and a checkpoint up to 4. |
| Projection.RentAt | lend.py:72-73 | The first-checkpoint rent is exactly `rent_m2 * room`. For valid inputs the rent is non-negative and is the floor of the untruncated rent. |
| Projection.PointAt | lend.py:64-80 | Point `i` carries year `2025 + 5i`. At the first checkpoint its rent is the current rent and both indices are 100. At the last its indices are 100 times the 2045 ratios. |
| Projection.Projected | lend.py:61-80 | There are exactly five points. Point `i` carries year `2025 + 5i` and the formulas of checkpoint `i`. |
| Projection.Project | lend.py:61-80 | The loop builds exactly the points of `Projected`, each carrying `years[i]`. |
| Projection.YearsAscend | lend.py:61 | Years strictly ascend, in steps of 5 per checkpoint. |
| Projection.DemandFactorMonotone | lend.py:69-73 | The demand factor moves across checkpoints in the direction of household growth. |
| Projection.RentValueNondecreasing | lend.py:69-73 | For a positive ward, a non-negative room size, a household ratio of at least 1 and non-negative inflation, the untruncated rent is non-negative and does not decrease. |
| Projection.RentNondecreasing | lend.py:69-73 | Under the same conditions, the truncated rent does not decrease between any two checkpoints. |
| Projection.RentValueNonincreasingWithoutInflation | lend.py:69-73 | For a positive ward, a non-negative room size, a household ratio of at most 1 and no inflation, the untruncated rent does not increase. |
| Projection.RentNonincreasingWithoutInflation | lend.py:69-73 | Under the same conditions, the truncated rent does not increase. |
| Projection.PowOfOne | lend.py:70 | With zero inflation the inflation factor is 1 at every checkpoint. |
| Projection.ProjectedRentsNondecreasing | lend.py:61-80 | For a positive ward and a non-negative room size, the projected rent series is non-decreasing when households do not shrink and inflation is non-negative. |
| Projection.FirstRentIsCurrent | lend.py:72-73 | The first projected rent equals the current market rent shown at lend.py:91, and it is positive. |
| Projection.IndexEndpoints | lend.py:66-67 | Both indices are 100 in 2025. In 2045 they are 100 times the population ratio and 100 times the household ratio. |
| Projection.ChiyodaWithoutInflation | lend.py:64-73 | Chiyoda, 25 square metres, no inflation: rent 135000 at the first point and 148500 at the last. |
| Projection.GrowthRate | lend.py:113 | Growth fails with a division by zero exactly when the first rent is 0. Otherwise the first rent times `1 + growth/100` equals the last rent. With a positive first rent, growth is non-negative when the last rent is not lower, and zero when the two are equal. Both directions hold. |
| Projection.QuotientGrowth | lend.py:113 | `last/first - 1`, times `first`, is `last - first`. With a positive `first` it is non-negative exactly when `last >= first`, and zero exactly when they are equal. |
| Projection.ProjectedGrowth | lend.py:113 | For a positive ward and a slider room size, the growth rate is defined. It is non-negative when households do not shrink and inflation is non-negative. |
| CashFlow.GrossRevenue | lend.py:130 | Gross revenue is 12 months of rent when there is no vacancy. For non-negative rent and a vacancy rate of at most 1 it is non-negative and the floor of the vacancy-reduced revenue. For non-negative rent and a vacancy rate in [0, 1] it is at most `rent*12`. |
| CashFlow.VacancyBounds | lend.py:130 | For a non-negative full amount, the vacancy-reduced amount is non-negative when the vacancy rate is at most 1, and at most the full amount when the rate is non-negative. |
| CashFlow.GrossRevenueMonotone | lend.py:130 | For non-negative rents and a vacancy rate of at most 1, higher rent never gives lower gross revenue. |
| CashFlow.OperatingExpenses | lend.py:131 | Expenses are non-negative when the fees and the tax are. |
| CashFlow.Noi | lend.py:132 | For non-negative rent and a vacancy rate in [0, 1], NOI is at most 12 months of rent minus expenses. With no vacancy it equals that amount, for any rent. It is not clamped at zero. |
| CashFlow.YieldPercent | lend.py:133 | The yield times the price in yen gives 100 times the amount. With a positive price, the yield has the sign of the amount. |
| CashFlow.YieldPercentMonotone | lend.py:133 | With a positive price, a larger or equal amount never gives a smaller yield, and a strictly larger amount gives a strictly larger yield. |
| CashFlow.PointCashFlow | lend.py:130-139 | One year's result carries the point's year. Its NOI is gross revenue minus operating expenses. Its net yield, times the price in yen, gives 100 times the NOI. With a positive price the yield has the NOI's sign. |
| CashFlow.CashFlowOf | lend.py:128-139 | There is one result per projected point, with the same year, in the same order. A zero price fails with `DivisionByZero` exactly when there is a point to evaluate. |
| CashFlow.ComputeCashFlow | lend.py:128-139 | The loop gives exactly `CashFlowOf`, including the early division-by-zero failure. |
| CashFlow.ExpensesConstant | lend.py:130-132 | Each year's NOI is its gross revenue minus the same expenses. Any two years' NOIs differ exactly by their gross revenues. |
| CashFlow.NetYieldSign | lend.py:132-133 | With a positive price, each net yield is positive, negative or zero exactly as its NOI is. |
| CashFlow.InitialYield | lend.py:152 | The gross yield fails as a division by zero exactly when the price is 0. Otherwise, times the price in yen, it gives 100 times 12 months of the first rent. |
| CashFlow.GrossYieldAtLeastNetYield | lend.py:152 | For non-negative rent, fees and tax, a vacancy rate in [0, 1] and a positive price, the gross yield is at least the first year's net yield. |
| CashFlow.NoiNondecreasing | lend.py:128-139 | For a non-zero price and a vacancy rate of at most 1, the cash flow is defined. Then, when the earlier rent is non-negative and the later rent is not lower, NOI does not fall. |
| CashFlow.PipelineNoiNondecreasing | lend.py:61-139 | Projection followed by the cash flow gives five years, 2025 to 2045, whose NOI never falls. This holds for a positive ward with non-shrinking households, a slider room size, non-negative inflation, a positive price and a slider vacancy rate. |
| CashFlow.DefaultPropertyScenario | lend.py:128-152 | With the default inputs (price 3500, fees 12000, tax 80000, 5% vacancy) and a rent of 135000: gross revenue is 1539000, expenses 224000 and NOI 1315000. The net yield is 263/70 % and the gross yield 324/70 %. |
| Roadmap.Steps | lend.py:171-186 | A sale has 9 distinct steps and a purchase 10. |
| Roadmap.IndexOf | lend.py:190 | `list.index` returns the position of the first occurrence. |
| Roadmap.IndexOfDistinct | lend.py:190 | In a list without repeats, the lookup returns the step's own position. |
| Roadmap.LastStepIndex | lend.py:190 | In a non-empty list without repeats, the last step is found at the last position. |
| Roadmap.Progress | lend.py:190 | Progress lies in (0, 1]. It is 1 only at the final step, and it is 1 at the final step of a list without repeats. |
| Roadmap.ProgressAt | lend.py:190 | The step at position `i` gives progress `(i+1)/n`. |
| Roadmap.ProgressStrictlyIncreasing | lend.py:190 | Progress increases strictly with the step's position. |
| Roadmap.ModeProgress | lend.py:171-190 | For either mode, progress lies in (0, 1]. It equals 1 exactly at the last step and increases strictly along the list. |

## Left out

- All Streamlit calls are left out: page setup, sidebar widgets, metrics, tabs, charts, captions and the progress bar. They are presentation only. Widget values enter as parameters, and their bounds appear as predicates.
- The input conversions are left out: the sliders' division by 100 for the inflation and vacancy rates, the selector's guarantee that the ward is a table key, and the step slider's guarantee that the chosen step is in the list. The rates enter already as fractions. `Progress` requires the step to be in the list.
- The pandas `DataFrame` construction and indexing are left out: they serve display only.
- IEEE-754 floating point is left out. Values are exact reals. A float result next to a whole number can truncate to a neighbouring integer (one lower or one higher than the exact value's truncation); the model does not capture this.
- Python's `round(x, 1)` and `round(x, 2)` are left out. They are applied only to the displayed indices and net yields. The points carry the unrounded values.
- The formatted metric strings are left out, and so is the rent difference at lend.py:88. That difference is only the last rent minus the first, shown as a metric.
- Projection.RentNondecreasing: this lemma also requires a positive ward and a non-negative room size. The table and the room slider always supply both.
- Projection.RentValueNondecreasing: requires a positive ward and a non-negative room size, for the same reason.
- Projection.RentValueNonincreasingWithoutInflation: requires a positive ward and a non-negative room size, for the same reason.
- Projection.RentNonincreasingWithoutInflation: requires a positive ward and a non-negative room size, for the same reason.
- Projection.ProjectedRentsNondecreasing: requires a positive ward and a non-negative room size, for the same reason.
