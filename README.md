# DPPN token economy: a verified model of the daily tick

DPPN simulates a closed token economy. A population of citizens holds PP
token balances, education levels and happiness scores. Each simulated day,
three subsystems update those citizens in place, in a fixed order:

- the economy pays a basic income, takes a 10 % tax and redistributes it, and
  measures inflation and a Gini statistic;
- the education system runs an enrolment ledger of 30-day courses;
- the market holds a fixed catalog of fifteen products whose prices follow
  demand, supply and inflation.

The simulator drives the day:

1. income for every citizen;
2. redistribution;
3. one study day;
4. an inflation reading and a market repricing;
5. every citizen's decisions (buy basics, invest in a course, the luxury tag);
6. the metrics: balances, Gini, inflation, mean happiness and mean education
   level, appended to five series.

The Dafny project has one module per source file:

| module | file | source |
|---|---|---|
| `Numeric` | `numeric.dfy` | shared sums, means, sorting and counting |
| `Citizens` | `citizen.dfy` | `core/citizen.py` |
| `Education` | `education.dfy` | `models/education.py` |
| `Economy` | `economy.dfy` | `core/economy.py` |
| `Markets` | `market.dfy` | `models/market.py` |
| `Simulation` | `simulator.dfy` | `core/simulator.py` |

Everything the source updates in place is a `class`: citizens, the education
system, the economy, products, the market and the simulator. Each mutating
method, except those listed under "## Left out", is specified against a pure
function of the old state. For example,
`Balances(cs) == Redistributed(old(Balances(cs)), amount)`. What the source
promises is then proved about those functions as lemmas.

Random draws become parameters:

- `CitizenSeed` carries the draws behind one citizen;
- `DayDraw` carries the draws behind one citizen's day;
- `Decide` takes its two draws directly.

Floats are modelled as exact `real` numbers.

Where the program's comments or the usual definitions differ from what its
code does, the model follows the code:

- The Gini loop adds (cumulative balance share − cumulative population share)
  over ascending balances. Every such term is at most 0, so the stored
  "coefficient" is never positive and is 0 for equal balances
  (`Economy.GiniNonPositive`, `Economy.GiniOfEqualBalances`). It is exactly
  minus half the Gini coefficient computed from the Lorenz curve
  (`Economy.GiniIsMinusHalfLorenzGini`); two citizens holding 0 and 1 give
  −0.25 where the coefficient is 0.5 (`Economy.GiniOfZeroAndOne`).
- Divisions are unguarded in the source:
  - economic growth and the daily means divide by the population size;
  - Gini divides by the balance total and the population size;
  - the poverty rate divides by the population size.

  They are preconditions here (a non-empty population, a non-zero total),
  not silent fallbacks. `RunDay` proves that every balance ends the day at 65
  or more. That makes the total positive, so the day's own Gini reading is
  always defined.
- Inflation is read twice a day: once before the market update and once in
  the metrics. Every reading overwrites the stored money supply, so the
  recorded rate measures growth since the first reading of the same day.
  Between the two readings the market update, the decisions and the Gini
  run. Only the decisions touch balances, and they only spend, so the
  recorded inflation is always 0 (`Simulation.Simulator.RunDay`).
- The basic income is credited twice a day: by the simulator's own loop and
  again inside the redistribution. A morning therefore turns a balance b into
  0.9 (b + 100) + 100 (`Simulation.AfterIncomeValue`).
- Re-enrolling overwrites a course in progress, and the fee already paid is
  lost. A due entry whose id matches no citizen is never removed.

## Model

| member | source | states |
|---|---|---|
| `Citizens.Citizen.constructor` | core/citizen.py:11-25 | A new citizen has a balance of 100, health 100 and happiness 50. Its education level, risk tolerance and learning ability are the given draws. |
| `Citizens.Citizen.ReceiveBasicIncome` | core/citizen.py:27-30 | The balance grows by exactly `amount`. Happiness becomes min(100, h + 5), so it is at most 100 afterwards. Education and health are unchanged. |
| `Citizens.Citizen.PayTaxes` | core/citizen.py:32-36 | The returned tax is balance × rate, and old balance = new balance + tax. With a rate in [0, 1] and a non-negative balance, the balance stays in [0, old balance]. No other field changes. |
| `Citizens.Citizen.Decide` | core/citizen.py:38-57 | Buy-products is present iff balance > 45. Invest is present iff balance > 50, level < 8 and the draw < learning ability × 0.3. Luxury is present iff balance > 150, risk tolerance > 0.5 and the draw < 0.2. The tags come in rule order without repeats, at most three, and the citizen is only read. |
| `Citizens.Citizen.UpdateEducation` | core/citizen.py:59-62 | Below level 10 the level grows by learning ability × 0.1. At 10 or above it is unchanged. Balance, happiness and health are unchanged. |
| `Citizens.FirstWithId` | models/education.py:34 | Finds the first citizen carrying the id, with no earlier one carrying it. Returns None exactly when no citizen carries it. |
| `Education.CourseTypesAreTheTable` | models/education.py:3-7 | The course types are exactly basic, advanced and professional. Each has a cost in (0, 100] and a positive skill gain. |
| `Education.EducationSystem.constructor` | models/education.py:2-8 | The system starts with an empty ledger whose entries all name table courses. |
| `Education.EducationSystem.EnrollStudent` | models/education.py:10-22 | Succeeds iff the course is known and the balance covers its cost. On success it debits exactly the cost, the balance stays ≥ 0, and it writes a fresh (course, 0, 30) entry for the id, overwriting any earlier one; other ids are untouched. On failure nothing changes. |
| `Education.EducationSystem.StudyDay` | models/education.py:29-39 | Advances one entry by a day and 3.33 %. If the entry is now due and a citizen carries the id, the first such citizen gets min(10, level + gain) and min(100, happiness + 10). Nothing else changes. |
| `Education.EducationSystem.StudyAll` | models/education.py:28-39 | Every entry is advanced once. The returned ids are exactly the due entries whose citizen exists, each listed once. Exactly those citizens are rewarded, and balances and health are unchanged. |
| `Education.EducationSystem.RemoveCompleted` | models/education.py:42-43 | Exactly the listed ids leave the ledger, the other entries are unchanged, and the ledger shrinks by the number of ids. |
| `Education.PassResult` | models/education.py:28-43 | The ledger after both loops is `LedgerAfterPass`: every entry advanced, minus those that completed. |
| `Education.EducationSystem.ProcessEducation` | models/education.py:24-45 | The ledger becomes `LedgerAfterPass` of the old one: entries advance, and a due entry is removed iff its citizen exists. The result equals how much the ledger shrank. Completing citizens get capped skill and happiness; all others are untouched. Balances and health are unchanged. |
| `Education.FreshEnrollmentTimeline` | models/education.py:16-32 | After k days a fresh entry holds 3.33·k % with 30 − k days left. It is due iff k ≥ 30, and it shows 99.9 % at completion. |
| `Education.EnrollmentLifetime` | models/education.py:19-43 | When its citizen is present, a fresh entry stays in the ledger for exactly 29 passes, advanced once per pass. The 30th pass removes it. |
| `Economy.DppnEconomy.constructor` | core/economy.py:2-10 | The economy starts with zero money supply, taxes, funds and inflation, and a Gini value of 0.5. |
| `Economy.MoneySupplyGrowth` | core/economy.py:15 | Growth is 0 without a positive baseline. Otherwise baseline × (1 + g) = total, so g is 0 iff the total is unchanged and positive iff the total grew. |
| `Economy.InflationFrom` | core/economy.py:19 | Inflation is never negative, and is either 0 or money growth − economic growth. |
| `Economy.EconomicGrowthBounds` | core/economy.py:24-28 | With levels in [0, 10] and health in [0, 100], growth (mean human capital × 0.01) lies in [0, 0.1]. |
| `Economy.SteadyStateInflation` | core/economy.py:12-22 | A reading taken right after another, with balances unchanged, sees zero money growth and reports zero inflation. |
| `Economy.DppnEconomy.CalculateInflation` | core/economy.py:12-22 | Returns and stores max(0, money growth − economic growth), which is ≥ 0, measured against the stored supply. The total becomes the new baseline; taxes and Gini are unchanged. |
| `Economy.GiniOfSorted` | core/economy.py:33-43 | The accumulator loop computes `GiniStatistic`: the mean of (balance share − population share) over the sorted balances. |
| `Economy.DppnEconomy.CalculateGini` | core/economy.py:30-44 | Returns and stores `Gini` of the balances, which sorts them and then runs the loop. Nothing else changes. |
| `Economy.PrefixShareAtMost` | core/economy.py:32-41 | In ascending balances, the m smallest of n hold at most m/n of the total. |
| `Economy.GiniTermNonPositive` | core/economy.py:41 | A loop term is ≤ 0 once the counted balances hold at most their population share. |
| `Economy.GiniLastTermZero` | core/economy.py:38-41 | The last loop term is exactly 0. |
| `Economy.GiniNumeratorNonPositive` | core/economy.py:38-41 | Over ascending balances with a positive total, the accumulator stays ≤ 0. |
| `Economy.GiniNonPositive` | core/economy.py:30-44 | As coded, the statistic is ≤ 0 for any population with a positive total. |
| `Economy.GiniTermOfEqualShares` | core/economy.py:41 | With equal balances, each term's two shares coincide and the term is 0. |
| `Economy.GiniNumeratorOfConstant` | core/economy.py:38-41 | With equal non-zero balances, the accumulator stays 0. |
| `Economy.GiniOfEqualBalances` | core/economy.py:30-44 | Equal non-zero balances give a Gini value of exactly 0. |
| `Economy.GiniNumeratorIsLorenz` | core/economy.py:38-41 | After k steps the accumulator is the sum of the first k Lorenz-curve points minus the population shares 1/n + … + k/n. |
| `Economy.HalfLorenzGini` | core/economy.py:38-43 | For any balances with a non-zero total, the loop's statistic is minus half the Lorenz-curve Gini coefficient (n + 1)/n − 2/n × the sum of the curve's points. |
| `Economy.GiniIsMinusHalfLorenzGini` | core/economy.py:30-44 | The stored value is minus half the Gini coefficient of the sorted balances, whose total is the original total. |
| `Economy.GiniOfZeroAndOne` | core/economy.py:30-44 | For balances 0 and 1 the code gives −0.25 while the Gini coefficient is 0.5. |
| `Economy.TaxAndCredit` | core/economy.py:48-56 | Citizen by citizen, each balance b becomes 0.9·b + amount and happiness becomes min(100, h + 5). The collected tax is 0.1 × the old total. |
| `Economy.DppnEconomy.RedistributeWealth` | core/economy.py:46-59 | Each balance b becomes 0.9·b + amount. Tax revenue and public funds both equal 0.1 × the old total. Supply, inflation and Gini are unchanged. |
| `Economy.RedistributedTotal` | core/economy.py:48-59 | After redistribution the total is 0.9 × the old total + n × amount. |
| `Markets.CategoryAt` | models/market.py:5-10 | Enumerating the categories visits them in declaration order. |
| `Markets.CatalogShape` | models/market.py:44-69 | The catalog has 15 products, numbered 1 to 15 in listing order, three per category in declaration order, each with a positive base price. |
| `Markets.Product.constructor` | models/market.py:13-21 | A new product has its catalog data, is priced at base, and has demand and supply 1. |
| `Markets.PriceFor` | models/market.py:26-29 | A price is never below half the base price, whatever the demand, supply or inflation. |
| `Markets.PriceWithoutSupply` | models/market.py:26 | Any supply at or below 0.1 prices as supply 0.1, so zero supply still gives a defined price. |
| `Markets.PriceAtBalance` | models/market.py:25-29 | With demand equal to supply and no inflation, the price is the base price. |
| `Markets.PriceMonotoneInDemand` | models/market.py:25-29 | More demand never lowers the price (for a non-negative base and inflation above −100 %). |
| `Markets.Product.UpdatePrice` | models/market.py:23-30 | Stores and returns the price rule's value, which is ≥ half the base price. Demand and supply are unchanged. |
| `Markets.InitializeProducts` | models/market.py:42-70 | Builds one fresh, distinct product per catalog line, in order, priced at base with demand and supply 1. |
| `Markets.Market.constructor` | models/market.py:36-40 | The market starts with the catalog products, all newly created, an empty log, zero volume and a price index of 100. |
| `Markets.Affordable` | models/market.py:75-79 | The filter keeps exactly the catalog products within budget and, when a category is given, in that category. |
| `Markets.SortByQuality` | models/market.py:82 | The sort returns a permutation of its input. |
| `Markets.SortByQualityOrder` | models/market.py:82 | The sorted list is best-quality first, and products of equal quality keep their original order (a stable reverse sort). |
| `Markets.Market.FindAffordableProducts` | models/market.py:72-83 | Returns exactly the matching products, best quality first, with ties in catalog order. |
| `Markets.Market.SimulatePurchase` | models/market.py:85-106 | Succeeds iff balance ≥ current price. On success it debits exactly the price, sets happiness to min(100, h + quality·5), appends one transaction, adds the price to the volume, and raises that product's demand by 0.1. On failure nothing changes. |
| `Markets.BaseDemand` | models/market.py:144-153 | Base demands lie in [0.5, 2], and 0.5 belongs to luxury alone. |
| `Markets.AverageWealth` | models/market.py:112-113 | The average wealth is 0 for no citizens, and otherwise average × n = total. |
| `Markets.DemandAndSupplyBounds` | models/market.py:118-130 | For non-negative wealth, everyday demand lies in [base, 2·base]. Luxury demand stays at its base until the average passes 100. Supply is ≥ 1. |
| `Markets.PriceAlertMeaning` | models/market.py:137-138 | A price alert fires iff the old price was positive and the price moved by more than 10 % of it. |
| `Markets.Reprice` | models/market.py:116-139 | Sets demand = base × (1 + multiplier) and supply = 1 + 0.5 × the wealth factor, reprices, and reports whether the price moved by more than 10 %. |
| `Markets.RepriceAll` | models/market.py:116-140 | Reprices every product. The returned alerts are exactly the products whose price moved by more than 10 %. |
| `Markets.Market.UpdateMarketConditions` | models/market.py:108-142 | Every product's demand, supply and price follow the average wealth and the inflation rate, and the alerts are exactly the products with large moves. The stored index is recomputed and is ≥ 50. The log is unchanged. |
| `Markets.PriceIndexFloor` | models/market.py:155-167 | Because of the 50 % price floor, a catalog with positive base prices never has an index below 50. |
| `Markets.PriceIndexAtBase` | models/market.py:155-167 | Prices at base give an index of exactly 100. |
| `Markets.Market.CalculatePriceIndex` | models/market.py:155-167 | An empty catalog reads 100 and leaves the stored index alone. Otherwise the index is (mean current / mean base) × 100, and it is stored. |
| `Markets.InCategory` | models/market.py:174 | Keeps exactly the products of the category. |
| `Markets.InCategoryDistinct` | models/market.py:174 | Filtering distinct products yields distinct products. |
| `Markets.InCategoryCount` | models/market.py:174 | The filter keeps as many products as the category occurs among the products' categories. |
| `Markets.AffordableDistinct` | models/market.py:75-79 | Filtering distinct products yields distinct products. |
| `Markets.AffordableInOrder` | models/market.py:75-79 | Over distinct products the filter keeps catalog order: a product listed before another in the result comes before it in the catalog. |
| `Markets.CategoryCountsTotal` | models/market.py:173-186 | The five category counts add up to the number of products. |
| `Markets.CategoryPriceSum` | models/market.py:173-175 | Summing the current prices of the category's filtered products gives the catalog's total current price in that category. |
| `Markets.CategoryDemandSum` | models/market.py:173-176 | Summing the demands of the category's filtered products gives the catalog's total demand in that category. |
| `Markets.CategoryEntryMeaning` | models/market.py:175-182 | For a category with products, the count is how many products have that category and is positive. The average price is the catalog's total current price in the category divided by that count, and the total demand is the catalog's total demand in the category. Both totals are taken over the whole catalog, not over the filter. |
| `Markets.Market.GetMarketStatistics` | models/market.py:169-190 | Reports the index, the catalog size, the log length and the volume. A category appears iff it has products, with its mean price, total demand and count. |
| `Simulation.BaseIncome` | config/settings.py:13-18 | Each agent type has a positive base income, from which its starting balance is drawn. |
| `Simulation.Simulator.constructor` | core/simulator.py:9-22 | The simulator starts with no citizens, day 0, fresh components (the market's products included) and empty metric series. |
| `Simulation.Simulator.InitializePopulation` | core/simulator.py:24-37 | Appends one fresh citizen per seed, with ids 0..n−1 in order. Each gets its seed's type and age, its education, risk and learning draws, happiness 50, health 100, and its seed's balance in place of the default 100. Earlier citizens, the day and the metrics are unchanged. |
| `Simulation.CreditAll` | core/simulator.py:42-43 | Every balance grows by the income, happiness becomes min(100, h + 5), and education and health are unchanged. |
| `Simulation.Morning` | core/simulator.py:41-46 | Balances become `AfterIncome` of the old ones. Happiness becomes min(100, min(100, h + 5) + 5), and education and health are unchanged. Tax revenue and public funds both become 0.1 × the total after the first credit; supply, inflation and Gini are unchanged. |
| `Simulation.AfterIncomeValue` | core/simulator.py:42-46 | Income before and inside redistribution turns each balance b into 0.9 (b + 100) + 100. |
| `Simulation.MorningFloor` | core/simulator.py:42-46 | A non-negative balance is at least 190 after the morning, and a non-empty population with no negative balance then holds a positive total. |
| `Simulation.ApplyDecision` | core/simulator.py:66-77 | The balance falls iff the decision is buy with balance ≥ 25, or invest with balance > 20 and an affordable known course. Buying takes 25 and adds capped happiness; luxury changes nothing. Only the citizen's own ledger entry can change. |
| `Simulation.Simulator.ProcessDecisions` | core/simulator.py:64-77 | Balance, happiness and ledger end as `ApplyDecisions` of the old ones over the decisions in order. Education and health are unchanged. |
| `Simulation.ApplyDecisionsBounds` | core/simulator.py:64-77 | Decisions never raise a balance, never make it negative, and take at most the sum of their caps. Happiness never falls and stays ≤ 100. |
| `Simulation.DayDecisionsCost` | core/simulator.py:64-77 | A day's decisions (in rule order) take at most 125: one purchase and one course. |
| `Simulation.ApplyDecisionsLedger` | core/simulator.py:66-70 | Decisions only add or rewrite the deciding citizen's own entry, and only with table courses. |
| `Simulation.Simulator.DecideAll` | core/simulator.py:55-58 | Each citizen's balance falls by at most 125 and never below 0. Happiness stays within its old value and 100, and education and health are unchanged. |
| `Simulation.Simulator.SpendingRound` | core/simulator.py:55-58 | From balances of at least 190, every balance stays ≥ 65 and the total stays positive and does not grow. Education and health stay in range. |
| `Simulation.Metrics.Record` | core/simulator.py:85-89 | Appending a day's entry keeps the five series aligned and grows them by one day. The new entry is last and earlier entries are untouched. |
| `Simulation.Measure` | core/simulator.py:79-89 | The entry holds the balances, their Gini, the new inflation rate, and the mean happiness and mean education level. The economy stores the Gini and the inflation measured against its previous baseline. |
| `Simulation.Simulator.CalculateMetrics` | core/simulator.py:79-89 | The series grow by that day's entry. The recorded inflation is measured against the economy's stored baseline, which within a day is the one the first reading stored. The current total then becomes the new baseline. |
| `Simulation.Simulator.Study` | core/simulator.py:49 | The study day leaves balances alone, keeps happiness ≤ 100, and keeps education levels and health in range. |
| `Simulation.Simulator.UpdateMarket` | core/simulator.py:52-53 | The rate passed to the market is max(0, money growth − economic growth) measured against the stored supply, hence ≥ 0. The current total becomes the stored supply, and balances and levels are unchanged. |
| `Simulation.Simulator.StartDay` | core/simulator.py:41-53 | After income, redistribution, study and the market update, balances are `AfterIncome` of the old ones, each ≥ 190, and the stored supply is their positive total. |
| `Simulation.SecondReadingZero` | core/economy.py:12-22 | A reading whose total does not exceed a positive baseline sees money growth ≤ 0, and with non-negative economic growth reports inflation 0. |
| `Simulation.Simulator.DecideAndRecord` | core/simulator.py:55-62 | From the morning's state, the decisions and the metrics record an entry of the final balances, their Gini, the inflation, and the mean happiness and education. That inflation is measured against the morning's total and is 0. |
| `Simulation.Simulator.EndDay` | core/simulator.py:60-62 | The series grow by exactly one entry: the balances, their Gini, the new inflation, the mean happiness and the mean education. The economy stores that inflation, measured against its old supply, and the new total. The day advances by one. |
| `Simulation.Simulator.RunDay` | core/simulator.py:39-62 | The day advances by exactly one, and each series gains exactly one entry of the final balances, their Gini, the inflation, and the mean happiness and education; earlier entries are untouched. The recorded inflation is measured against the total after the morning's income and redistribution, and it is exactly 0. Every balance ends the day at ≥ 65, and the simulator invariant holds. |
| `Simulation.Simulator.RunSimulation` | core/simulator.py:91-99 | Runs one day per draw list. The day and each series advance by that many days, earlier entries are kept, every recorded inflation is 0, and after at least one day every balance is ≥ 65. The simulator invariant holds throughout. |
| `Simulation.Simulate` | core/simulator.py:9-37 | A newly built simulator, populated from the seeds and run for the given days, satisfies the invariant, holds one citizen per seed and one entry per day, records inflation 0 every day, and leaves every balance ≥ 65 once a day has run. |
| `Simulation.PovertyRate` | core/simulator.py:137-140 | The percentage of citizens below the line lies in [0, 100]. It is 0 iff no one is below the line and 100 iff everyone is. |

## Left out

- Output: the console output is not modelled. This covers:
  - `run_simulation` and its monthly progress lines;
  - `print_progress`, `print_final_report` and `print_market_report`;
  - the price-alert print, which is modelled as the returned set of alerted products.
- Not modelled: `main.py` (file export) and `visualization/dashboard.py` (plots).
- `Simulation.Simulator.RunSimulation`: the number of days is the number of draw lists. The fallback to the configured 365 days when `days` is missing or 0 is not modelled, and neither is the final report's initial-Gini fallback of 0.5.
- Randomness: distributions are not modelled, and every draw is a parameter:
  - agent type, age and starting balance (`CitizenSeed`);
  - the constructor's education, risk and learning draws;
  - the two decision draws and the course choice (`DayDraw`).
- `Simulation.Simulator.InitializePopulation`: requires each starting balance to lie in its type's draw range and each education draw to lie in 1..10 (`SeedInRange`), the ranges the source's `randint` calls draw from. The population size is the number of seeds rather than the configured 1000.
- Configuration:
  - the basic income of 100 and the base incomes are inlined as constants;
  - the population size is the number of seeds, and the number of days the number of draw lists;
  - the configured `tax_rate` is unused by the source (the economy hard-codes 10 %). So are `initial_pp_supply`, `education_voucher_value`, `healthcare_cost`, `inflation_target` and `risk_aversion`.
- Floating point: floats are exact reals, so rounding is not modelled. For example, thirty successive additions of 3.33 to a course's progress give 99.89999999999996 in binary floating point, where the model has exactly 99.9.
- Unused parts:
  - `__repr__`, and the `products`, `skills` and `employment_status` fields, which nothing updates;
  - `total_pp_supply`, `day` and `gdp` of the economy, which nothing reads;
  - the `market` argument of the decision rule, which it ignores.
- A transaction's day is always 0: citizens never carry a simulator day.
- The base-demand fallback of 1.0 for an unknown category cannot be reached with a closed enumeration.
- The order in which the study pass visits ledger entries is left open. Each entry reaches a different citizen, so the outcome does not depend on it.
- Aliasing: the citizen list is required to hold distinct objects (`Distinct`), which the population always does.
- Unguarded divisions become preconditions:
  - a non-empty population for economic growth, the day, the metrics and the poverty rate;
  - a non-zero balance total for Gini.

  The source would raise a division error there.
- `Simulation.Simulator.RunDay`: the per-citizen effects are stated as bounds: a balance ≥ 65 and, through `DecideAll`, at most 125 taken by the decisions. The exact balances of the day are not stated as one composed function of the old state.
- `Simulation.Simulator.SpendingRound`: states only that every balance stays ≥ 65 and that the total stays positive and does not grow. The decisions' exact effect on each balance, on happiness and on the ledger is not stated; `ProcessDecisions` states it for one citizen.
- `Simulation.Simulator.DecideAndRecord`: states the decisions' effect on each balance only as the floor of 65. The exact balances, happiness and ledger after the decisions are not stated; the recorded entry is stated exactly in terms of the final state.
- `Simulation.Simulator.DecideAll`: states bounds per citizen rather than the exact decision fold, which `ProcessDecisions` states for one citizen. It does not state the final ledger.
- `Simulation.Simulator.StartDay`: does not restate the happiness, ledger and price effects of its steps. They are stated by `Morning`, `ProcessEducation` and `UpdateMarketConditions`.
- `Simulation.Simulator.UpdateMarket`: does not restate the repricing, which `UpdateMarketConditions` states.
- `Simulation.Simulator.Study`: states only that balances are kept, that happiness stays capped and that levels stay in range. The pass itself is stated by `ProcessEducation`.
- `Markets.Market.GetMarketStatistics`: the per-category statistics are a map, so the order of the source's dictionary (category declaration order) is not kept. Nothing reads that order except the printed report.
