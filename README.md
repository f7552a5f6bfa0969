# CommuteArbitrage: comparison engine and scenario list

CommuteArbitrage compares the monthly cost of living in a city centre against
living in a suburb and commuting. The model has two parts.

- **The comparison engine** is in `calculations.dfy`, module `Calculations`. It takes
  seven inputs: annual salary, office days per week, one-way commute distance, the two
  rents and the two "other expenses" figures. From them it computes:
  - the commute hours per day, the transport cost and the opportunity cost of
    commuting time;
  - the two monthly totals;
  - the monthly and annual savings;
  - the verdict.

  The module also has the two per-option expense breakdowns, the breakeven helper,
  and the tier choice of the compact currency format. Numbers are exact `real`s, so
  the constant 4.33 is exactly 433/100.
- **The dashboard's scenario list** is in `app.dfy`, module `App`. Class
  `ScenarioBoard` holds the listed scenarios (`scenarios: seq<Scenario>`), the open
  one (`active: Option<Scenario>`) and the `loading` flag. It has one method per
  handler: load, change, create, duplicate, delete, select and back-to-dashboard.
  The list transforms `map` and `filter` become the pure functions `ReplaceById` and
  `RemoveById`. The object spread `{...s, ...u}` becomes `ApplyUpdates`.

`types.dfy` (module `Types`) holds the records: `Scenario`, its partial form
`ScenarioUpdate` (every field optional), `ComparisonResult` and `ExpenseBreakdown`.

Calls to the datastore are parameters of the handler methods. Each is an `Option`
(None means the call threw), or a `bool` where the handler uses no reply: delete
returns nothing, and change discards the record the update returns. Create and
duplicate return the fields they send as an out-parameter. What the datastore sends
back is a separate parameter, and the model does not assume it echoes the request.
`DuplicateComparesAlike` states what holds when it stores the request as sent.

Two details follow the code exactly:
- For the Mumbai preset, the opportunity cost is exactly 54125/6 (about 9 020.83).
  The exact suburb total is 288065/6, and the savings are 83935/6 (about 13 989.17).
  See `MumbaiPreset`.
- The raw tier of the compact format prints the amount's default number text, not a
  rounded integer.

`calculateComparison` also computes `dailyRate = monthlySalary / 30`. Nothing reads
it, so it is not modelled.

## Model

| member | source | states |
|---|---|---|
| Calculations.CalculateComparison | src/utils/calculations.ts:7-41 | city total = rent + other; suburb total = rent + transport + opportunity + other; savings are the non-negative gap between the totals; annual = 12 × monthly; verdict is city iff city total < suburb total; `opportunityCost` equals `monthlyOpportunityCost` |
| Calculations.VerdictPicksCheaper | src/utils/calculations.ts:36 | the verdict names the strictly cheaper option, and equal totals give suburbs |
| Calculations.SavingsFollowVerdict | src/utils/calculations.ts:27-36 | the monthly savings are the chosen option's advantage: the dearer total minus the cheaper one |
| Calculations.CommuteHoursPerDay | src/utils/calculations.ts:20 | the round trip at 30 km/h takes distance/15 hours |
| Calculations.TransportCost | src/utils/calculations.ts:22 | transport costs 173.2 × distance × office days a month (20 per km, both ways, 4.33 weeks) |
| Calculations.MonthlyOpportunityCost | src/utils/calculations.ts:16-21 | the opportunity cost is salary × distance × office days × 433/4 320 000, from the fixed 240-hour month and the 12-month year |
| Calculations.CommuteCostsNonNegative | src/utils/calculations.ts:16-22 | with salary, days and distance ≥ 0, commute hours, transport and opportunity cost are ≥ 0 |
| Calculations.CommuteCostsMonotoneInDistance | src/utils/calculations.ts:20-22 | with salary and days ≥ 0, a longer distance never lowers commute hours, transport or opportunity cost |
| Calculations.SuburbTotalMonotoneInDistance | src/utils/calculations.ts:20-36 | a longer distance never lowers the suburb total, leaves the city total alone, and keeps a city verdict a city verdict |
| Calculations.MumbaiPreset | src/utils/calculations.ts:7-41 | the first preset's exact figures: 1 h/day, transport 12 990, opportunity 54125/6, totals 62 000 and 288065/6, verdict suburbs, savings 83935/6 a month and 167 870 a year |
| Calculations.GetCityExpenseBreakdown | src/utils/calculations.ts:43-52 | the city breakdown carries the two inputs, no transport and no opportunity cost, and its total is the sum of its parts |
| Calculations.GetSuburbExpenseBreakdown | src/utils/calculations.ts:54-65 | the suburb breakdown carries its four inputs and its total is the sum of its parts |
| Calculations.BreakdownsMatchComparison | src/App.tsx:241-261 | fed as the dashboard feeds them, the city and suburb breakdown totals equal the comparison's two totals |
| Calculations.CalculateBreakeven | src/utils/calculations.ts:88-103 | the result is never negative and is 0 when the variable costs are ≤ 0; it is positive iff the variable costs and the fixed saving are both positive |
| Calculations.BreakevenBalancesCosts | src/utils/calculations.ts:96-102 | with positive variable costs and a non-negative fixed saving, suburb fixed costs + result × variable costs = city fixed costs |
| Calculations.BreakevenWithoutCommuteCost | src/utils/calculations.ts:98-100 | zero transport and opportunity cost give 0, whatever the rents and expenses |
| Calculations.CompactTier | src/utils/calculations.ts:75-86 | Cr iff amount ≥ 10 000 000; L iff 100 000 ≤ amount < 10 000 000; K iff 1 000 ≤ amount < 100 000; raw iff amount < 1 000, negatives included |
| Calculations.CompactTierMonotone | src/utils/calculations.ts:76-85 | a larger amount never gets a smaller unit |
| Calculations.CompactTierBoundaries | src/utils/calculations.ts:76-85 | 9 999 999 is L and 10 000 000 is Cr; 99 999 is K and 100 000 is L; 999 is raw and 1 000 is K; −5 000 is raw |
| Calculations.FormatCurrencyCompact | src/utils/calculations.ts:75-86 | the text is the rupee sign, then the amount divided by its tier's unit at that tier's decimals (or the raw number text), then the tier's suffix |
| App.ApplyUpdates | src/App.tsx:55 | every field named in the update takes its new value, every other field keeps the old one, and an empty update changes nothing |
| App.ApplyUpdatesUnique | src/App.tsx:55 | the two field-wise conditions determine the merged record |
| App.ApplyUpdatesIdempotent | src/App.tsx:55 | merging the same update twice is the same as merging it once |
| App.ReplaceById | src/App.tsx:60 | same length and order; each entry with the given id becomes the updated record and every other entry is unchanged |
| App.ReplaceByIdIds | src/App.tsx:60 | replacing by a record with the same id keeps the id set and distinct ids, and puts the record in the list when its id is listed |
| App.RemoveById | src/App.tsx:111 | an entry survives iff it was listed and its id differs; the list never grows |
| App.RemoveByIdAppend | src/App.tsx:111 | filtering a concatenation filters each part, so the survivors keep their relative order |
| App.RemoveByIdAbsent | src/App.tsx:111 | a list with no entry of that id comes back unchanged |
| App.RemoveByIdIds | src/App.tsx:111 | with distinct ids, exactly the deleted id leaves the id set, and the ids stay distinct |
| App.CarriedSalary | src/App.tsx:71 | the active salary when there is an active scenario with a non-zero salary, otherwise 600 000; never 0 |
| App.CreateRequest | src/App.tsx:68-78 | create sends no id, timestamps, verdict, savings or default flag, a null owner and the name "New Scenario"; merged into any row, it gives the carried-over salary, 5 days, 20 km, rents 35 000 and 18 000, other expenses 8 000 and 5 000 |
| App.DuplicateRequest | src/App.tsx:89-99 | duplicate sends no id, timestamps, verdict, savings or default flag, a null owner and the name `name + " (Copy)"`; merged into any row, it reproduces the source's seven inputs |
| App.Compare | src/App.tsx:241-249 | the open scenario's fields reach the comparison in their own roles: the city total is its city rent plus city expenses, the suburb total its suburb rent and expenses plus the commute costs of its salary, days and distance, and the verdict is city iff the city total is lower |
| App.DuplicateComparesAlike | src/App.tsx:89-99 | whatever id, timestamps and defaults the stored copy gets, it compares exactly like its source |
| App.ScenarioBoard.constructor | src/App.tsx:23-25 | the initial state is an empty list, no open scenario, and loading |
| App.ScenarioBoard.LoadScenarios | src/App.tsx:33-50 | a non-empty fetch is listed and its first entry opened; an empty fetch lists just the default scenario and opens it; on any failure the list and open scenario stay; loading ends false |
| App.ScenarioBoard.HandleScenarioChange | src/App.tsx:52-64 | with no open scenario nothing changes; otherwise the merge is opened even if the update fails; on success only entries with the old open id are replaced by it; on failure the list is untouched |
| App.ScenarioBoard.HandleCreateScenario | src/App.tsx:66-85 | sends CreateRequest of the open scenario; a returned record is appended and opened, earlier entries unchanged; on failure nothing changes |
| App.ScenarioBoard.HandleDuplicateScenario | src/App.tsx:87-106 | sends DuplicateRequest of the source; a returned record is appended and opened; on failure nothing changes |
| App.ScenarioBoard.HandleDeleteScenario | src/App.tsx:108-120 | on success no entry with the id remains, and an open scenario with that id gives way to the first remaining entry or none; otherwise the open scenario stays; on failure nothing changes |
| App.ScenarioBoard.SelectScenario | src/App.tsx:293-296 | opens the given scenario and leaves the list alone |
| App.ScenarioBoard.BackToDashboard | src/App.tsx:321 | closes the open scenario and leaves the list alone |

Every handler except a failed change and select keeps `ActiveListed()`, which says
the open scenario is one of the listed ones. Select keeps it when the chosen scenario
is listed, as it is at both places the dashboard opens one. A change keeps it whenever it succeeds. A
successful change that renames no id also keeps the listed ids distinct. When a
change fails, the open scenario shows the edit and the listed copy does not.

## Left out

- The JSX rendering: the landing page, the hero, and the cards, panels and forms.
  None of it has logic of its own.
- The datastore client (`supabase.ts`) is not part of this model. Each call's result
  is a parameter. This includes the random choice of a default preset and the server's
  id, timestamps and column defaults.
- A successful insert whose reply is empty (`maybeSingle` returning null without an
  error). The model treats a reply as either a record or a failure.
- The asynchronous interleaving of handlers and React's batched `setState`. Each
  handler is one sequential step over the current state, so stale closures over
  `scenarios` are not modelled.
- The `console.error` logging in the handlers' error paths.
- IEEE-754 rounding and NaN. Arithmetic is exact, and "truthy salary" means non-zero.
- `formatCurrency` (`Intl.NumberFormat`) is not modelled. The digit rendering of
  `toFixed` and of the default number text is supplied to `FormatCurrencyCompact` as
  function parameters.
- The display arithmetic in the analytics panel. Its cost per commuting day divides
  by the office days, so it needs a non-zero attendance.
- The input ranges of the form widgets: 1-5 days, and 5-60 km in steps of 5. The
  engine accepts any number, and so does the model.
