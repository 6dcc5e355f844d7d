# Dashboard metrics and view state, in Dafny

A model of the logic inside the `Dashboard` page of a clothing-shop admin front end
(`src/pages/Dashboard.js`). The page fetches one statistics snapshot from the sales API
and shows it to the operator:

- four main KPI cards for today (revenue, profit, sales count, profit margin);
- four business cards (customers, products, low-stock products, suppliers);
- week, month and year summary blocks;
- a revenue chart and a profit chart for the period chosen in a picker (weekly, monthly or yearly);
- the ranked list of top products.

The model keeps the page's derivation rules and its state changes. It leaves out the markup.

Modules:

- `Wrappers`: `Option`, which stands for JavaScript's absent values.
- `Format`: `formatCurrency`, plus the decimal digits that the margin text is built from.
- `Margin`: `calculateProfitMargin`, computed exactly in tenths of a percent. It has two
  results: the number `0` for a zero revenue, and the `toFixed(1)` string otherwise. So a zero
  revenue prints `0%`, while a zero profit over a non-zero revenue prints `0.0%`.
- `Stats`: the snapshot, and the `stats?.x?.y || 0` reads.
- `Kpis`: `mainStats`, `businessStats` and the three period blocks.
- `Charts`: `getCurrentPeriodData` and the two chart panels.
- `Periods`: the `timePeriods` table, the label lookup, and the picker as a state machine
  over (timePeriod, showPeriodDropdown).
- `TopProducts`: the positional ranking and the empty-state branch.
- `Load`: `loadDashboardData` as a transition on (stats, loading, notifications raised).
  The fetch result is an input.
- `Dashboard`: the component's state cells as a class `DashboardPage`, its handlers as
  methods, and `Render`, which maps the state to the spinner or to the page.

The class methods are each proved against a pure transition function (`Periods.TogglePicker`,
`Periods.SelectPeriod`, `Load.BeginLoad`, `Load.SettleLoad`, `Load.RunLoad`). The lemmas
about those functions state what the page promises.

The model keeps these behaviours of the page as the code has them:

- A failed load has no "errored" state. `stats` keeps its previous value (`null` before any
  success). The page then renders with zeroed figures.
- The margin is not always a number. It is the number `0` or a one-decimal string.
- "No top products" is not an empty ranked list. It selects a separate empty-state branch.
- Overlapping loads are not coalesced.
- A top product's `total_revenue` is the one field formatted without `|| 0`, so a missing value
  (NaN) and a JSON `null` (0) show differently; the model keeps the two apart. Everywhere else
  `?.` and `|| 0` treat them alike, and both are `None`.

The option record's `label` field is called `caption` in the model, because `label` is a
reserved word in Dafny.

## Model

| member | source | states |
|---|---|---|
| Format.FormatCurrency | src/pages/Dashboard.js:53-55 | the text is the locale's grouping of the amount followed by exactly " so'm" |
| Format.FormatCurrencyInjective | src/pages/Dashboard.js:53-55 | two amounts format alike iff the locale groups them alike (the suffix never merges distinct amounts) |
| Format.ParseNatText | src/pages/Dashboard.js:59 | the integer digits printed for a margin read back as the number they came from |
| Margin.RoundHalfUp | src/pages/Dashboard.js:59 | the result is n/d rounded to the nearest integer, a tie rounding up |
| Margin.ProfitMargin | src/pages/Dashboard.js:57-60 | zero revenue gives the number 0 and nothing else does; otherwise the sign is negative iff profit and revenue have opposite signs and profit is non-zero, and the magnitude is 1000·|profit|/|revenue| rounded to the nearest tenth of a percent, ties away from zero |
| Margin.MarginText | src/pages/Dashboard.js:57-60 | the number 0 prints "0"; a fixed margin prints as digits, ".", one digit, with a leading "-" iff negative |
| Margin.PercentText | src/pages/Dashboard.js:89 | the margin card text is the margin text followed by "%" |
| Margin.DecodeMarginText | src/pages/Dashboard.js:57-60 | every margin text reads back as the margin it was printed from |
| Margin.MarginTextInjective | src/pages/Dashboard.js:57-60 | distinct margins never print alike, so "0" (zero revenue) and "0.0" (zero profit) stay apart |
| Margin.PercentTextInjective | src/pages/Dashboard.js:195 | two margin percentages print alike iff the margins are equal |
| Margin.ZeroRevenueMargin | src/pages/Dashboard.js:57-58 | a zero revenue yields the number 0 and "0%" whatever the profit, positive, zero or negative |
| Margin.ZeroProfitMargin | src/pages/Dashboard.js:57-60 | a zero profit over a non-zero revenue prints "0.0%", which differs from the zero-revenue "0%" |
| Margin.NegativeZeroMargin | src/pages/Dashboard.js:59 | every loss smaller than a twentieth of a percent of the revenue rounds to zero tenths and prints "-0.0%" (toFixed keeps the sign) |
| Margin.MarginSign | src/pages/Dashboard.js:57-60 | for a non-zero revenue the printed sign is minus iff the quotient profit / revenue is negative, that is profit · revenue < 0 |
| Margin.ExampleMargins | src/pages/Dashboard.js:59 | (1000, 150) prints "15.0", (1000000, 250000) prints "25.0" and (10000, -1) prints "-0.0%" |
| Margin.MarginScaleInvariant | src/pages/Dashboard.js:59 | scaling revenue and profit by the same non-zero factor leaves the margin unchanged |
| Stats.WindowFigures | src/pages/Dashboard.js:65-89 | each of a window's revenue, profit and sales count is the received value, or 0 where the snapshot, the window or the field is absent |
| Stats.WindowFiguresDefaultsAreZero | src/pages/Dashboard.js:191-215 | filling a window's absent fields with 0 changes none of the figures the page reads |
| Stats.Customers | src/pages/Dashboard.js:100 | the received customer count, or 0 when the snapshot, totals or field is absent |
| Stats.Products | src/pages/Dashboard.js:105 | the received product count, or 0 when the snapshot, totals or field is absent |
| Stats.LowStock | src/pages/Dashboard.js:112 | the received low-stock count, or 0 when the snapshot or field is absent |
| Stats.Suppliers | src/pages/Dashboard.js:118 | the received supplier count, or 0 when the snapshot, totals or field is absent |
| Kpis.MainStats | src/pages/Dashboard.js:62-95 | exactly four cards in the order revenue, profit, sales count, margin, with fixed titles and badges; revenue and profit formatted as currency, sales count as a number, margin as a percentage, all from today's defaulted figures |
| Kpis.MainBadgesIgnoreSnapshot | src/pages/Dashboard.js:62-95 | every main card's title, change text and change direction is the same for any two snapshots |
| Kpis.BusinessStats | src/pages/Dashboard.js:97-122 | exactly four cards in the order customers, products, low-stock, suppliers, each the received count or 0 |
| Kpis.PeriodBlocks | src/pages/Dashboard.js:188-217 | three blocks, week, month and year, each the same summary function applied to that window's defaulted figures |
| Kpis.PeriodSummary | src/pages/Dashboard.js:189-196 | a block carries its title, the formatted revenue and profit, the sales count and the margin percentage of the given figures |
| Kpis.PeriodSummaryUniform | src/pages/Dashboard.js:188-217 | two blocks show the same revenue, sales, profit and margin iff their figures format alike and have equal sales counts and margins; only the title tells the windows apart |
| Kpis.NoSnapshotShowsZeros | src/pages/Dashboard.js:62-122 | with no snapshot every card and period-block amount is the formatted zero, every count is 0 and every margin reads "0%" |
| Kpis.MainStatsExample | src/pages/Dashboard.js:62-95 | today = (1000000, 250000, 12) gives a grouped revenue with " so'm", a sales count of 12 and a "25.0%" margin card |
| Charts.CurrentPeriodData | src/pages/Dashboard.js:124-133 | "weekly" selects the weekly series, "yearly" the yearly series, any other value the monthly series; an absent snapshot, chart set or series yields the empty sequence |
| Charts.CurrentPeriodDataFromSnapshot | src/pages/Dashboard.js:124-133 | the shown series is empty or one of the three series the snapshot sent |
| Charts.DefaultIsMonthly | src/pages/Dashboard.js:130-131 | any value other than "weekly" and "yearly" shows the same data as "monthly" |
| Charts.ChartPanels | src/pages/Dashboard.js:249-260 | a revenue chart and a profit chart, both fed the selected series and titled by the period label |
| Charts.LabelText | src/pages/Dashboard.js:252 | a present label prints as itself, an absent one as "undefined" |
| Periods.FindOption | src/pages/Dashboard.js:227 | finds nothing iff no option has the value; otherwise returns the first option with that value |
| Periods.PeriodLabelTotal | src/pages/Dashboard.js:26-30 | the label lookup succeeds iff the value is one of the three periods, and gives "Haftalik", "Oylik", "Yillik" |
| Periods.TimePeriodsValues | src/pages/Dashboard.js:26-30 | every option of the table carries one of the three period values |
| Periods.ToggleFlipsOnlyOpen | src/pages/Dashboard.js:225 | toggling flips the open flag, keeps the period, and toggling twice restores the state |
| Periods.SelectClosesAndIsIdempotent | src/pages/Dashboard.js:236-239 | selecting sets the period and closes the picker from either picker state; selecting twice equals selecting once; the last selection wins |
| Periods.PickerValidPreserved | src/pages/Dashboard.js:225-239 | both transitions keep the picker on a known period, so the button's label always resolves |
| Periods.DropdownItems | src/pages/Dashboard.js:230-245 | closed shows no options; open shows every option in table order, active iff it is the selected period |
| Periods.ExactlyOneActive | src/pages/Dashboard.js:232-235 | in an open picker on a known period exactly one option is marked active |
| Periods.PeriodLabel | src/pages/Dashboard.js:227 | a label is found iff some option has the period value, and it is that option's label |
| Periods.TogglePicker | src/pages/Dashboard.js:225 | the open flag flips and the period stays |
| Periods.SelectPeriod | src/pages/Dashboard.js:236-239 | the period becomes the option's value and the picker is closed, whatever the previous state |
| TopProducts.RankProducts | src/pages/Dashboard.js:268-282 | one row per product in input order, each from the product at that position |
| TopProducts.RanksArePositions | src/pages/Dashboard.js:268-271 | the row at index i has rank i+1, so ranks strictly increase; nothing is re-sorted |
| TopProducts.RankAppend | src/pages/Dashboard.js:268-271 | appending products keeps the earlier rows and numbers the new ones after them |
| TopProducts.RowsKeepProducts | src/pages/Dashboard.js:273-274 | each row carries its product's name and units sold unchanged |
| TopProducts.ProfitDefaulted | src/pages/Dashboard.js:279 | an absent profit shows as the formatted zero amount, exactly as a zero profit does, whatever the revenue |
| TopProducts.RevenueNotDefaulted | src/pages/Dashboard.js:278 | a missing revenue is formatted as NaN, not defaulted; it shows like a zero revenue only if the locale prints NaN and 0 alike |
| TopProducts.NullRevenueShowsZero | src/pages/Dashboard.js:278 | a `null` revenue is converted to 0 by the formatter and shows exactly as a zero revenue, in every locale |
| TopProducts.AsJsNumber | src/pages/Dashboard.js:278 | the formatter's number conversion: NaN iff the field is missing, 0 for `null`, the number itself otherwise |
| TopProducts.ProductRowAt | src/pages/Dashboard.js:269-280 | rank is the index plus one, name and units sold as received, revenue formatted without a default, profit formatted after an absent value is defaulted to 0 |
| TopProducts.TopProductsSection | src/pages/Dashboard.js:266-289 | rows iff the snapshot holds a non-empty top_products, and then the ranked rows; the empty-state message otherwise |
| TopProducts.EmptyStateCases | src/pages/Dashboard.js:284-289 | an absent snapshot, an absent list and an empty list all select the empty state |
| Load.RunLoadOutcome | src/pages/Dashboard.js:36-47 | loading is false afterwards; a success replaces stats with the response data and raises nothing; a failure keeps stats and raises exactly one error notification |
| Load.RunLoadsSummary | src/pages/Dashboard.js:36-47 | after any series of loads, stats is the data of the last success (or what it was before), with one notification per failure, and the notifications shown before are kept as a prefix |
| Load.AllFailuresKeepNull | src/pages/Dashboard.js:21-47 | while every load fails, stats stays null and each failure raises one notification |
| Load.BeginLoad | src/pages/Dashboard.js:38 | loading becomes true; stats and notifications are unchanged |
| Load.SettleLoad | src/pages/Dashboard.js:39-46 | loading becomes false; a success sets stats to the response data and raises nothing; a failure keeps stats and appends the one error message |
| Load.RunLoad | src/pages/Dashboard.js:36-47 | a whole load ends in the state settling alone would give, so setting loading first leaves no trace |
| Dashboard.Render | src/pages/Dashboard.js:49-51 | the spinner shows iff loading; otherwise the page is built from stats and the picker state |
| Dashboard.NoSnapshotPageIsZeroed | src/pages/Dashboard.js:62-289 | with no snapshot and the initial picker, the main cards and period blocks show the formatted zero, 0 counts and "0%" margins, the business cards 0, both charts are empty and titled "Oylik sotuvlar" / "Oylik foyda", and the product list is the empty state |
| Dashboard.FailedFirstLoadShowsZeroPage | src/pages/Dashboard.js:36-51 | after a failed first load exactly one error has been raised and the page rendered is the no-snapshot page |
| Dashboard.SuccessfulLoadShowsData | src/pages/Dashboard.js:39-45 | after a successful load the page shows the received snapshot, whatever was shown before |
| Dashboard.DashboardPage.constructor | src/pages/Dashboard.js:21-24 | mount: stats null, loading true, period "monthly", picker closed, no notifications |
| Dashboard.DashboardPage.TogglePicker | src/pages/Dashboard.js:225 | the picker state becomes TogglePicker of the old state; the load cells are untouched |
| Dashboard.DashboardPage.SelectPeriod | src/pages/Dashboard.js:236-239 | the picker state becomes SelectPeriod of the old state; the load cells are untouched |
| Dashboard.DashboardPage.StartLoad | src/pages/Dashboard.js:38 | loading becomes true and nothing else changes |
| Dashboard.DashboardPage.ApplyLoadResult | src/pages/Dashboard.js:39-46 | the load cells become SettleLoad of the old ones; the picker is untouched |
| Dashboard.DashboardPage.LoadDashboardData | src/pages/Dashboard.js:36-47 | the load cells become RunLoad of the old ones; the picker is untouched |
| Dashboard.DashboardPage.Rendered | src/pages/Dashboard.js:225-227 | the spinner shows iff loading; on a valid page that is not loading, the picker button's label always resolves |
| Dashboard.MountAndBrowse | src/pages/Dashboard.js:225-239 | mount, load, select "yearly", toggle, select "weekly": the picker ends closed on "weekly", labelled "Haftalik" |

## Left out

- Markup, CSS classes, colours, icons, animation delays, and the `LoadingSpinner` and `Chart` components are presentation only. Chart points are an opaque type.
- Format.FormatCurrency: does not state digit grouping or that a negative amount keeps its minus sign. The `uz-UZ` grouping of Intl.NumberFormat belongs to the host's locale library, so it is a parameter `g` about which nothing is assumed.
- Amounts are whole numbers of so'm. Fractional amounts, which Intl.NumberFormat would print with up to three decimals, are not modelled.
- Floating point is not modelled. The margin is the exact ratio rounded to a tenth. The double-precision rounding of `profit / revenue * 100` near a tie is not captured, and neither is toFixed's exponential output for magnitudes of 1e21 and above.
- The network call `saleAPI.getStatistics` is replaced by its outcome, given as a parameter. `toast.error` is recorded as a message in a list of raised notifications. `console.error` is not modelled.
- The `useEffect` mount trigger is not modelled. A caller constructs the page and then calls `LoadDashboardData`.
- React's asynchronous state updates and re-renders are not modelled. State changes take effect at once, and `Render` is a function of the current state.
- Overlapping or re-entrant `loadDashboardData` calls are not modelled: they need concurrency, and the source does not guard against them.
- JavaScript's `||` treats other falsy values (NaN, "", false) as absent too. The model has well-typed numbers, and only absence triggers a default.
