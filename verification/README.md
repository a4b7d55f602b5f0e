# Tax estimator calculation core, in Dafny

This project models the calculation behind the 2025 comprehensive tax
estimator: given parsed income amounts, a filing status and a state, it
computes the federal result (AGI, taxable income, ordinary-income tax from a
progressive bracket walk, capital-gains tax from a walk stacked on top of the
ordinary income, the 0.9% additional Medicare tax, the 3.8% net investment
income tax, credits, payments and the balance due or refunded) and, when a
state is selected, a simplified state income tax.

Money and rates are exact `real`s. A bracket's upper limit is
`Finite(amount)` or `Unbounded` (JavaScript's `Infinity`). Filing statuses and
state selectors are closed enumerations; the "Select State" entry `NoState`
has no row in the rate table and yields no state result.

Modules, one per part of the calculation:

- `Money` — `Math.min`/`Math.max` clamps, sums, two scaling facts.
- `Brackets` — the progressive walk shared by the federal ordinary-income
  loop and the graduated state loop: a recursive specification (`Slices`,
  `TaxFrom`, `BracketTax`), the loop as the source writes it
  (`ComputeBracketTax`) proved equal to it, and its properties.
- `Stacked` — the capital-gains walk, whose room in each bracket is the limit
  minus the ordinary income and the preferential income already taxed;
  recursive specification, the loop, and properties.
- `RateTable` — the constant federal and state schedules. The federal lists
  have the subset type `Schedule` (ascending from zero, rates in [0, 1],
  closed by an unbounded bracket); each state list is proved to have that
  shape by a lemma of its own, and `StateTableValid` collects them per row.
- `Federal` — income classification, taxable income, both walks, surtaxes,
  totals (`ComputeFederal`, parametrised by a schedule; `FederalFor` reads
  the table).
- `StateTax` — the state result (`ComputeState`).
- `Calculator` — `Estimate` (the whole calculation as functions) and
  `CalculateTaxes`, the step-by-step version with both loops, proved equal.
- `Scenarios` — worked cases with the 2025 figures.

Two behaviours of the source are kept on purpose. The capital-gains walk
charges the whole preferential income, even when deductions leave less than
that taxable (`Federal.CapitalGainsWalkTakesAllPreferential`,
`Scenarios.PreferentialWalkIgnoresDeduction`). A negative Schedule E net is
dropped from ordinary income and AGI but still reduces net investment income
(`Federal.ScheduleEAsymmetry`, `Federal.ScheduleELossOnlyLowersNiit`).

The model follows the code in three details that a general description of
the calculator might state otherwise: the progressive walk always starts at
limit 0 (there is no start offset); the capital-gains loop keeps no previous
limit (the code resets `prevLimit` but never reads it); and `federal` is not
a selectable state key.

## Model

| member | source | states |
|---|---|---|
| Brackets.Slices | src/App.tsx:162-171 | the walk takes at most one slice per bracket |
| Brackets.ComputeBracketTax | src/App.tsx:162-171 | the source's loop (break when nothing remains, slice `min(remaining, limit - prevLimit)`) computes exactly the recursive walk's tax |
| Brackets.NothingToTax | src/App.tsx:166 | a zero or negative amount takes no slice and yields zero tax |
| Brackets.SlicesSumToAmount | src/App.tsx:162-171 | with an unbounded bracket in the list, the slices of a positive amount add up to exactly that amount |
| Brackets.SlicesWithinBrackets | src/App.tsx:167 | on an ascending list every slice is non-negative and no wider than its bracket (limit minus lower edge) |
| Brackets.TaxIsWeightedSlices | src/App.tsx:167-168 | the tax is the sum of each slice times its bracket's rate |
| Brackets.TaxBounds | src/App.tsx:162-171 | on an ascending list with rates in [0, 1] the tax lies between 0 and the amount |
| Brackets.TaxMonotone | src/App.tsx:162-171 | a larger amount never yields less tax |
| Stacked.StackedSlices | src/App.tsx:173-182 | the capital-gains walk takes at most one slice per bracket |
| Stacked.ComputeCapitalGainsTax | src/App.tsx:173-182 | the source's capital-gains loop computes exactly the recursive stacked walk's tax |
| Stacked.StackedConsumesAll | src/App.tsx:174-181 | with an unbounded bracket, the whole positive preferential amount is consumed |
| Stacked.StackedSlicesWithinRoom | src/App.tsx:178-179 | each slice is non-negative and at most the room between the bracket limit and ordinary income plus preferential income already taxed |
| Stacked.StackedTaxBounds | src/App.tsx:173-182 | with rates in [0, 1] the preferential tax lies between 0 and the amount |
| Stacked.StackedTaxIsWeightedSlices | src/App.tsx:177-180 | the capital-gains tax is the sum of each stacked slice times its tier's rate |
| Stacked.CapitalGainsTaxMonotoneInPreferential | src/App.tsx:173-182 | with non-negative rates and an unbounded tier, more preferential income never lowers its tax |
| Stacked.CapitalGainsTaxMonotoneInOrdinary | src/App.tsx:173-182 | with non-negative rates that never fall and an unbounded tier, more ordinary income underneath never lowers the tax on the same preferential income |
| RateTable.FederalInfoValid | src/App.tsx:116-118 | federal deductions and surtax thresholds are non-negative, and the capital-gains rates never fall from one tier to the next |
| RateTable.StateRowIffSelected | src/App.tsx:114-142 | every state selector except "none" has a row in the table |
| RateTable.NoIncomeTaxStates | src/App.tsx:140-141 | Florida and Texas, and no other key, are marked as levying no income tax |
| RateTable.StateTableValid | src/App.tsx:120-139 | every state schedule is ascending from zero with rates in [0, 1] and closed by an unbounded bracket, and every flat-rate schedule is a single bracket |
| Federal.NetScheduleE | src/App.tsx:109 | the Schedule E net is negative exactly when expenses exceed rents plus passthrough income, and adding the expenses back gives rents plus passthrough |
| Federal.TaxableIncome | src/App.tsx:157-158 | taxable income is non-negative, at least AGI less deductions, and equal to it when positive |
| Federal.TaxableOrdinaryIncome | src/App.tsx:161 | taxable ordinary income is non-negative, with preferential income covers all taxable income, and (for non-negative preferential income) does not exceed taxable income |
| Federal.MedicareTax | src/App.tsx:186 | zero when wages are at most the threshold, otherwise exactly 0.009 of the excess |
| Federal.NiitBase | src/App.tsx:190 | the NIIT base is non-negative, at most both the clamped net investment income and the clamped AGI excess, and equal to one of them |
| Federal.FederalComponentsNonNegative | src/App.tsx:158-191 | taxable income, income tax, Medicare tax and NIIT are never negative; income tax is at most taxable ordinary plus preferential income |
| Federal.FederalTotals | src/App.tsx:193-197 | total = income tax + Medicare + NIIT - credits, payments = withheld + estimated, balance + payments = total |
| Federal.ZeroIncome | src/App.tsx:152-195 | with no income nothing is taxable, no tax or surtax arises, and the total is minus the credits (unclamped) |
| Federal.ScheduleEAsymmetry | src/App.tsx:154-189 | Schedule E enters ordinary income and AGI only as its positive part, net investment income with its sign |
| Federal.WorksheetLossReachesOnlyInvestmentIncome | src/App.tsx:107-189 | a worksheet loss leaves AGI unchanged and lowers net investment income by the loss |
| Federal.ScheduleELossOnlyLowersNiit | src/App.tsx:154-191 | a Schedule E loss leaves AGI, taxable income, income tax and Medicare tax unchanged and never raises the NIIT |
| Federal.CapitalGainsWalkTakesAllPreferential | src/App.tsx:174-182 | the stacked walk consumes the whole preferential income, whatever the deductions, and the preferential tax is those slices charged at their tiers' rates |
| Federal.RegularTaxMonotoneInWages | src/App.tsx:154-171 | more wages never lower the ordinary-income tax |
| Federal.TaxableOrdinaryWithoutLoss | src/App.tsx:157-161 | without a net capital loss, taxable ordinary income is ordinary income less deductions, floored at 0, whatever the preferential income |
| Federal.TaxableOrdinaryGrows | src/App.tsx:153-161 | more of every income component never lowers taxable ordinary income, unless a net capital loss shrinks |
| Federal.IncomeTaxGrows | src/App.tsx:153-182 | under the same proviso, more of every income component never lowers the income tax before credits |
| Federal.SurtaxesGrow | src/App.tsx:185-191 | more of every income component never lowers the additional Medicare tax or the NIIT |
| Federal.TotalTaxMonotone | src/App.tsx:152-193 | under the same proviso, more of every income component never lowers the total federal tax |
| Federal.TotalTaxMonotoneInWages | src/App.tsx:152-193 | with the 2025 table, more wages never lower the total federal tax |
| Federal.TotalTaxMonotoneInLongTermGains | src/App.tsx:152-193 | with the 2025 table, more long-term gains never lower the total federal tax when preferential income is not a net loss |
| StateTax.FlatIsSingleBracketWalk | src/App.tsx:212-213 | the flat product equals the walk over one unbounded bracket at that rate |
| StateTax.StateResultIffSelected | src/App.tsx:200-202 | there is a state result exactly when a state is selected |
| StateTax.NoTaxStatesOweNothing | src/App.tsx:204-205 | exactly Florida and Texas report a no-tax result, with total 0 whatever the income |
| StateTax.LeviedStateTax | src/App.tsx:207-225 | for a levying row: taxable income is AGI less the deduction clamped at 0, the total is the bracket walk on it (flat rates included), and it is non-negative |
| StateTax.StateTaxForKey | src/App.tsx:200-225 | the same, for every table state other than Florida and Texas |
| StateTax.StateResultMonotone | src/App.tsx:207-225 | a higher AGI never lowers a state's tax |
| StateTax.StateTaxMonotone | src/App.tsx:200-226 | a higher AGI never lowers the tax of any selectable state |
| Calculator.CalculateFederal | src/App.tsx:152-197 | the sequential federal computation with both loops equals `ComputeFederal` |
| Calculator.CalculateState | src/App.tsx:207-225 | the sequential state computation equals `StateResultFor` |
| Calculator.CalculateTaxes | src/App.tsx:145-230 | the whole calculation equals `Estimate`, has a state result exactly when a state is selected, a non-negative income tax, and balance = total - payments |
| Scenarios.StackingAcrossTiers | src/App.tsx:173-182 | single filer, 40000 ordinary and 15000 preferential: slices 9230 at 0% and 5770 at 15%, tax 865.50 |
| Scenarios.PreferentialWalkIgnoresDeduction | src/App.tsx:174 | 600000 of long-term gains alone: 585000 taxable, yet slices 49230, 492670, 58100 and tax 85520.50 |
| Scenarios.NegativePreferentialLiftsOrdinary | src/App.tsx:161 | with a 5000 capital loss, taxable ordinary income (35000) exceeds taxable income (30000) |
| Scenarios.ShrinkingLossLowersTax | src/App.tsx:155-161 | 10000 of wages and a 3000 capital loss: nothing taxable, yet 300 of income tax, which falls to 0 when the loss is gone |
| Scenarios.FallingRatesLowerStackedTax | src/App.tsx:173-182 | on a list whose rate falls, 50 stacked on 0 costs 10 but stacked on 100 costs 0 |
| Scenarios.MedicareAroundThreshold | src/App.tsx:186 | single filer: 450 on 250000 of wages, 0 on 150000 |
| Scenarios.NiitCappedByAgiExcess | src/App.tsx:190-191 | base capped at the 10000 AGI excess, NIIT 380 |
| Scenarios.OverwithholdingIsRefund | src/App.tsx:195 | 10000 of tax against 12000 withheld is a balance of -2000 |

## Left out

- The React components, hooks, form state and JSX: presentation only.
- Currency formatting with `Intl.NumberFormat`: a foreign library call used for display.
- `parseFloat(v) || 0` coercion: the model takes already-parsed amounts, an absent field being 0.
- IEEE-754 rounding of JavaScript numbers: the arithmetic is exact.
- The display-name lookup `stateOptions.find`: replaced by `RateTable.StateName`.
- Unknown filing-status or state strings: the enumerations are closed, so they cannot arise.
- Brackets.EdgeAfter: after an unbounded bracket the source sets the previous limit to `Infinity`; the model keeps the old edge, since the remaining amount is then 0 and the walk stops before reading it.
- Federal.TaxableOrdinaryIncome: the bound "at most taxable income" is stated only for non-negative preferential income, because a capital loss entered as a negative amount breaks it (`Scenarios.NegativePreferentialLiftsOrdinary`); the form's `min="0"` fields normally keep inputs non-negative.
- Federal.TotalTaxMonotone: requires that preferential income was not a net loss or stays the same, because with a capital loss more long-term gains can lower the tax (`Scenarios.ShrinkingLossLowersTax`); the same proviso is on `Federal.TaxableOrdinaryGrows`, `Federal.IncomeTaxGrows` and `Federal.TotalTaxMonotoneInLongTermGains`.
- Stacked.CapitalGainsTaxMonotoneInOrdinary: requires rates that never fall, because otherwise more ordinary income can lower the tax (`Scenarios.FallingRatesLowerStackedTax`); the table's capital-gains rates rise (`RateTable.FederalInfoValid`).
