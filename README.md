# FinFree and FreedomPath: the money logic, modelled in Dafny

FinFree is a personal-finance app for paying off an overdraft (OD) on a
fixed plan. It tracks monthly EMIs (equated monthly installments), an
emergency fund, a land fund and a wedding fund, and it scores progress
as a "freedom score". FreedomPath, its sibling, tracks assets,
liabilities and monthly income and expense entries against a FIRE
(financial independence, retire early) number.

This project models the logic under both apps' screens:

- **Finances** (`finfree/src/lib/finances.ts`). This is the rupee
  calculator:
  - savings rate and savings;
  - OD interest at 1.24% a month, rounded as `Math.round` does;
  - the OD end balance;
  - the 120-month payoff loop and the total interest it pays;
  - the weighted 40/20/40 freedom score and net worth;
  - the budget helpers and the 600-month time-to-goal loop;
  - the future-value loop;
  - the ledger sums by type, category and month.

  The loops are methods proved against recursive specification functions
  (`Remaining`, `PayoffSteps`, `Growth.Grow`). Lemmas characterise those
  functions.
- **FireFinances** (`freedompath/src/lib/finances.ts`). This is the
  dollar calculator:
  - net worth, the savings rate clamped to [0, 100], passive income and
    the freedom score;
  - the FIRE number and the monthly-compounding years-to-FIRE loop,
    capped at 100 years;
  - the FIRE targets and the year-by-year projection;
  - the averages over monthly entries.
- **Constants** (`finfree/src/lib/constants.ts`). These are the plan's
  figures, the lifestyle budget, the phases, the default goals and the
  six-month payoff schedule. Lemmas prove the tables consistent.
- **Store** (`src/lib/store.ts`). This is the current FinFree store: a
  class whose fields are the app's state. Each action is a method whose
  postcondition is a pure transition (`AfterAddTransaction`,
  `AfterDeleteTransaction`, …) of the old state. Lemmas about the
  transitions cover:
  - what a transaction does to the OD balance and the funds;
  - how deleting reverses it, and where the reversal falls short;
  - EMI payments and the persisted-state merge;
  - the selectors.

  The balance and goal effects it shares with the older store live in
  **Ledger**. The EMI arithmetic lives in **Installments**.
- **LegacyStore** (`finfree/src/lib/store.ts`). This is the older
  FinFree store. It has no EMI list, and its `deleteTransaction` only
  filters the list.
- **FireStore** (`freedompath/src/lib/store.ts`). This is the
  FreedomPath store: create, update and delete over assets, liabilities
  and monthly entries, plus settings, the hydration flag and the
  selectors.
- **EmiRules** (`src/app/emis/page.tsx`). These are the EMI page's rules:
  the add form's checks and the guard on its payment button.

Modelling choices:

- Rupee amounts are `int` and rates are exact `real`. FreedomPath's
  dollar amounts are `real`.
- `Math.round(x)` is `Round(x) = (x + 0.5).Floor`.
- JavaScript's `Infinity` result is a datatype case: `Months.Unbounded`,
  or `FireYears.Never`.
- The callers supply everything that comes from the clock or a random
  source. This covers fresh ids, the current month, the date, `now` and
  the EMI page's start and end dates.
- `src/lib/store.ts` imports `./finances` and `./constants` from its own
  directory, and those files are not part of this model. Their
  same-named counterparts under `finfree/src/lib/` stand in for them.

## Model

| member | source | states |
|---|---|---|
| Common.Round | finfree/src/lib/finances.ts:50-52 | `Math.round`: the result is the integer within half a unit below or at most half a unit above, with halves rounded up |
| Common.FirstIndex | src/lib/store.ts:286 | `findIndex` by key: -1 exactly when no element has the key; otherwise the first element with it |
| Common.Find | src/lib/store.ts:357 | `find` by key: `None` exactly when no element has the key; otherwise an element of the list with that key |
| Common.Remove | src/lib/store.ts:349-353 | `filter(x => x.id !== id)`: keeps every element whose key differs, and only elements of the list |
| Common.MapWhere | src/lib/store.ts:343-347 | `map(x => x.id === id ? f(x) : x)`: same length; an element with the key is replaced by `f` of it, and the others are kept |
| Constants.LifestyleBudgetMatchesCap | finfree/src/lib/constants.ts:28-35 | the six lifestyle budget lines sum to `LIFESTYLE_CAP` (45000) |
| Constants.SurplusIsTargetOdPayment | finfree/src/lib/constants.ts:10-15 | income − EMI − lifestyle cap is the target OD payment (46000) |
| Constants.PostOdAllocationSpendsTargetPayment | finfree/src/lib/constants.ts:96-101 | the four post-OD allocations sum to the target OD payment |
| Constants.PayoffScheduleChains | finfree/src/lib/constants.ts:85-90 | six rows; the first starts at the initial OD balance; each row starts where the previous one ended; the last ends at 0; every payment is the target payment |
| Constants.PayoffScheduleRunningInterest | finfree/src/lib/constants.ts:85-90 | `interestPaidYTD` is the running sum of `estimatedInterest` |
| Constants.PayoffScheduleMonthsConsecutive | finfree/src/lib/constants.ts:85-90 | the months run consecutively from 2026-02 to 2026-07 |
| Constants.PhasesInOrder | finfree/src/lib/constants.ts:48-79 | phase ids are 1, 2, 3 in order, with targets the OD balance, the emergency fund target and land + wedding |
| Constants.DefaultGoalsStartEmpty | finfree/src/lib/constants.ts:120-165 | the four default goals start at 0, not completed, with the ids and targets of their constants |
| Finances.SavingsRate | finfree/src/lib/finances.ts:22-30 | 0 when income ≤ 0; never negative; otherwise rate × income = max(0, income − expenses − EMI); at most 1 when expenses and EMI are non-negative |
| Finances.SavingsAmount | finfree/src/lib/finances.ts:35-41 | never negative; either 0 or income − expenses − EMI, whichever is larger |
| Finances.ODInterest | finfree/src/lib/finances.ts:50-52 | the balance × 1.24% rounded to the nearest rupee; between 0 and the balance for a non-negative balance |
| Finances.ODInterestMonotone | finfree/src/lib/finances.ts:50-52 | interest does not decrease as the balance grows |
| Finances.ODEndBalance | finfree/src/lib/finances.ts:57-64 | never negative; equals max(0, start + interest − payment), where interest defaults to `ODInterest(start)` |
| Finances.StopMonthFrom | finfree/src/lib/finances.ts:78-84 | the first step from k at which the unclamped remaining balance is ≤ 0, or the 120 cap |
| Finances.PayoffSteps | finfree/src/lib/finances.ts:78-84 | the least step count ≤ 120 whose remaining balance is ≤ 0, or 120 |
| Finances.MonthsToPayoff | finfree/src/lib/finances.ts:69-86 | unbounded when payment ≤ 0 or balance ≤ 0; a finite m lies in 1..119, leaves remaining ≤ 0 after m steps and > 0 before, and is `PayoffSteps`; unbounded otherwise means 120 steps never clear it |
| Finances.TotalInterest | finfree/src/lib/finances.ts:91-108 | the sum of the per-step interests over the same steps the payoff loop takes; non-negative; 0 when the start balance ≤ 0 |
| Finances.PayoffStepsUnique | finfree/src/lib/finances.ts:78-84 | any count meeting the least-step conditions is `PayoffSteps` |
| Finances.PayoffProgress | finfree/src/lib/finances.ts:78-84 | while the balance is positive, each step lowers it by at least payment − first interest |
| Finances.PayoffWithinCap | finfree/src/lib/finances.ts:69-86 | a payment exceeding the interest that can clear the balance in 119 months makes the loop finish before the cap |
| Finances.PayoffNeverShrinks | finfree/src/lib/finances.ts:78-84 | a payment not above the interest never lowers the balance |
| Finances.PayoffUnboundedWhenInterestCoversPayment | finfree/src/lib/finances.ts:69-86 | such a payment runs the loop to the 120 cap, so the result is unbounded |
| Finances.PlanClearsOdInSixMonths | finfree/src/lib/finances.ts:69-108 | the plan's 248989 at 46000 a month clears in 6 months, paying 10409 in interest |
| Finances.FreedomScore | finfree/src/lib/finances.ts:118-138 | at most 100; non-negative when the OD balance is within its initial value and the funds are non-negative |
| Finances.FreedomScoreAtStart | finfree/src/lib/finances.ts:118-138 | 0 at the initial OD balance with empty funds |
| Finances.FreedomScoreWhenComplete | finfree/src/lib/finances.ts:118-138 | 100 once the OD is cleared and every fund has reached its target |
| Finances.FreedomScoreMonotone | finfree/src/lib/finances.ts:118-138 | non-increasing in the OD balance and non-decreasing in each fund |
| Finances.NetWorthKeptByPayingOd | finfree/src/lib/finances.ts:160-176 | `calculateNetWorth` is unchanged when bank money pays down the OD; a fund adds to it one for one and an EMI liability subtracts one for one |
| Finances.DefaultSurplusIsTargetOdPayment | finfree/src/lib/finances.ts:209-215 | the monthly surplus of the plan's figures is the target OD payment |
| Finances.SurplusIsSavingsAtCap | finfree/src/lib/finances.ts:209-215 | spending exactly the lifestyle cap, `calculateSavings` saves the `calculateMonthlySurplus` floored at 0 |
| Finances.SavingsAreSurplusPlusUnspent | finfree/src/lib/finances.ts:209-225 | spending within the cap saves the surplus plus the unspent budget that `calculateRemainingBudget` reports |
| Finances.RemainingBudget | finfree/src/lib/finances.ts:220-225 | never negative; either 0 or cap − spent, whichever is larger |
| Finances.DailyLimit | finfree/src/lib/finances.ts:230-236 | 0 when no days remain; otherwise the budget ÷ days rounded to the nearest rupee, non-negative for a non-negative budget |
| Finances.ProjectFutureValue | finfree/src/lib/finances.ts:245-259 | the rounded result of `months` steps of monthly compounding plus contribution; at rate 0 the rounded principal + months × contribution; with non-negative inputs never below that |
| Finances.TimeToGoal | finfree/src/lib/finances.ts:264-284 | unbounded when the contribution ≤ 0, even when the goal is met; otherwise 0 when already at the target; a finite n < 600 is the first month whose balance reaches the target; unbounded means 600 months never reach it |
| Finances.GoalWithinReach | finfree/src/lib/finances.ts:264-284 | with non-negative growth, a target within 599 contributions of the start is reached before the cap |
| Finances.SumByTypeAppend | finfree/src/lib/finances.ts:293-301 | the per-type monthly sum is additive over concatenation |
| Finances.SumByTypeNoMatch | finfree/src/lib/finances.ts:293-301 | 0 when no transaction has that type in that month (so 0 on the empty list) |
| Finances.CategoryWithinExpenses | finfree/src/lib/finances.ts:306-314 | with non-negative amounts, a category's expenses lie between 0 and the month's total expenses |
| Finances.MonthlyTotalsCoverMonth | finfree/src/lib/finances.ts:319-336 | the five per-type totals add up to the sum of all the month's transactions |
| Finances.AnalyzeBudget | finfree/src/lib/finances.ts:345-366 | one line per budget entry in order, with spent the category's expenses; remaining + spent = budgeted; percentage 0 when budgeted ≤ 0, otherwise percentage × budgeted = spent × 100 |
| FireFinances.NetWorth | freedompath/src/lib/finances.ts:39-49 | the assets' total when there are no liabilities; 0 with neither |
| FireFinances.TotalAssetsAppend | freedompath/src/lib/finances.ts:54-56 | the asset total is additive over concatenation |
| FireFinances.TotalLiabilitiesAppend | freedompath/src/lib/finances.ts:61-63 | the liability total is additive over concatenation |
| FireFinances.NetWorthAfterAdding | freedompath/src/lib/finances.ts:39-63 | adding an asset raises net worth by its value; adding a liability lowers it by its value |
| FireFinances.SavingsRate | freedompath/src/lib/finances.ts:68-75 | 0 when income ≤ 0; always within [0, 100]; 0 when expenses ≥ income; otherwise rate × income = (income − expenses) × 100 |
| FireFinances.MonthlyPassiveIncome | freedompath/src/lib/finances.ts:81-86 | 12 × the result = invested assets × withdrawal rate |
| FireFinances.PassiveIncomeNonnegative | freedompath/src/lib/finances.ts:81-86 | non-negative assets and rate give non-negative passive income |
| FireFinances.FreedomScore | freedompath/src/lib/finances.ts:92-103 | 100 when expenses ≤ 0; at most 100; non-negative for non-negative assets and rate; below 100 it is passive income as a percentage of expenses |
| FireFinances.FIRENumber | freedompath/src/lib/finances.ts:109-115 | result × withdrawal rate = 12 × monthly expenses |
| FireFinances.FIRENumberAtFourPercent | freedompath/src/lib/finances.ts:109-115 | at the 4% default the FIRE number is 25 years of expenses |
| FireFinances.StopYearFrom | freedompath/src/lib/finances.ts:143-154 | the first year from k whose year-end balance (12 monthly steps a year) reaches the target, or the 100-year cap |
| FireFinances.StopYearUnique | freedompath/src/lib/finances.ts:143-154 | any year count meeting the first-year conditions is the one found |
| FireFinances.FireYearsOfMeaning | freedompath/src/lib/finances.ts:124-155 | 0 years when the net worth already reaches the FIRE number; with a positive contribution, the least n < 100 whose year-end balance reaches it, or never; without a contribution, never for a non-positive net worth and the growth-only case otherwise |
| FireFinances.FireReachedWithinCap | freedompath/src/lib/finances.ts:143-154 | with non-negative growth, a target within 99 years of contributions is reached |
| FireFinances.YearsToFIRE | freedompath/src/lib/finances.ts:124-155 | the loop computes `FireYearsOf`, whose meaning the lemma above states |
| FireFinances.CalculateFIRETargets | freedompath/src/lib/finances.ts:160-181 | regular FIRE is the FIRE number at 4%; lean is 0.6× and fat is 2× regular; coast is regular discounted over the years to retirement; lean ≤ regular ≤ fat for non-negative expenses |
| FireFinances.ProjectFutureNetWorth | freedompath/src/lib/finances.ts:187-207 | years + 1 entries, entry k for year k with the projected value (unrounded at year 0, rounded after) |
| FireFinances.ProjectionNondecreasing | freedompath/src/lib/finances.ts:187-207 | with non-negative inputs, the rounded projections do not decrease from year 1 on |
| FireFinances.ProjectionStartNotRounded | freedompath/src/lib/finances.ts:187-207 | year 0 is not rounded, so year 1 can lie below it |
| FireFinances.AverageMonthlyExpenses | freedompath/src/lib/finances.ts:212-221 | 0 on no entries; average × count = total expenses |
| FireFinances.AverageMonthlyIncome | freedompath/src/lib/finances.ts:223-232 | 0 on no entries; average × count = total income |
| FireFinances.AverageSavingsRateOfTotals | freedompath/src/lib/finances.ts:234-241 | the average savings rate is the savings rate of the totals, since both averages share one divisor |
| FireFinances.AverageSavingsRate | freedompath/src/lib/finances.ts:234-241 | the savings rate of the average income and expenses, always within [0, 100] |
| Growth.GrowWithoutInterest | finfree/src/lib/finances.ts:245-259 | at rate 0, n months of contributions give start + n × contribution |
| Growth.GrowAtLeastContributions | finfree/src/lib/finances.ts:245-259 | with non-negative inputs, growth is at least start + n × contribution |
| Growth.GrowMonotone | finfree/src/lib/finances.ts:264-284 | with non-negative inputs, the balance never decreases month over month |
| Installments.TotalLiabilityAppend | src/app/emis/page.tsx:123-126 | the EMI liability (Σ (total − paid) × amount) is additive over concatenation |
| Installments.TotalLiabilityNonnegative | src/app/emis/page.tsx:123-126 | with paid ≤ total and non-negative amounts, the liability is non-negative |
| Installments.ActiveEMIs | src/app/emis/page.tsx:129 | only EMIs with paid < total, none added |
| Installments.CompletedEMIs | src/app/emis/page.tsx:130 | only EMIs with paid ≥ total, none added |
| Installments.ActiveCompletedPartition | src/app/emis/page.tsx:129-130 | active and completed EMIs together are exactly the EMI list, as a multiset |
| Installments.MonthlyEMIAndCompletedCoverAll | src/lib/store.ts:478-483 | the monthly EMI total (active only) plus the completed amounts is the total of all amounts |
| Installments.PatchEMIs | src/lib/store.ts:343-347 | `updateEMI`'s map: the EMIs with the id are patched, the others are kept, and the length is kept |
| Installments.PatchAbsentEMIs | src/lib/store.ts:343-347 | patching an id no EMI has changes nothing |
| Installments.OutstandingAfterPayment | src/lib/store.ts:355-374 | one more paid installment lowers an EMI's outstanding amount by its amount |
| Installments.PaymentLowersLiability | src/lib/store.ts:355-374 | with unique ids, paying one installment of EMI k lowers the total liability by its amount |
| Ledger.WithFund | src/lib/store.ts:130-142 | sets one fund, and leaves the OD balance and the other funds alone |
| Ledger.Credit | src/lib/store.ts:119-142 | an OD payment sets the balance to max(0, B + interest − amount), and other types keep it; a savings into a named fund adds to that fund only |
| Ledger.Reverse | src/lib/store.ts:162-197 | an OD payment adds its amount back with no interest undone; a savings subtracts from its fund, floored at 0; nothing else moves |
| Ledger.ReverseUndoesFundSavings | src/lib/store.ts:130-187 | reversing a savings credit restores the balances when the fund was non-negative |
| Ledger.ReverseOfOdPayment | src/lib/store.ts:119-187 | reversing an OD payment leaves max(B + interest, amount), not B |
| Ledger.ReverseOfOdPaymentKeepsInterest | src/lib/store.ts:119-187 | for a payment within the balance plus interest, the balance ends at B + interest |
| Ledger.ReverseUndoesOther | src/lib/store.ts:119-197 | a transaction that is neither an OD payment nor a named-fund savings moves nothing either way |
| Ledger.SetGoalProgress | src/lib/store.ts:230-243 | each goal with the id becomes itself with only the current amount set to the new amount and the completion flag set to whether that amount reaches the target; every other goal is unchanged; the length is kept |
| Ledger.CreditOdGoal | src/lib/store.ts:216-226 | each `od-payoff` goal becomes itself with only its amount raised by the payment and its completion flag set to whether the OD is cleared; every other goal is unchanged; the length is kept |
| Ledger.PatchGoals | src/lib/store.ts:273-277 | the goals with the id are patched, the others are kept |
| Ledger.PatchTransactions | src/lib/store.ts:154-160 | the transactions with the id are patched, the others are kept |
| Ledger.InMonth | src/lib/store.ts:295 | every result is a transaction of the ledger in that month, and every ledger transaction of that month is in the result |
| Ledger.InMonthAppend | src/lib/store.ts:295 | the month filter keeps the ledger order: filtering a concatenation is the concatenation of the filtered parts |
| Ledger.MonthThenTypeIsSumByType | src/lib/store.ts:295-307 | filtering by month and then by type sums to `sumTransactionsByType` |
| Ledger.TotalOfTypeSnoc | src/lib/store.ts:296-307 | appending a transaction adds its amount to its own type's total only |
| Ledger.NewMonthlyRecord | src/lib/store.ts:294-320 | a new record's income, expenses, EMI and OD totals are the month's per-type sums; savings = income − expenses − EMI; lifestyle spent = expenses; the savings rate is `calculateSavingsRate` |
| Ledger.UpsertMonthlyRecord | src/lib/store.ts:284-325 | an existing month's first record is patched and the others are kept; otherwise one new record is appended with the updates applied |
| Ledger.UpsertKeepsMonthsUnique | src/lib/store.ts:284-325 | records unique by month stay unique when the updates do not move the month |
| Ledger.UpsertCanRepeatMonth | src/lib/store.ts:284-325 | an update that renames a month to another existing month breaks uniqueness |
| Ledger.CurrentPhase | finfree/src/lib/store.ts:286-293 | phase 1 iff OD > 0; phase 3 iff the OD is cleared and the emergency fund is at 135000; otherwise 2; the phase is a `FINANCIAL_PHASES` id |
| Ledger.StoreFreedomScoreIsLibraryScore | finfree/src/lib/store.ts:295-315 | the store selector computes the same weighted score as `calculateFreedomScore` |
| Store.Merge | src/lib/store.ts:388-398 | persisted fields override the current ones; a missing EMI list keeps the current one; a null one becomes the default EMI |
| Store.MergeRestoresSnapshot | src/lib/store.ts:388-398 | merging a saved state's snapshot restores that state, whatever the current state |
| Store.MergeOfNothing | src/lib/store.ts:388-398 | merging an empty snapshot keeps the current state |
| Store.InitialStateFacts | src/lib/store.ts:69-93 | unique EMI ids; paid 4 ≤ total 12; freedom score 0; phase 1; net worth −(248989 + 8 × 18000); monthly EMI 18000 |
| Store.AddTransactionEffect | src/lib/store.ts:107-152 | appends exactly the stamped transaction; the OD balance and funds move as `Credit` says; nothing else changes |
| Store.ReverseFields | src/lib/store.ts:162-197 | the reversal written out field by field |
| Store.DeleteAfterAdd | src/lib/store.ts:107-197 | add then delete under a fresh id restores the list and leaves the balances at `Reverse(Credit(…))` |
| Store.DeleteUndoesAdd | src/lib/store.ts:107-197 | for a non-OD transaction whose fund is non-negative, add then delete restores the state exactly |
| Store.DeleteAfterOdPayment | src/lib/store.ts:119-187 | add then delete of an OD payment leaves the balance at max(B + interest, amount) |
| Store.DeleteUnknownIsNoOp | src/lib/store.ts:162-167 | deleting an unknown id changes nothing |
| Store.RecordODPaymentEffect | src/lib/store.ts:204-227 | one OD-payment transaction is appended; the balance is the end balance with interest; the `od-payoff` goal gains the amount and is completed iff the balance is cleared |
| Store.SetFundEffect | src/lib/store.ts:230-270 | a fund setter stores max(0, amount) in its fund only; each goal of that fund becomes itself with only the current amount set to the new balance and completion set to whether it reaches the target; every other goal and field is unchanged |
| Store.EMIPaymentSkipped | src/lib/store.ts:355-360 | a missing EMI id changes nothing |
| Store.EMIPaymentUnfolds | src/lib/store.ts:355-374 | with unique ids and an installment left, the result is the state plus one `emi` transaction, with that EMI's paid count raised by one |
| Store.EMIPaymentEffect | src/lib/store.ts:355-374 | the same, element by element: one transaction of the EMI's amount appended; EMI k paid + 1; the other EMIs and all balances unchanged |
| Store.NetWorthAfterEMIPayment | src/lib/store.ts:355-374 | paying an installment raises net worth by the EMI's amount |
| Store.EMIPaymentKeepsPaidWithinTotal | src/lib/store.ts:355-374 | with unique ids, paid ≤ total is preserved for every EMI |
| Store.NetWorthAfterTransaction | src/lib/store.ts:107-152 | a named-fund savings raises net worth by its amount; an OD payment within the balance plus interest raises it by amount − interest |
| Store.MonthlyRecordsStayUnique | src/lib/store.ts:284-325 | `updateMonthlyRecord` keeps records unique by month when the updates do not move the month |
| Store.SelectorsAgreeWithLibrary | src/lib/store.ts:427-483 | `useNetWorth` is `calculateNetWorth` of the funds against the OD and the outstanding EMIs; `useFreedomScore` is `calculateFreedomScore`; `useCurrentPhase` is 1, 2 or 3 and 1 iff OD > 0; `useTotalMonthlyEMI` plus the completed amounts is every amount |
| Store.UpdateODBalanceEffect | src/lib/store.ts:200-202 | the OD balance becomes the amount floored at 0, and no other field changes |
| Store.DeleteEMIUndoesAddEMI | src/lib/store.ts:333-353 | adding an EMI under a fresh id lowers net worth by its outstanding amount, and deleting it restores the state |
| Store.ReverseBalances | src/lib/store.ts:168-187 | the step-by-step balance reversal of `deleteTransaction` computes `Reverse` |
| Store.FinFreeStore.constructor | src/lib/store.ts:69-93 | the store starts in the initial state, not hydrated |
| Store.FinFreeStore.SetHasHydrated | src/lib/store.ts:102-104 | sets only the hydration flag |
| Store.FinFreeStore.Rehydrate | src/lib/store.ts:384-398 | the state becomes the merge of the persisted state into the current one, and the store is hydrated |
| Store.FinFreeStore.AddTransaction | src/lib/store.ts:107-152 | the new state is `AfterAddTransaction` of the old |
| Store.FinFreeStore.UpdateTransaction | src/lib/store.ts:154-160 | the new state is `AfterUpdateTransaction` of the old |
| Store.FinFreeStore.DeleteTransaction | src/lib/store.ts:162-197 | the new state is `AfterDeleteTransaction` of the old |
| Store.FinFreeStore.UpdateODBalance | src/lib/store.ts:200-202 | the OD balance becomes max(0, amount) |
| Store.FinFreeStore.RecordODPayment | src/lib/store.ts:204-227 | the new state is `AfterRecordODPayment` of the old |
| Store.FinFreeStore.UpdateEmergencyFund | src/lib/store.ts:230-242 | the new state is `AfterSetFund` for the emergency fund |
| Store.FinFreeStore.UpdateLandFund | src/lib/store.ts:244-256 | the new state is `AfterSetFund` for the land fund |
| Store.FinFreeStore.UpdateWeddingFund | src/lib/store.ts:258-270 | the new state is `AfterSetFund` for the wedding fund |
| Store.FinFreeStore.UpdateGoal | src/lib/store.ts:273-277 | the goals with the id are patched |
| Store.FinFreeStore.GetMonthlyRecord | src/lib/store.ts:280-282 | `None` iff no record has the month; otherwise a stored record of that month |
| Store.FinFreeStore.UpdateMonthlyRecord | src/lib/store.ts:284-325 | the new state is `AfterUpdateMonthlyRecord` of the old |
| Store.FinFreeStore.UpdateLifestyleCap | src/lib/store.ts:328-330 | sets the lifestyle cap only |
| Store.FinFreeStore.AddEMI | src/lib/store.ts:333-341 | appends the stamped EMI |
| Store.FinFreeStore.UpdateEMI | src/lib/store.ts:343-347 | patches the EMIs with the id |
| Store.FinFreeStore.DeleteEMI | src/lib/store.ts:349-353 | removes the EMIs with the id |
| Store.FinFreeStore.RecordEMIPayment | src/lib/store.ts:355-374 | the new state is `AfterRecordEMIPayment` of the old |
| Store.FinFreeStore.ResetToDefaults | src/lib/store.ts:377-379 | the state returns to the initial state |
| LegacyStore.NetWorthIsCalculatedNetWorth | finfree/src/lib/store.ts:317-329 | the selector is `calculateNetWorth` of the funds and the OD plus `emiRemaining` × `emiAmount` |
| LegacyStore.InitialNetWorthsAgree | finfree/src/lib/store.ts:57-71 | both stores start at the same net worth, −(248989 + 8 × 18000) |
| LegacyStore.DeleteAfterAddKeepsEffect | finfree/src/lib/store.ts:79-138 | add then delete under a fresh id restores the list but keeps the balance effect |
| LegacyStore.DeletedSavingsStayInFund | finfree/src/lib/store.ts:79-138 | a deleted savings stays in its fund, so the state differs from the start |
| LegacyStore.FinFreeStore.constructor | finfree/src/lib/store.ts:57-71 | the store starts in the initial state without EMIs |
| LegacyStore.FinFreeStore.AddTransaction | finfree/src/lib/store.ts:79-124 | the same transition as the current store's `addTransaction` |
| LegacyStore.FinFreeStore.UpdateTransaction | finfree/src/lib/store.ts:126-132 | the transactions with the id are patched; nothing else changes |
| LegacyStore.FinFreeStore.DeleteTransaction | finfree/src/lib/store.ts:134-138 | only the transaction list is filtered; the balances are unchanged |
| LegacyStore.FinFreeStore.UpdateODBalance | finfree/src/lib/store.ts:141-143 | the OD balance becomes max(0, amount) |
| LegacyStore.FinFreeStore.RecordODPayment | finfree/src/lib/store.ts:145-168 | one OD payment appended; the `od-payoff` goal gains the amount and is completed iff the balance is cleared |
| LegacyStore.FinFreeStore.UpdateEmergencyFund | finfree/src/lib/store.ts:171-183 | max(0, amount) into the emergency fund, with its goal synced |
| LegacyStore.FinFreeStore.UpdateLandFund | finfree/src/lib/store.ts:185-197 | max(0, amount) into the land fund, with its goal synced |
| LegacyStore.FinFreeStore.UpdateWeddingFund | finfree/src/lib/store.ts:199-211 | max(0, amount) into the wedding fund, with its goal synced |
| LegacyStore.FinFreeStore.UpdateGoal | finfree/src/lib/store.ts:214-218 | the goals with the id are patched |
| LegacyStore.FinFreeStore.GetMonthlyRecord | finfree/src/lib/store.ts:221-223 | `None` iff no record has the month; otherwise a stored record of that month |
| LegacyStore.FinFreeStore.UpdateMonthlyRecord | finfree/src/lib/store.ts:225-266 | the same upsert as the current store |
| LegacyStore.FinFreeStore.UpdateLifestyleCap | finfree/src/lib/store.ts:269-271 | sets the lifestyle cap only |
| LegacyStore.FinFreeStore.ResetToDefaults | finfree/src/lib/store.ts:274-276 | the state returns to the initial state |
| FireStore.MergeRestoresSnapshot | freedompath/src/lib/store.ts:210-222 | rehydrating a saved state restores it, whatever the current state |
| FireStore.InvestedWithinTotal | freedompath/src/lib/store.ts:243-249 | with non-negative values, invested assets lie between 0 and total assets |
| FireStore.AllInvested | freedompath/src/lib/store.ts:243-249 | when every asset is stocks, bonds or crypto, invested assets are all assets |
| FireStore.YearsToFIREOf | freedompath/src/lib/store.ts:279-288 | years to FIRE from the net worth, saving average income − average expenses a month, toward the FIRE number of average expenses; 0 years iff the net worth already reaches it |
| FireStore.InitialStateFacts | freedompath/src/lib/store.ts:117-121 | a fresh store has net worth 0, freedom score 100 and FIRE number 0 |
| FireStore.DefaultFIRENumber | freedompath/src/lib/store.ts:273-277 | under the default settings, the FIRE number is 25 years of average expenses |
| FireStore.TargetsIgnoreWithdrawalRate | freedompath/src/lib/store.ts:273-299 | `useFIRETargets` does not depend on the withdrawal-rate setting, and its regular target equals `useFIRENumber` when that setting is 4% |
| FireStore.NetWorthAfterAdd | freedompath/src/lib/store.ts:124-161 | adding an asset raises net worth by its value; adding a liability lowers it by its value |
| FireStore.DeleteUndoesAdd | freedompath/src/lib/store.ts:124-199 | deleting what was just added under a fresh id restores the state, for all three lists |
| FireStore.DeleteUnknownIsNoOp | freedompath/src/lib/store.ts:145-199 | deleting an unknown id changes nothing, in any list |
| FireStore.DuplicateMonthsAllowed | freedompath/src/lib/store.ts:178-187 | a second entry for the same month is appended, and both count in the averages |
| FireStore.TotalAssetsReplace | freedompath/src/lib/finances.ts:54-56 | replacing one asset changes the total by the difference of the values |
| FireStore.NetWorthAfterAssetUpdate | freedompath/src/lib/store.ts:136-143 | with unique ids, a value update replaces that asset's value and `lastUpdated` and moves net worth by the difference |
| FireStore.UpdateEffects | freedompath/src/lib/store.ts:136-194 | each update patches exactly its own list's elements with the id (assets and liabilities also get `lastUpdated`), keeps the length, and leaves the other lists and the settings alone |
| FireStore.UpdateSettingsEffect | freedompath/src/lib/store.ts:202-205 | each supplied setting takes its new value, each missing one keeps the old, and the lists are unchanged |
| FireStore.AppStore.constructor | freedompath/src/lib/store.ts:117-121 | empty lists, the default settings, not hydrated |
| FireStore.AppStore.AddAsset | freedompath/src/lib/store.ts:124-134 | appends the stamped asset; nothing else changes |
| FireStore.AppStore.UpdateAsset | freedompath/src/lib/store.ts:136-143 | patches the assets with the id and stamps `lastUpdated` |
| FireStore.AppStore.DeleteAsset | freedompath/src/lib/store.ts:145-148 | removes the assets with the id |
| FireStore.AppStore.AddLiability | freedompath/src/lib/store.ts:151-161 | appends the stamped liability; nothing else changes |
| FireStore.AppStore.UpdateLiability | freedompath/src/lib/store.ts:163-170 | patches the liabilities with the id and stamps `lastUpdated` |
| FireStore.AppStore.DeleteLiability | freedompath/src/lib/store.ts:172-175 | removes the liabilities with the id |
| FireStore.AppStore.AddMonthlyEntry | freedompath/src/lib/store.ts:178-187 | appends the entry, with no check of its month |
| FireStore.AppStore.UpdateMonthlyEntry | freedompath/src/lib/store.ts:189-194 | patches the entries with the id, with no timestamp |
| FireStore.AppStore.DeleteMonthlyEntry | freedompath/src/lib/store.ts:196-199 | removes the entries with the id |
| FireStore.AppStore.UpdateSettings | freedompath/src/lib/store.ts:202-205 | overwrites only the supplied settings |
| FireStore.AppStore.SetHydrated | freedompath/src/lib/store.ts:208 | sets the hydration flag and nothing else |
| FireStore.AppStore.Rehydrate | freedompath/src/lib/store.ts:210-222 | the state becomes the merge of the persisted state, and the store is hydrated |
| EmiRules.ValidateNewEMI | src/app/emis/page.tsx:57-89 | missing fields iff the name, amount or total is blank; accepted iff the amount and total are positive and paid (blank as 0) ≤ total; the accepted EMI carries the form's values, with no description for a blank one |
| EmiRules.NegativePaidAccepted | src/app/emis/page.tsx:65-75 | a negative paid count passes the checks |
| EmiRules.AcceptedAddKeepsInvariant | src/app/emis/page.tsx:72-89 | adding an accepted EMI under a fresh id keeps paid ≤ total and unique ids |
| EmiRules.PageGuardMatchesStore | src/app/emis/page.tsx:102-112 | with unique ids, the store leaves the state unchanged exactly when the page refuses the payment |

## Left out

- Persistence I/O is not modelled: the `persist` middleware, localStorage, the IndexedDB adapter, the `useHydration` hook and the hydration gate. Only the merge of a persisted state into the current one is modelled. The persisted `_hasHydrated` value is not modelled, because the rehydration callback overwrites it.
- Fresh ids (`uuidv4`, `generateId`), the current month, dates, `now` and the EMI page's start and end dates are parameters. The `addMonths` end-date arithmetic and the date sorting of transactions are not modelled.
- The default descriptions of `recordODPayment` ('OD Payment') and `recordEMIPayment` (the EMI name and installment count) are not modelled: the caller supplies the description.
- `Math.log` in the growth-only branch of `calculateYearsToFIRE` and `Math.pow` in the coast-FIRE target are not interpreted. The model keeps them as the values `GrowthOnly(ratio, rate)` and `Discounted(value, rate, years)`.
- IEEE-754 floating point is not modelled: amounts and rates are exact integers and reals, so rounding error does not arise.
- Rupee amounts are integers, so a fractional amount typed into a form is not modelled.
- EmiRules.ValidateNewEMI: the form's fields arrive already parsed. A non-numeric entry (`NaN` in JavaScript) is not modelled apart from the paid field, where it becomes 0.
- FireFinances.FIRENumber: requires a non-zero withdrawal rate. At rate 0, JavaScript returns `Infinity`, which the model does not represent.
- FireStore.FIRENumberOf: requires a non-zero withdrawal rate, for the same reason.
- FireStore.YearsToFIREOf: requires a non-zero withdrawal rate, for the same reason.
- The six-row payoff schedule is not asserted to equal the live interest computation, because the two differ by a few rupees.
- Formatting (`formatCurrency`, `formatPercentage`, `formatMonth`), `getCurrentMonth`, `getDaysRemaining` and the React screens are not modelled.
- `calculateFIREProgress` and `createNetWorthSnapshot` in `finfree/src/lib/finances.ts` are not modelled, because no store action or selector uses them.
- Default arguments are not modelled: every caller passes every argument. In `finfree/src/lib/finances.ts` these are `emi = EMI_AMOUNT` (lines 25 and 38), the three defaults of `calculateMonthlySurplus` (lines 210-212), `cap = LIFESTYLE_CAP` (line 222) and `annualGrowthRate = 0.08` (line 268). In `freedompath/src/lib/finances.ts` they are `withdrawalRate = 0.04` (lines 83, 95 and 111), `annualReturn = 0.07` (lines 128, 164 and 191), `currentAge = 30` and `retirementAge = 65` (lines 162-163) and `years = 30` (line 190). `Finances.DefaultSurplusIsTargetOdPayment`, `FireFinances.FIRENumberAtFourPercent` and `FireStore.DefaultFIRENumber` state what the defaults give where a store relies on them.
- The `./finances` and `./constants` modules beside `src/lib/store.ts` are not part of this model.
