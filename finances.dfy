/** The FinFree finance library (`finfree/src/lib/finances.ts`, also the
    library behind `src/lib/store.ts`): savings rate, overdraft (OD) interest
    and payoff, the weighted freedom score, budget helpers, compound
    projections and ledger aggregation. Amounts are whole rupees; rates and
    ratios are exact reals. */
module Finances {
  import opened Common
  import opened Types
  import opened Growth
  import C = Constants

  // ---------------------------------------------------------------------------
  // Savings
  // ---------------------------------------------------------------------------

  /** `calculateSavingsRate`: the share of income left after expenses and the EMI,
      never negative, and 0 when there is no income. */
  function SavingsRate(income: int, expenses: int, emi: int): (r: real)
    ensures income <= 0 ==> r == 0.0
    ensures 0.0 <= r
    ensures income > 0 ==> r * income as real == Max(0, income - expenses - emi) as real
    ensures income > 0 && expenses >= 0 && emi >= 0 ==> r <= 1.0
  {
    var savings := income - expenses - emi;
    if income <= 0 then 0.0
    else
      var q := savings as real / income as real;
      QuotientFacts(savings as real, income as real);
      MaxReal(0.0, q)
  }

  /** What a quotient by a positive number keeps of its numerator. */
  lemma QuotientFacts(a: real, b: real)
    requires 0.0 < b
    ensures (a / b) * b == a
    ensures 0.0 <= a <==> 0.0 <= a / b
    ensures a <= b ==> a / b <= 1.0
  {
  }

  /** `calculateSavings`: what is left of income, floored at zero. */
  function SavingsAmount(income: int, expenses: int, emi: int): (r: int)
    ensures 0 <= r && income - expenses - emi <= r
    ensures r == 0 || r == income - expenses - emi
  {
    Max(0, income - expenses - emi)
  }

  // ---------------------------------------------------------------------------
  // Overdraft
  // ---------------------------------------------------------------------------

  /** `calculateODInterest`: one month's interest, the balance times the monthly
      rate rounded to the nearest rupee. */
  function ODInterest(balance: int): (r: int)
    ensures r as real - 0.5 <= balance as real * C.OdInterestRateMonthly < r as real + 0.5
    ensures 0 <= balance ==> 0 <= r <= balance
  {
    Round(balance as real * C.OdInterestRateMonthly)
  }

  /** A larger balance never accrues less interest. */
  lemma ODInterestMonotone(a: int, b: int)
    requires a <= b
    ensures ODInterest(a) <= ODInterest(b)
  {
    RoundMonotone(a as real * C.OdInterestRateMonthly, b as real * C.OdInterestRateMonthly);
  }

  /** `calculateODEndBalance`: start plus interest (the given one, or the computed
      one when omitted) less the payment, floored at zero. */
  function ODEndBalance(startBalance: int, payment: int, interest: Option<int>): (r: int)
    ensures 0 <= r
    ensures startBalance + interest.GetOr(ODInterest(startBalance)) - payment <= r
    ensures r == 0 || r == startBalance + interest.GetOr(ODInterest(startBalance)) - payment
  {
    var actualInterest := interest.GetOr(ODInterest(startBalance));
    Max(0, startBalance + actualInterest - payment)
  }

  /** The iteration cap of the payoff loops (ten years). */
  const MaxPayoffMonths: nat := 120

  /** One month of the payoff loops: interest accrues, then the payment is
      applied; unlike `ODEndBalance` the result is not floored at zero. */
  function PayoffStep(remaining: int, payment: int): int {
    remaining + ODInterest(remaining) - payment
  }

  /** The unfloored balance after `k` payoff months. */
  function Remaining(balance: int, payment: int, k: nat): int {
    if k == 0 then balance else PayoffStep(Remaining(balance, payment, k - 1), payment)
  }

  /** The month, counting on from `k`, at which the payoff loop stops: the first
      whose balance is no longer positive, or the cap. */
  function StopMonthFrom(balance: int, payment: int, k: nat): (n: nat)
    requires k <= MaxPayoffMonths
    ensures k <= n <= MaxPayoffMonths
    ensures n == MaxPayoffMonths || Remaining(balance, payment, n) <= 0
    ensures forall j :: k <= j < n ==> Remaining(balance, payment, j) > 0
    decreases MaxPayoffMonths - k
  {
    if k == MaxPayoffMonths || Remaining(balance, payment, k) <= 0 then k
    else StopMonthFrom(balance, payment, k + 1)
  }

  /** How many times the payoff loops run their body. */
  function PayoffSteps(balance: int, payment: int): (n: nat)
    ensures n <= MaxPayoffMonths
    ensures n == MaxPayoffMonths || Remaining(balance, payment, n) <= 0
    ensures forall j :: 0 <= j < n ==> Remaining(balance, payment, j) > 0
  {
    StopMonthFrom(balance, payment, 0)
  }

  /** `calculateMonthsToPayoff`. Unbounded when the payment or the balance is
      not positive (the balance check does not give 0); otherwise the first
      month whose unfloored balance is no longer positive, or unbounded when
      that takes 120 months or more. */
  method MonthsToPayoff(balance: int, monthlyPayment: int) returns (months: Months)
    ensures monthlyPayment <= 0 || balance <= 0 ==> months == Unbounded
    ensures months.Finite? ==>
              && 1 <= months.n < MaxPayoffMonths
              && Remaining(balance, monthlyPayment, months.n) <= 0
              && (forall k :: 0 <= k < months.n ==> Remaining(balance, monthlyPayment, k) > 0)
              && months.n == PayoffSteps(balance, monthlyPayment)
    ensures monthlyPayment > 0 && balance > 0 && months == Unbounded ==>
              forall k :: 0 <= k < MaxPayoffMonths ==> Remaining(balance, monthlyPayment, k) > 0
  {
    if monthlyPayment <= 0 || balance <= 0 {
      return Unbounded;
    }
    var remaining := balance;
    var count := 0;
    while remaining > 0 && count < MaxPayoffMonths
      invariant 0 <= count <= MaxPayoffMonths
      invariant remaining == Remaining(balance, monthlyPayment, count)
      invariant forall k :: 0 <= k < count ==> Remaining(balance, monthlyPayment, k) > 0
      decreases MaxPayoffMonths - count
    {
      var interest := ODInterest(remaining);
      remaining := remaining + interest - monthlyPayment;
      count := count + 1;
    }
    months := if count >= MaxPayoffMonths then Unbounded else Finite(count);
  }

  /** The interest accrued over the first `n` payoff months. */
  function InterestPaid(balance: int, payment: int, n: nat): int {
    if n == 0 then 0
    else InterestPaid(balance, payment, n - 1) + ODInterest(Remaining(balance, payment, n - 1))
  }

  /** `calculateTotalInterest`: the interest of every month the payoff loop runs,
      so never negative and 0 for a balance that is not positive. */
  method TotalInterest(startBalance: int, monthlyPayment: int) returns (total: int)
    ensures total == InterestPaid(startBalance, monthlyPayment, PayoffSteps(startBalance, monthlyPayment))
    ensures 0 <= total
    ensures startBalance <= 0 ==> total == 0
  {
    var remaining := startBalance;
    total := 0;
    var count := 0;
    while remaining > 0 && count < MaxPayoffMonths
      invariant 0 <= count <= MaxPayoffMonths
      invariant remaining == Remaining(startBalance, monthlyPayment, count)
      invariant total == InterestPaid(startBalance, monthlyPayment, count)
      invariant 0 <= total
      invariant forall k :: 0 <= k < count ==> Remaining(startBalance, monthlyPayment, k) > 0
      decreases MaxPayoffMonths - count
    {
      var interest := ODInterest(remaining);
      total := total + interest;
      remaining := remaining + interest - monthlyPayment;
      count := count + 1;
    }
    PayoffStepsUnique(startBalance, monthlyPayment, count);
  }

  /** The loop's stopping month is the only month with its two properties. */
  lemma PayoffStepsUnique(balance: int, payment: int, m: nat)
    requires m <= MaxPayoffMonths
    requires m == MaxPayoffMonths || Remaining(balance, payment, m) <= 0
    requires forall j :: 0 <= j < m ==> Remaining(balance, payment, j) > 0
    ensures PayoffSteps(balance, payment) == m
  {
  }

  /** While the balance stays positive and below the start, each month takes at
      least the margin of the payment over the starting month's interest off it. */
  lemma {:induction false} PayoffProgress(balance: int, payment: int, k: nat)
    requires 0 < balance && ODInterest(balance) < payment
    requires forall j :: 0 <= j < k ==> Remaining(balance, payment, j) > 0
    ensures Remaining(balance, payment, k) <= balance - k * (payment - ODInterest(balance))
  {
    if k > 0 {
      var margin := payment - ODInterest(balance);
      PayoffProgress(balance, payment, k - 1);
      var r := Remaining(balance, payment, k - 1);
      IntMulNonnegative(k - 1, margin);
      assert 0 < r <= balance;
      ODInterestMonotone(r, balance);
      assert Remaining(balance, payment, k) == r + ODInterest(r) - payment;
      assert k * margin == (k - 1) * margin + margin;
    }
  }

  /** A payment above the first month's interest clears a balance of at most
      119 such margins within the cap, so the payoff is finite. */
  lemma PayoffWithinCap(balance: int, payment: int)
    requires 0 < balance && ODInterest(balance) < payment
    requires balance <= (MaxPayoffMonths - 1) * (payment - ODInterest(balance))
    ensures PayoffSteps(balance, payment) < MaxPayoffMonths
  {
    if PayoffSteps(balance, payment) == MaxPayoffMonths {
      PayoffProgress(balance, payment, MaxPayoffMonths - 1);
    }
  }

  /** A payment no larger than the first month's interest never brings the
      balance below where it started. */
  lemma {:induction false} PayoffNeverShrinks(balance: int, payment: int, k: nat)
    requires 0 < balance && payment <= ODInterest(balance)
    ensures Remaining(balance, payment, k) >= balance
  {
    if k > 0 {
      PayoffNeverShrinks(balance, payment, k - 1);
      ODInterestMonotone(balance, Remaining(balance, payment, k - 1));
    }
  }

  /** Hence such a payment makes the payoff loop run to the cap: unbounded. */
  lemma PayoffUnboundedWhenInterestCoversPayment(balance: int, payment: int)
    requires 0 < balance && payment <= ODInterest(balance)
    ensures PayoffSteps(balance, payment) == MaxPayoffMonths
  {
    var n := PayoffSteps(balance, payment);
    if n < MaxPayoffMonths {
      PayoffNeverShrinks(balance, payment, n);
    }
  }

  /** The plan's numbers: the initial OD balance at the planned payment is
      cleared in the sixth month, with 10409 rupees of interest on the way. */
  lemma PlanClearsOdInSixMonths()
    ensures PayoffSteps(C.InitialOdBalance, C.TargetOdPayment) == 6
    ensures InterestPaid(C.InitialOdBalance, C.TargetOdPayment, 6) == 10409
  {
    var b, p := C.InitialOdBalance, C.TargetOdPayment;
    assert ODInterest(248989) == 3087;
    assert Remaining(b, p, 1) == 206076;
    assert ODInterest(206076) == 2555;
    assert Remaining(b, p, 2) == 162631;
    assert ODInterest(162631) == 2017;
    assert Remaining(b, p, 3) == 118648;
    assert ODInterest(118648) == 1471;
    assert Remaining(b, p, 4) == 74119;
    assert ODInterest(74119) == 919;
    assert Remaining(b, p, 5) == 29038;
    assert ODInterest(29038) == 360;
    assert Remaining(b, p, 6) == -16602;
    assert forall j :: 0 <= j < 6 ==> Remaining(b, p, j) > 0 by {
      assert Remaining(b, p, 0) == b;
    }
    PayoffStepsUnique(b, p, 6);
  }

  // ---------------------------------------------------------------------------
  // Freedom score
  // ---------------------------------------------------------------------------

  /** `calculateFreedomScore`: 40% for OD payoff progress, 20% for the emergency
      fund and 40% for the mean of land and wedding fund progress, each progress
      capped at 1 but not floored, rounded to a whole percentage. */
  function FreedomScore(odBalance: int, emergencyFund: int, landFund: int, weddingFund: int): (score: int)
    ensures score <= 100
    ensures odBalance <= C.InitialOdBalance && 0 <= emergencyFund && 0 <= landFund && 0 <= weddingFund ==> 0 <= score
  {
    var initial := C.InitialOdBalance as real;
    var odProgress := MinReal(1.0, (initial - odBalance as real) / initial);
    var odScore := odProgress * 40.0;
    var efProgress := MinReal(1.0, emergencyFund as real / C.EmergencyFundTarget as real);
    var efScore := efProgress * 20.0;
    var landProgress := MinReal(1.0, landFund as real / 2500000.0);
    var weddingProgress := MinReal(1.0, weddingFund as real / 1500000.0);
    var goalsScore := (landProgress + weddingProgress) / 2.0 * 40.0;
    Round(odScore + efScore + goalsScore)
  }

  /** At the plan's start (full OD, empty funds) the score is exactly 0. */
  lemma FreedomScoreAtStart()
    ensures FreedomScore(C.InitialOdBalance, 0, 0, 0) == 0
  {
  }

  /** With the OD cleared and every fund at its target the score is exactly 100. */
  lemma FreedomScoreWhenComplete(odBalance: int, emergencyFund: int, landFund: int, weddingFund: int)
    requires odBalance <= 0
    requires emergencyFund >= C.EmergencyFundTarget && landFund >= C.LandFundTarget && weddingFund >= C.WeddingFundTarget
    ensures FreedomScore(odBalance, emergencyFund, landFund, weddingFund) == 100
  {
  }

  /** Paying down the OD or growing any fund never lowers the score. */
  lemma FreedomScoreMonotone(od: int, ef: int, land: int, wedding: int, od': int, ef': int, land': int, wedding': int)
    requires od' <= od && ef <= ef' && land <= land' && wedding <= wedding'
    ensures FreedomScore(od, ef, land, wedding) <= FreedomScore(od', ef', land', wedding')
  {
    var initial := C.InitialOdBalance as real;
    var x := MinReal(1.0, (initial - od as real) / initial) * 40.0
             + MinReal(1.0, ef as real / C.EmergencyFundTarget as real) * 20.0
             + (MinReal(1.0, land as real / 2500000.0) + MinReal(1.0, wedding as real / 1500000.0)) / 2.0 * 40.0;
    var y := MinReal(1.0, (initial - od' as real) / initial) * 40.0
             + MinReal(1.0, ef' as real / C.EmergencyFundTarget as real) * 20.0
             + (MinReal(1.0, land' as real / 2500000.0) + MinReal(1.0, wedding' as real / 1500000.0)) / 2.0 * 40.0;
    RoundMonotone(x, y);
  }

  // ---------------------------------------------------------------------------
  // Net worth and monthly budget
  // ---------------------------------------------------------------------------

  datatype NetWorthAssets = NetWorthAssets(bankBalance: int, emergencyFund: int, investments: int, landFund: int, weddingFund: int)

  datatype NetWorthLiabilities = NetWorthLiabilities(odBalance: int, emiOutstanding: int)

  /** `calculateNetWorth`: every asset less every liability. */
  function NetWorth(assets: NetWorthAssets, liabilities: NetWorthLiabilities): int {
    (assets.bankBalance + assets.emergencyFund + assets.investments + assets.landFund + assets.weddingFund)
    - (liabilities.odBalance + liabilities.emiOutstanding)
  }

  /** Paying OD from the bank balance moves money between an asset and a
      liability, so net worth does not change; each fund adds to net worth
      one for one. */
  lemma NetWorthKeptByPayingOd(assets: NetWorthAssets, liabilities: NetWorthLiabilities, x: int)
    ensures NetWorth(assets.(bankBalance := assets.bankBalance - x), liabilities.(odBalance := liabilities.odBalance - x))
            == NetWorth(assets, liabilities)
    ensures NetWorth(assets.(emergencyFund := assets.emergencyFund + x), liabilities) == NetWorth(assets, liabilities) + x
    ensures NetWorth(assets, liabilities.(emiOutstanding := liabilities.emiOutstanding + x)) == NetWorth(assets, liabilities) - x
  {
  }

  /** `calculateMonthlySurplus`: income less the EMI and the lifestyle cap. */
  function MonthlySurplus(income: int, emi: int, lifestyleCap: int): int {
    income - emi - lifestyleCap
  }

  /** With the plan's defaults the surplus is the planned OD payment. */
  lemma DefaultSurplusIsTargetOdPayment()
    ensures MonthlySurplus(C.MonthlyNetIncome, C.EmiAmount, C.LifestyleCap) == C.TargetOdPayment
  {
  }

  /** `calculateRemainingBudget`: what is left of the cap, floored at zero. */
  function RemainingBudget(spent: int, cap: int): (r: int)
    ensures 0 <= r && cap - spent <= r
    ensures r == 0 || r == cap - spent
  {
    Max(0, cap - spent)
  }

  /** Spending the whole lifestyle cap leaves exactly the surplus as
      savings, floored at zero. */
  lemma SurplusIsSavingsAtCap(income: int, emi: int, lifestyleCap: int)
    ensures SavingsAmount(income, lifestyleCap, emi) == Max(0, MonthlySurplus(income, emi, lifestyleCap))
  {
  }

  /** Spending within the cap saves the surplus plus what is left of the
      budget, when the surplus is not negative. */
  lemma SavingsAreSurplusPlusUnspent(income: int, emi: int, lifestyleCap: int, spent: int)
    requires spent <= lifestyleCap && 0 <= MonthlySurplus(income, emi, lifestyleCap)
    ensures SavingsAmount(income, spent, emi) == MonthlySurplus(income, emi, lifestyleCap) + RemainingBudget(spent, lifestyleCap)
  {
  }

  /** `calculateDailyLimit`: the remaining budget spread evenly over the days
      left, rounded to the rupee; 0 when no day is left. */
  function DailyLimit(remainingBudget: int, daysRemaining: int): (r: int)
    ensures daysRemaining <= 0 ==> r == 0
    ensures daysRemaining > 0 ==>
              (r as real - 0.5) * daysRemaining as real <= remainingBudget as real < (r as real + 0.5) * daysRemaining as real
    ensures daysRemaining > 0 && remainingBudget >= 0 ==> r >= 0
  {
    if daysRemaining <= 0 then 0
    else
      var perDay := remainingBudget as real / daysRemaining as real;
      var r := Round(perDay);
      ScaleBounds(r as real - 0.5, perDay, r as real + 0.5, daysRemaining as real);
      assert perDay * daysRemaining as real == remainingBudget as real;
      assert remainingBudget as real < (r as real + 0.5) * daysRemaining as real;
      r
  }

  /** Bounds on a quotient scale to bounds on the dividend. */
  lemma ScaleBounds(low: real, q: real, high: real, d: real)
    requires 0.0 < d && low <= q < high
    ensures low * d <= q * d < high * d
  {
    MulNonnegative(q - low, d);
    assert (high - q) * d > 0.0;
  }

  // ---------------------------------------------------------------------------
  // Projections
  // ---------------------------------------------------------------------------

  /** `projectFutureValue`: `months` monthly growth-and-contribution steps,
      rounded. */
  method ProjectFutureValue(principal: real, monthlyContribution: real, annualRate: real, months: int)
    returns (value: int)
    ensures value == Round(Grow(principal, monthlyContribution, annualRate, if months > 0 then months else 0))
    ensures annualRate == 0.0 && months >= 0 ==> value == Round(principal + months as real * monthlyContribution)
    ensures 0.0 <= principal && 0.0 <= monthlyContribution && 0.0 <= annualRate && months >= 0 ==>
              Round(principal + months as real * monthlyContribution) <= value
  {
    var monthlyRate := annualRate / 12.0;
    var balance := principal;
    for i := 0 to if months > 0 then months else 0
      invariant balance == Grow(principal, monthlyContribution, annualRate, i)
    {
      balance := balance * (1.0 + monthlyRate) + monthlyContribution;
    }
    value := Round(balance);
    if months >= 0 {
      GrowWithoutInterest(principal, monthlyContribution, months);
      if 0.0 <= principal && 0.0 <= monthlyContribution && 0.0 <= annualRate {
        GrowAtLeastContributions(principal, monthlyContribution, annualRate, months);
        RoundMonotone(principal + months as real * monthlyContribution, balance);
      }
    }
  }

  /** The iteration cap of `calculateTimeToGoal` (fifty years). */
  const MaxGoalMonths: nat := 600

  /** `calculateTimeToGoal`. Unbounded when the contribution is not positive,
      even for a goal already met; otherwise the first month count whose grown
      balance meets the target (0 when it is already met), or unbounded when
      that takes 600 months or more. */
  method TimeToGoal(currentAmount: real, targetAmount: real, monthlyContribution: real, annualGrowthRate: real)
    returns (months: Months)
    ensures monthlyContribution <= 0.0 ==> months == Unbounded
    ensures monthlyContribution > 0.0 && currentAmount >= targetAmount ==> months == Finite(0)
    ensures months.Finite? ==>
              && months.n < MaxGoalMonths
              && Grow(currentAmount, monthlyContribution, annualGrowthRate, months.n) >= targetAmount
              && forall k :: 0 <= k < months.n ==> Grow(currentAmount, monthlyContribution, annualGrowthRate, k) < targetAmount
    ensures monthlyContribution > 0.0 && months == Unbounded ==>
              forall k :: 0 <= k < MaxGoalMonths ==> Grow(currentAmount, monthlyContribution, annualGrowthRate, k) < targetAmount
  {
    if monthlyContribution <= 0.0 {
      return Unbounded;
    }
    if currentAmount >= targetAmount {
      return Finite(0);
    }
    var monthlyRate := annualGrowthRate / 12.0;
    var balance := currentAmount;
    var count := 0;
    while balance < targetAmount && count < MaxGoalMonths
      invariant 0 <= count <= MaxGoalMonths
      invariant balance == Grow(currentAmount, monthlyContribution, annualGrowthRate, count)
      invariant forall k :: 0 <= k < count ==> Grow(currentAmount, monthlyContribution, annualGrowthRate, k) < targetAmount
      decreases MaxGoalMonths - count
    {
      balance := balance * (1.0 + monthlyRate) + monthlyContribution;
      count := count + 1;
    }
    months := if count >= MaxGoalMonths then Unbounded else Finite(count);
  }

  /** From a non-negative balance, with a non-negative rate, a goal within 599
      contributions of the balance is reached before the cap. */
  lemma GoalWithinReach(currentAmount: real, targetAmount: real, monthlyContribution: real, annualGrowthRate: real)
    requires 0.0 <= currentAmount && 0.0 < monthlyContribution && 0.0 <= annualGrowthRate
    requires targetAmount <= currentAmount + (MaxGoalMonths - 1) as real * monthlyContribution
    ensures Grow(currentAmount, monthlyContribution, annualGrowthRate, MaxGoalMonths - 1) >= targetAmount
  {
    GrowAtLeastContributions(currentAmount, monthlyContribution, annualGrowthRate, MaxGoalMonths - 1);
  }

  // ---------------------------------------------------------------------------
  // Ledger aggregation
  // ---------------------------------------------------------------------------

  /** `sumTransactionsByType`: the amounts of the month's transactions of one type. */
  function SumTransactionsByType(transactions: seq<Transaction>, kind: TransactionType, month: string): int {
    if transactions == [] then 0
    else
      var t := transactions[|transactions| - 1];
      SumTransactionsByType(transactions[..|transactions| - 1], kind, month)
      + (if t.kind == kind && t.month == month then t.amount else 0)
  }

  /** `sumExpensesByCategory`: the amounts of the month's expenses in one category. */
  function SumExpensesByCategory(transactions: seq<Transaction>, category: string, month: string): int {
    if transactions == [] then 0
    else
      var t := transactions[|transactions| - 1];
      SumExpensesByCategory(transactions[..|transactions| - 1], category, month)
      + (if t.kind == Expense && t.category == category && t.month == month then t.amount else 0)
  }

  /** The amounts of every transaction of the month, whatever its type. */
  function SumInMonth(transactions: seq<Transaction>, month: string): int {
    if transactions == [] then 0
    else
      var t := transactions[|transactions| - 1];
      SumInMonth(transactions[..|transactions| - 1], month) + (if t.month == month then t.amount else 0)
  }

  /** The per-type sum is additive over concatenated ledgers. */
  lemma {:induction false} SumByTypeAppend(a: seq<Transaction>, b: seq<Transaction>, kind: TransactionType, month: string)
    ensures SumTransactionsByType(a + b, kind, month)
            == SumTransactionsByType(a, kind, month) + SumTransactionsByType(b, kind, month)
  {
    if b == [] {
      assert a + b == a;
    } else {
      SumByTypeAppend(a, b[..|b| - 1], kind, month);
      assert (a + b)[..|a + b| - 1] == a + b[..|b| - 1];
    }
  }

  /** A ledger with no transaction of that type in that month sums to 0. */
  lemma {:induction false} SumByTypeNoMatch(transactions: seq<Transaction>, kind: TransactionType, month: string)
    requires forall i :: 0 <= i < |transactions| ==> transactions[i].kind != kind || transactions[i].month != month
    ensures SumTransactionsByType(transactions, kind, month) == 0
  {
    if transactions != [] {
      SumByTypeNoMatch(transactions[..|transactions| - 1], kind, month);
    }
  }

  /** A category's expenses never exceed the month's expenses when no amount is negative. */
  lemma {:induction false} CategoryWithinExpenses(transactions: seq<Transaction>, category: string, month: string)
    requires forall i :: 0 <= i < |transactions| ==> transactions[i].amount >= 0
    ensures 0 <= SumExpensesByCategory(transactions, category, month)
              <= SumTransactionsByType(transactions, Expense, month)
  {
    if transactions != [] {
      CategoryWithinExpenses(transactions[..|transactions| - 1], category, month);
    }
  }

  datatype MonthlyTotals = MonthlyTotals(income: int, expenses: int, emiPaid: int, odPayment: int, savings: int)

  /** `calculateMonthlyTotals`: the month's per-type sums. */
  function CalculateMonthlyTotals(transactions: seq<Transaction>, month: string): MonthlyTotals {
    MonthlyTotals(
      SumTransactionsByType(transactions, Income, month),
      SumTransactionsByType(transactions, Expense, month),
      SumTransactionsByType(transactions, EmiPayment, month),
      SumTransactionsByType(transactions, OdPayment, month),
      SumTransactionsByType(transactions, Savings, month))
  }

  /** The five totals split the month's ledger: together they are every
      transaction of the month, each counted once. */
  lemma {:induction false} MonthlyTotalsCoverMonth(transactions: seq<Transaction>, month: string)
    ensures var m := CalculateMonthlyTotals(transactions, month);
            m.income + m.expenses + m.emiPaid + m.odPayment + m.savings == SumInMonth(transactions, month)
  {
    if transactions != [] {
      MonthlyTotalsCoverMonth(transactions[..|transactions| - 1], month);
    }
  }

  datatype BudgetLine = BudgetLine(category: string, budgeted: int, spent: int, remaining: int, percentage: real)

  function AnalyzeLine(transactions: seq<Transaction>, month: string, entry: (string, int)): BudgetLine {
    var spent := SumExpensesByCategory(transactions, entry.0, month);
    BudgetLine(entry.0, entry.1, spent, entry.1 - spent,
               if entry.1 > 0 then spent as real / entry.1 as real * 100.0 else 0.0)
  }

  /** `analyzeBudget`: one line per budget entry, in order, comparing the
      month's expenses in that category with its budget. */
  function AnalyzeBudget(transactions: seq<Transaction>, month: string, budget: seq<(string, int)>): (lines: seq<BudgetLine>)
    ensures |lines| == |budget|
    ensures forall i :: 0 <= i < |lines| ==>
              && lines[i].category == budget[i].0
              && lines[i].budgeted == budget[i].1
              && lines[i].spent == SumExpensesByCategory(transactions, budget[i].0, month)
              && lines[i].remaining + lines[i].spent == lines[i].budgeted
              && (lines[i].budgeted <= 0 ==> lines[i].percentage == 0.0)
              && (lines[i].budgeted > 0 ==> lines[i].percentage * lines[i].budgeted as real == lines[i].spent as real * 100.0)
  {
    seq(|budget|, i requires 0 <= i < |budget| => AnalyzeLine(transactions, month, budget[i]))
  }
}
