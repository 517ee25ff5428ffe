/** The FinFree plan's numbers (`finfree/src/lib/constants.ts`): income and
    budget constants, the overdraft (OD) figures, the lifestyle budget table,
    the goal targets, the three plan phases, the six-month OD payoff schedule,
    the post-OD allocation and the default goals; with the consistency facts
    that hold between them. */
module Constants {
  import opened Types

  const MonthlyNetIncome: int := 109000
  const EmiAmount: int := 18000
  const EmiMonthsRemaining: int := 8
  const EmiEndDate: string := "2026-08-31"
  const LifestyleCap: int := 45000
  const TargetOdPayment: int := 46000

  const InitialOdBalance: int := 248989
  const OverdueLiability: int := 3484
  const OdInterestRateAnnual: real := 0.155
  const OdInterestRateMonthly: real := 0.0124

  /** `LIFESTYLE_BUDGET`, as its entries in declaration order. */
  const LifestyleBudget: seq<(string, int)> := [
    ("food_groceries", 15000),
    ("rent", 15000),
    ("transport", 5000),
    ("utilities", 3000),
    ("phone_internet", 1500),
    ("miscellaneous", 5500)
  ]

  const EmergencyFundTarget: int := 135000
  const LandFundTarget: int := 2500000
  const WeddingFundTarget: int := 1500000
  const SiteDevelopmentTarget: int := 500000

  const FinancialPhases: seq<FinancialPhase> := [
    FinancialPhase(1, "Phase 1: Debt Elimination", "2026-02", "2026-07",
                   "Close ₹2.48L Axis Ready Credit OD", InitialOdBalance, true, false),
    FinancialPhase(2, "Phase 2: Emergency Fund", "2026-08", "2026-10",
                   "Build 3-month emergency reserve", EmergencyFundTarget, false, false),
    FinancialPhase(3, "Phase 3: Goal Saving", "2026-11", "2027-12",
                   "Save for Bangalore land & wedding", LandFundTarget + WeddingFundTarget, false, false)
  ]

  const OdPayoffSchedule: seq<ODPayoffRow> := [
    ODPayoffRow("2026-02", 248989, 3083, 46000, 206072, 3083),
    ODPayoffRow("2026-03", 206072, 2552, 46000, 162624, 5635),
    ODPayoffRow("2026-04", 162624, 2014, 46000, 118638, 7649),
    ODPayoffRow("2026-05", 118638, 1469, 46000, 74108, 9118),
    ODPayoffRow("2026-06", 74108, 918, 46000, 29025, 10036),
    ODPayoffRow("2026-07", 29025, 359, 46000, 0, 10395)
  ]

  datatype Allocation = Allocation(emergencyFundTopUp: int, landFund: int, weddingFund: int, lifestyleBuffer: int)

  const PostOdAllocation: Allocation := Allocation(5000, 25000, 10000, 6000)

  const DefaultGoals: seq<Goal> := [
    Goal("od-payoff", "Clear Axis OD", InitialOdBalance, 0, "2026-07-31", "2026-02-01",
         DebtPayoff, TargetOdPayment, false),
    Goal("emergency-fund", "Emergency Fund", EmergencyFundTarget, 0, "2026-10-31", "2026-08-01",
         EmergencyFundGoal, 46000, false),
    Goal("land-fund", "Bangalore Land", LandFundTarget, 0, "2027-06-30", "2026-11-01",
         SavingsGoal, 25000, false),
    Goal("wedding-fund", "Wedding Fund", WeddingFundTarget, 0, "2027-12-31", "2026-11-01",
         SavingsGoal, 10000, false)
  ]

  /** The sum of a budget table's amounts. */
  function BudgetTotal(entries: seq<(string, int)>): int {
    if entries == [] then 0 else BudgetTotal(entries[..|entries| - 1]) + entries[|entries| - 1].1
  }

  /** The position of a `YYYY-MM` month on a month-by-month time line. */
  function MonthIndex(m: string): int
    requires |m| == 7
  {
    var year := 1000 * Digit(m[0]) + 100 * Digit(m[1]) + 10 * Digit(m[2]) + Digit(m[3]);
    year * 12 + 10 * Digit(m[5]) + Digit(m[6]) - 1
  }

  function Digit(c: char): int {
    c as int - '0' as int
  }

  /** The six lifestyle categories exhaust the lifestyle cap exactly. */
  lemma LifestyleBudgetMatchesCap()
    ensures BudgetTotal(LifestyleBudget) == LifestyleCap
  {
    var b := LifestyleBudget;
    assert b[..6] == b;
    assert forall k :: 1 <= k <= 6 ==> b[..k][..k - 1] == b[..k - 1];
    assert BudgetTotal(b[..1]) == 15000;
    assert BudgetTotal(b[..2]) == 30000;
    assert BudgetTotal(b[..3]) == 35000;
    assert BudgetTotal(b[..4]) == 38000;
    assert BudgetTotal(b[..5]) == 39500;
  }

  /** Income less the EMI and the lifestyle cap is exactly the planned OD payment. */
  lemma SurplusIsTargetOdPayment()
    ensures MonthlyNetIncome - EmiAmount - LifestyleCap == TargetOdPayment
  {
  }

  /** After the OD is cleared the same monthly amount is split four ways. */
  lemma PostOdAllocationSpendsTargetPayment()
    ensures PostOdAllocation.emergencyFundTopUp + PostOdAllocation.landFund
            + PostOdAllocation.weddingFund + PostOdAllocation.lifestyleBuffer == TargetOdPayment
  {
  }

  /** The schedule starts at the initial OD balance, each month starts where the
      previous one ended, it ends at zero, and every payment is the planned one. */
  lemma PayoffScheduleChains()
    ensures |OdPayoffSchedule| == 6
    ensures OdPayoffSchedule[0].startBalance == InitialOdBalance
    ensures forall i :: 1 <= i < |OdPayoffSchedule| ==>
              OdPayoffSchedule[i].startBalance == OdPayoffSchedule[i - 1].endBalance
    ensures OdPayoffSchedule[|OdPayoffSchedule| - 1].endBalance == 0
    ensures forall i :: 0 <= i < |OdPayoffSchedule| ==> OdPayoffSchedule[i].payment == TargetOdPayment
  {
  }

  /** `interestPaidYTD` is the running sum of `estimatedInterest`. */
  lemma PayoffScheduleRunningInterest()
    ensures OdPayoffSchedule[0].interestPaidYTD == OdPayoffSchedule[0].estimatedInterest
    ensures forall i :: 1 <= i < |OdPayoffSchedule| ==>
              OdPayoffSchedule[i].interestPaidYTD
                == OdPayoffSchedule[i - 1].interestPaidYTD + OdPayoffSchedule[i].estimatedInterest
  {
  }

  /** The schedule's months run consecutively from 2026-02 to 2026-07. */
  lemma PayoffScheduleMonthsConsecutive()
    ensures OdPayoffSchedule[0].month == "2026-02"
    ensures OdPayoffSchedule[|OdPayoffSchedule| - 1].month == "2026-07"
    ensures forall i :: 0 <= i < |OdPayoffSchedule| ==> |OdPayoffSchedule[i].month| == 7
    ensures forall i :: 1 <= i < |OdPayoffSchedule| ==>
              MonthIndex(OdPayoffSchedule[i].month) == MonthIndex(OdPayoffSchedule[i - 1].month) + 1
  {
  }

  /** Phases 1, 2, 3 in order, aimed at the OD, the emergency fund, and the land
      and wedding funds together. */
  lemma PhasesInOrder()
    ensures |FinancialPhases| == 3
    ensures forall i :: 0 <= i < 3 ==> FinancialPhases[i].id == i + 1
    ensures FinancialPhases[0].targetAmount == InitialOdBalance
    ensures FinancialPhases[1].targetAmount == EmergencyFundTarget
    ensures FinancialPhases[2].targetAmount == LandFundTarget + WeddingFundTarget
  {
  }

  /** Every default goal starts empty and not completed. */
  lemma DefaultGoalsStartEmpty()
    ensures |DefaultGoals| == 4
    ensures forall i :: 0 <= i < |DefaultGoals| ==> DefaultGoals[i].currentAmount == 0 && !DefaultGoals[i].isCompleted
    ensures DefaultGoals[0].id == "od-payoff" && DefaultGoals[0].targetAmount == InitialOdBalance
    ensures DefaultGoals[1].id == "emergency-fund" && DefaultGoals[1].targetAmount == EmergencyFundTarget
    ensures DefaultGoals[2].id == "land-fund" && DefaultGoals[2].targetAmount == LandFundTarget
    ensures DefaultGoals[3].id == "wedding-fund" && DefaultGoals[3].targetAmount == WeddingFundTarget
  {
  }
}
