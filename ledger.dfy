/** The bookkeeping the two FinFree stores (`src/lib/store.ts`,
    `finfree/src/lib/store.ts`) share: how a transaction moves the overdraft
    (OD) balance and the three fund balances, how `deleteTransaction` in
    `src/lib/store.ts` reverses that, the goal updates that follow the funds,
    the monthly-record upsert, and the selectors over the balances. */
module Ledger {
  import opened Common
  import opened Types
  import F = Finances
  import C = Constants

  datatype Fund = EmergencyFund | LandFund | WeddingFund

  /** The savings category that feeds each fund. */
  function FundFor(category: string): Option<Fund> {
    if category == "emergency_fund" then Some(EmergencyFund)
    else if category == "land_fund" then Some(LandFund)
    else if category == "wedding_fund" then Some(WeddingFund)
    else None
  }

  /** The id of the default goal that tracks each fund. */
  function FundGoalId(f: Fund): string {
    match f
    case EmergencyFund => "emergency-fund"
    case LandFund => "land-fund"
    case WeddingFund => "wedding-fund"
  }

  const OdGoalId: string := "od-payoff"

  /** The balances a transaction can move. */
  datatype Balances = Balances(od: int, emergency: int, land: int, wedding: int)

  function FundBalance(b: Balances, f: Fund): int {
    match f
    case EmergencyFund => b.emergency
    case LandFund => b.land
    case WeddingFund => b.wedding
  }

  function WithFund(b: Balances, f: Fund, v: int): (r: Balances)
    ensures r.od == b.od && FundBalance(r, f) == v
    ensures forall g: Fund :: g != f ==> FundBalance(r, g) == FundBalance(b, g)
  {
    match f
    case EmergencyFund => b.(emergency := v)
    case LandFund => b.(land := v)
    case WeddingFund => b.(wedding := v)
  }

  /** The fund a transaction feeds: only a savings transaction in a fund's category. */
  function CreditedFund(kind: TransactionType, category: string): Option<Fund> {
    if kind == Savings then FundFor(category) else None
  }

  /** The balance effect of `addTransaction`: an OD payment accrues a month's
      interest on the balance and then pays, floored at zero; a savings
      transaction in a fund's category adds its amount to that fund alone;
      nothing else moves. */
  function Credit(b: Balances, kind: TransactionType, category: string, amount: int): (r: Balances)
    ensures kind == OdPayment ==> r.od == Max(0, b.od + F.ODInterest(b.od) - amount)
    ensures kind != OdPayment ==> r.od == b.od
    ensures forall f: Fund :: FundBalance(r, f)
              == FundBalance(b, f) + (if CreditedFund(kind, category) == Some(f) then amount else 0)
  {
    var od := if kind == OdPayment then F.ODEndBalance(b.od, amount, Some(F.ODInterest(b.od))) else b.od;
    match CreditedFund(kind, category)
    case None => b.(od := od)
    case Some(f) => WithFund(b.(od := od), f, FundBalance(b, f) + amount)
  }

  /** The balance effect of deleting a transaction in `src/lib/store.ts`: an
      OD payment's amount goes back onto the OD balance (the interest it
      accrued stays), a fund savings is taken off its fund, floored at zero. */
  function Reverse(b: Balances, kind: TransactionType, category: string, amount: int): (r: Balances)
    ensures r.od == b.od + (if kind == OdPayment then amount else 0)
    ensures forall f: Fund :: FundBalance(r, f)
              == if CreditedFund(kind, category) == Some(f) then Max(0, FundBalance(b, f) - amount) else FundBalance(b, f)
  {
    var od := if kind == OdPayment then b.od + amount else b.od;
    match CreditedFund(kind, category)
    case None => b.(od := od)
    case Some(f) => WithFund(b.(od := od), f, Max(0, FundBalance(b, f) - amount))
  }

  /** Deleting a fund savings right after adding it restores every balance,
      provided the fund was not negative. */
  lemma ReverseUndoesFundSavings(b: Balances, category: string, amount: int)
    requires CreditedFund(Savings, category).Some?
    requires 0 <= FundBalance(b, CreditedFund(Savings, category).value)
    ensures Reverse(Credit(b, Savings, category, amount), Savings, category, amount) == b
  {
    var r := Reverse(Credit(b, Savings, category, amount), Savings, category, amount);
    assert FundBalance(r, EmergencyFund) == FundBalance(b, EmergencyFund);
    assert FundBalance(r, LandFund) == FundBalance(b, LandFund);
    assert FundBalance(r, WeddingFund) == FundBalance(b, WeddingFund);
  }

  /** Deleting an OD payment right after adding it does not restore the OD
      balance: the month's interest stays on it, and a payment that
      overshot the balance comes back whole. */
  lemma ReverseOfOdPayment(b: Balances, category: string, amount: int)
    ensures Reverse(Credit(b, OdPayment, category, amount), OdPayment, category, amount)
            == b.(od := Max(b.od + F.ODInterest(b.od), amount))
  {
  }

  /** So for a payment within balance plus interest, the balance ends exactly
      one month's interest above where it started. */
  lemma ReverseOfOdPaymentKeepsInterest(b: Balances, category: string, amount: int)
    requires amount <= b.od + F.ODInterest(b.od)
    ensures Reverse(Credit(b, OdPayment, category, amount), OdPayment, category, amount).od
            == b.od + F.ODInterest(b.od)
  {
    ReverseOfOdPayment(b, category, amount);
  }

  /** Every other transaction moves no balance, so deleting it after adding it
      leaves every balance as it was. */
  lemma ReverseUndoesOther(b: Balances, kind: TransactionType, category: string, amount: int)
    requires kind != OdPayment && CreditedFund(kind, category).None?
    ensures Credit(b, kind, category, amount) == b
    ensures Reverse(b, kind, category, amount) == b
  {
  }

  // ---------------------------------------------------------------------------
  // Goals
  // ---------------------------------------------------------------------------

  function GoalId(g: Goal): string { g.id }

  /** A goal's progress set to `amount`, completed once it reaches the target. */
  function WithProgress(g: Goal, amount: int): Goal {
    g.(currentAmount := amount, isCompleted := amount >= g.targetAmount)
  }

  /** The goal update of the fund setters: the goals with that id show
      `amount` as their progress and are completed exactly when it reaches
      their target; every other goal is unchanged. */
  function SetGoalProgress(goals: seq<Goal>, id: string, amount: int): (r: seq<Goal>)
    ensures |r| == |goals|
    ensures forall i :: 0 <= i < |goals| ==>
              r[i] == if goals[i].id == id
                      then goals[i].(currentAmount := amount, isCompleted := amount >= goals[i].targetAmount)
                      else goals[i]
  {
    MapWhere(goals, GoalId, id, g => WithProgress(g, amount))
  }

  /** A goal credited with a payment and marked completed or not. */
  function WithPayment(g: Goal, amount: int, completed: bool): Goal {
    g.(currentAmount := g.currentAmount + amount, isCompleted := completed)
  }

  /** The goal update of `recordODPayment`: the `od-payoff` goals gain the
      payment and are completed exactly when the OD is cleared. */
  function CreditOdGoal(goals: seq<Goal>, amount: int, odCleared: bool): (r: seq<Goal>)
    ensures |r| == |goals|
    ensures forall i :: 0 <= i < |goals| ==>
              r[i] == if goals[i].id == OdGoalId
                      then goals[i].(currentAmount := goals[i].currentAmount + amount, isCompleted := odCleared)
                      else goals[i]
  {
    MapWhere(goals, GoalId, OdGoalId, g => WithPayment(g, amount, odCleared))
  }

  /** `updateGoal`: the goals with that id take the supplied fields. */
  function PatchGoals(goals: seq<Goal>, id: string, updates: GoalPatch): (r: seq<Goal>)
    ensures |r| == |goals|
    ensures forall i :: 0 <= i < |goals| ==> r[i] == if goals[i].id == id then PatchGoal(goals[i], updates) else goals[i]
  {
    MapWhere(goals, GoalId, id, g => PatchGoal(g, updates))
  }

  /** `updateTransaction`: the transactions with that id take the supplied fields. */
  function PatchTransactions(transactions: seq<Transaction>, id: string, updates: TransactionPatch): (r: seq<Transaction>)
    ensures |r| == |transactions|
    ensures forall i :: 0 <= i < |transactions| ==>
              r[i] == if transactions[i].id == id then PatchTransaction(transactions[i], updates) else transactions[i]
  {
    MapWhere(transactions, TransactionId, id, t => PatchTransaction(t, updates))
  }

  // ---------------------------------------------------------------------------
  // Monthly records
  // ---------------------------------------------------------------------------

  /** `transactions.filter(t => t.month === month)`: the month's
      transactions, all of them and nothing else (their order is kept, as
      `InMonthAppend` states). */
  function InMonth(transactions: seq<Transaction>, month: string): (r: seq<Transaction>)
    ensures |r| <= |transactions|
    ensures forall i :: 0 <= i < |r| ==> r[i].month == month && r[i] in transactions
    ensures forall t :: t in transactions && t.month == month ==> t in r
  {
    if transactions == [] then []
    else
      var t := transactions[|transactions| - 1];
      InMonth(transactions[..|transactions| - 1], month) + (if t.month == month then [t] else [])
  }

  /** Filtering by month commutes with concatenation, so the filter keeps
      the transactions in their order. */
  lemma {:induction false} InMonthAppend(a: seq<Transaction>, b: seq<Transaction>, month: string)
    ensures InMonth(a + b, month) == InMonth(a, month) + InMonth(b, month)
    decreases |b|
  {
    if b == [] {
      assert a + b == a;
    } else {
      var init, t := b[..|b| - 1], b[|b| - 1];
      assert (a + b)[..|a + b| - 1] == a + init;
      assert (a + b)[|a + b| - 1] == t;
      InMonthAppend(a, init, month);
    }
  }

  /** `transactions.filter(t => t.type === kind).reduce((sum, t) => sum + t.amount, 0)` */
  function TotalOfType(transactions: seq<Transaction>, kind: TransactionType): int {
    if transactions == [] then 0
    else
      var t := transactions[|transactions| - 1];
      TotalOfType(transactions[..|transactions| - 1], kind) + (if t.kind == kind then t.amount else 0)
  }

  /** Selecting the month and then summing a type is the month's per-type sum. */
  lemma {:induction false} MonthThenTypeIsSumByType(transactions: seq<Transaction>, kind: TransactionType, month: string)
    ensures TotalOfType(InMonth(transactions, month), kind) == F.SumTransactionsByType(transactions, kind, month)
  {
    if transactions != [] {
      var init, t := transactions[..|transactions| - 1], transactions[|transactions| - 1];
      MonthThenTypeIsSumByType(init, kind, month);
      var m := InMonth(init, month);
      assert F.SumTransactionsByType(transactions, kind, month)
             == F.SumTransactionsByType(init, kind, month) + (if t.kind == kind && t.month == month then t.amount else 0);
      if t.month == month {
        assert InMonth(transactions, month) == m + [t];
        TotalOfTypeSnoc(m, t, kind);
      } else {
        assert InMonth(transactions, month) == m;
      }
    }
  }

  lemma TotalOfTypeSnoc(transactions: seq<Transaction>, t: Transaction, kind: TransactionType)
    ensures TotalOfType(transactions + [t], kind) == TotalOfType(transactions, kind) + (if t.kind == kind then t.amount else 0)
  {
    assert (transactions + [t])[..|transactions|] == transactions;
  }

  /** The record `updateMonthlyRecord` creates for a month that has none:
      the month's per-type sums, the savings left after expenses and EMIs,
      their savings rate, the month's transactions and empty notes. */
  function NewMonthlyRecord(transactions: seq<Transaction>, month: string): (r: MonthlyRecord)
    ensures r.month == month && r.notes == ""
    ensures r.transactions == InMonth(transactions, month)
    ensures r.income == F.SumTransactionsByType(transactions, Income, month)
    ensures r.expenses == F.SumTransactionsByType(transactions, Expense, month)
    ensures r.emiPaid == F.SumTransactionsByType(transactions, EmiPayment, month)
    ensures r.odPayment == F.SumTransactionsByType(transactions, OdPayment, month)
    ensures r.savings == r.income - r.expenses - r.emiPaid
    ensures r.lifestyleSpent == r.expenses
    ensures r.savingsRate == F.SavingsRate(r.income, r.expenses, r.emiPaid)
  {
    var monthTransactions := InMonth(transactions, month);
    var income := TotalOfType(monthTransactions, Income);
    var expenses := TotalOfType(monthTransactions, Expense);
    var emiPaid := TotalOfType(monthTransactions, EmiPayment);
    var odPayment := TotalOfType(monthTransactions, OdPayment);
    MonthThenTypeIsSumByType(transactions, Income, month);
    MonthThenTypeIsSumByType(transactions, Expense, month);
    MonthThenTypeIsSumByType(transactions, EmiPayment, month);
    MonthThenTypeIsSumByType(transactions, OdPayment, month);
    MonthlyRecord(month, income, expenses, emiPaid, odPayment, income - expenses - emiPaid,
                  F.SavingsRate(income, expenses, emiPaid), expenses, monthTransactions, "")
  }

  /** `updateMonthlyRecord`'s new record list: the first record of the month
      takes the supplied fields, or, when the month has none, a new record
      with the supplied fields applied is appended. */
  function UpsertMonthlyRecord(records: seq<MonthlyRecord>, transactions: seq<Transaction>, month: string,
                               updates: MonthlyRecordPatch): (r: seq<MonthlyRecord>)
    ensures var i := FirstIndex(records, RecordMonth, month);
            0 <= i ==> |r| == |records| && r[i] == PatchMonthlyRecord(records[i], updates)
                       && forall j :: 0 <= j < |records| && j != i ==> r[j] == records[j]
    ensures FirstIndex(records, RecordMonth, month) < 0 ==>
              r == records + [PatchMonthlyRecord(NewMonthlyRecord(transactions, month), updates)]
  {
    var existingIndex := FirstIndex(records, RecordMonth, month);
    if existingIndex >= 0 then records[existingIndex := PatchMonthlyRecord(records[existingIndex], updates)]
    else records + [PatchMonthlyRecord(NewMonthlyRecord(transactions, month), updates)]
  }

  /** Months stay unique across an upsert, as long as the update does not move
      the record to a different month. */
  lemma UpsertKeepsMonthsUnique(records: seq<MonthlyRecord>, transactions: seq<Transaction>, month: string,
                                updates: MonthlyRecordPatch)
    requires UniqueKeys(records, RecordMonth)
    requires updates.month.None? || updates.month == Some(month)
    ensures UniqueKeys(UpsertMonthlyRecord(records, transactions, month, updates), RecordMonth)
  {
    var r := UpsertMonthlyRecord(records, transactions, month, updates);
    var i := FirstIndex(records, RecordMonth, month);
    forall a, b | 0 <= a < b < |r|
      ensures RecordMonth(r[a]) != RecordMonth(r[b])
    {
      if i >= 0 {
        assert RecordMonth(r[i]) == month;
        if a != i && b != i {
          assert RecordMonth(records[a]) != RecordMonth(records[b]);
        } else if a == i {
          assert RecordMonth(records[a]) != RecordMonth(records[b]);
        } else {
          assert RecordMonth(records[a]) != RecordMonth(records[b]);
        }
      } else if b == |records| {
        assert RecordMonth(r[b]) == month;
      } else {
        assert RecordMonth(records[a]) != RecordMonth(records[b]);
      }
    }
  }

  /** Without that condition months can repeat: moving the only record of
      one month to another month that already has one. */
  lemma UpsertCanRepeatMonth()
    ensures var records := [MonthlyRecord("2026-01", 0, 0, 0, 0, 0, 0.0, 0, [], ""),
                            MonthlyRecord("2026-02", 0, 0, 0, 0, 0, 0.0, 0, [], "")];
            var moveToFebruary := MonthlyRecordPatch(Some("2026-02"), None, None, None, None, None, None, None, None, None);
            UniqueKeys(records, RecordMonth)
            && !UniqueKeys(UpsertMonthlyRecord(records, [], "2026-01", moveToFebruary), RecordMonth)
  {
    var records := [MonthlyRecord("2026-01", 0, 0, 0, 0, 0, 0.0, 0, [], ""),
                    MonthlyRecord("2026-02", 0, 0, 0, 0, 0, 0.0, 0, [], "")];
    var moveToFebruary := MonthlyRecordPatch(Some("2026-02"), None, None, None, None, None, None, None, None, None);
    assert RecordMonth(records[0]) == "2026-01";
    var r := UpsertMonthlyRecord(records, [], "2026-01", moveToFebruary);
    assert RecordMonth(r[0]) == RecordMonth(r[1]);
  }

  // ---------------------------------------------------------------------------
  // Selectors over the balances
  // ---------------------------------------------------------------------------

  /** `useCurrentPhase`: the OD first, then the emergency fund, then the goals. */
  function CurrentPhase(odBalance: int, emergencyFund: int): (phase: int)
    ensures 1 <= phase <= 3
    ensures phase == 1 <==> odBalance > 0
    ensures phase == 3 <==> odBalance <= 0 && emergencyFund >= C.EmergencyFundTarget
    ensures C.FinancialPhases[phase - 1].id == phase
  {
    if odBalance > 0 then 1
    else if emergencyFund < 135000 then 2
    else 3
  }

  /** `useFreedomScore`: the weighted score as the selector writes it out. */
  function StoreFreedomScore(odBalance: int, emergencyFund: int, landFund: int, weddingFund: int): int {
    var initial := C.InitialOdBalance as real;
    var odProgress := MinReal(1.0, (initial - odBalance as real) / initial);
    var odScore := odProgress * 40.0;
    var efProgress := MinReal(1.0, emergencyFund as real / 135000.0);
    var efScore := efProgress * 20.0;
    var landProgress := MinReal(1.0, landFund as real / 2500000.0);
    var weddingProgress := MinReal(1.0, weddingFund as real / 1500000.0);
    var goalsScore := (landProgress + weddingProgress) / 2.0 * 40.0;
    Round(odScore + efScore + goalsScore)
  }

  /** The selector and the library compute the same score. */
  lemma StoreFreedomScoreIsLibraryScore(odBalance: int, emergencyFund: int, landFund: int, weddingFund: int)
    ensures StoreFreedomScore(odBalance, emergencyFund, landFund, weddingFund)
            == F.FreedomScore(odBalance, emergencyFund, landFund, weddingFund)
  {
  }
}
