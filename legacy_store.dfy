/** The earlier FinFree store of `finfree/src/lib/store.ts`. It has no EMI
    list and no hydration flag, and its `deleteTransaction` only filters the
    transaction out: it does not reverse the transaction's effect on the
    balances. Every other action is the one of `src/lib/store.ts`, so its
    methods are specified by the same transitions, on a state whose EMI list
    stays empty. */
module LegacyStore {
  import opened Common
  import opened Types
  import opened Ledger
  import F = Finances
  import C = Constants
  import S = Store

  /** `getInitialState`: the plan's initial state without EMIs. */
  function InitialState(): FinancialState {
    S.InitialState().(emis := [])
  }

  /** `deleteTransaction`: the transactions with that id go; nothing else changes. */
  function AfterDeleteTransaction(s: FinancialState, id: string): FinancialState {
    s.(transactions := Remove(s.transactions, TransactionId, id))
  }

  /** `useNetWorth`: the funds less the OD balance and the remaining
      installments of the single EMI. */
  function NetWorthOf(s: FinancialState): int {
    (s.emergencyFund + s.landFund + s.weddingFund) - (s.currentODBalance + s.emiRemaining * s.emiAmount)
  }

  /** The selector agrees with `calculateNetWorth` on the store's assets and liabilities. */
  lemma NetWorthIsCalculatedNetWorth(s: FinancialState)
    ensures NetWorthOf(s) == F.NetWorth(F.NetWorthAssets(0, s.emergencyFund, 0, s.landFund, s.weddingFund),
                                        F.NetWorthLiabilities(s.currentODBalance, s.emiRemaining * s.emiAmount))
  {
  }

  /** Both stores start from the same net worth: the single EMI's remaining
      installments are exactly the outstanding part of the default EMI. */
  lemma InitialNetWorthsAgree()
    ensures NetWorthOf(InitialState()) == S.NetWorthOf(S.InitialState()) == -(C.InitialOdBalance + 8 * C.EmiAmount)
  {
    S.InitialStateFacts();
  }

  /** Deleting a transaction just added under a fresh id restores the
      transaction list but keeps its effect on the balances: a deleted
      savings stays in its fund and a deleted OD payment stays paid. */
  lemma DeleteAfterAddKeepsEffect(s: FinancialState, input: TransactionInput, id: string, month: string)
    requires forall i :: 0 <= i < |s.transactions| ==> s.transactions[i].id != id
    ensures AfterDeleteTransaction(S.AfterAddTransaction(s, input, id, month), id)
            == S.WithBalances(s, Credit(S.BalancesOf(s), input.kind, input.category, input.amount))
  {
    RemoveAppended(s.transactions, Stamp(input, id, month), TransactionId);
  }

  /** So, unlike the later store, adding then deleting a fund savings of a
      non-zero amount does not return to the starting state. */
  lemma DeletedSavingsStayInFund(s: FinancialState, amount: int, date: string, id: string, month: string)
    requires forall i :: 0 <= i < |s.transactions| ==> s.transactions[i].id != id
    requires amount != 0
    ensures var input := TransactionInput(date, amount, Savings, "emergency_fund", "");
            var r := AfterDeleteTransaction(S.AfterAddTransaction(s, input, id, month), id);
            && r.emergencyFund == s.emergencyFund + amount
            && r != s
  {
    var input := TransactionInput(date, amount, Savings, "emergency_fund", "");
    DeleteAfterAddKeepsEffect(s, input, id, month);
    var c := Credit(S.BalancesOf(s), Savings, "emergency_fund", amount);
    assert FundBalance(c, EmergencyFund) == s.emergencyFund + amount;
  }

  class FinFreeStore {
    var monthlyNetIncome: int
    var currentODBalance: int
    var emiRemaining: int
    var emiAmount: int
    var emiEndDate: string
    var emergencyFund: int
    var landFund: int
    var weddingFund: int
    var monthlyRecords: seq<MonthlyRecord>
    var goals: seq<Goal>
    var transactions: seq<Transaction>
    var lifestyleCap: int
    var targetODPayment: int

    /** The store's fields as a state with no EMIs. */
    function State(): FinancialState
      reads this
    {
      FinancialState(monthlyNetIncome, currentODBalance, emiRemaining, emiAmount, emiEndDate,
                     emergencyFund, landFund, weddingFund, monthlyRecords, goals, transactions, [],
                     lifestyleCap, targetODPayment)
    }

    constructor()
      ensures State() == InitialState()
    {
      var s := InitialState();
      monthlyNetIncome, currentODBalance, emiRemaining, emiAmount, emiEndDate := s.monthlyNetIncome,
        s.currentODBalance, s.emiRemaining, s.emiAmount, s.emiEndDate;
      emergencyFund, landFund, weddingFund := s.emergencyFund, s.landFund, s.weddingFund;
      monthlyRecords, goals, transactions := s.monthlyRecords, s.goals, s.transactions;
      lifestyleCap, targetODPayment := s.lifestyleCap, s.targetODPayment;
    }

    /** Replaces every field by the state's. */
    method Load(s: FinancialState)
      requires s.emis == []
      modifies this
      ensures State() == s
    {
      monthlyNetIncome := s.monthlyNetIncome;
      currentODBalance := s.currentODBalance;
      emiRemaining := s.emiRemaining;
      emiAmount := s.emiAmount;
      emiEndDate := s.emiEndDate;
      emergencyFund := s.emergencyFund;
      landFund := s.landFund;
      weddingFund := s.weddingFund;
      monthlyRecords := s.monthlyRecords;
      goals := s.goals;
      transactions := s.transactions;
      lifestyleCap := s.lifestyleCap;
      targetODPayment := s.targetODPayment;
    }

    method AddTransaction(input: TransactionInput, id: string, month: string)
      modifies this
      ensures State() == S.AfterAddTransaction(old(State()), input, id, month)
    {
      var newTransactions := transactions + [Stamp(input, id, month)];
      var newODBalance := currentODBalance;
      if input.kind == OdPayment {
        var interest := F.ODInterest(currentODBalance);
        newODBalance := F.ODEndBalance(currentODBalance, input.amount, Some(interest));
      }
      var newEmergencyFund, newLandFund, newWeddingFund := emergencyFund, landFund, weddingFund;
      if input.kind == Savings {
        if input.category == "emergency_fund" {
          newEmergencyFund := newEmergencyFund + input.amount;
        } else if input.category == "land_fund" {
          newLandFund := newLandFund + input.amount;
        } else if input.category == "wedding_fund" {
          newWeddingFund := newWeddingFund + input.amount;
        }
      }
      transactions, currentODBalance := newTransactions, newODBalance;
      emergencyFund, landFund, weddingFund := newEmergencyFund, newLandFund, newWeddingFund;
    }

    method UpdateTransaction(id: string, updates: TransactionPatch)
      modifies this
      ensures State() == S.AfterUpdateTransaction(old(State()), id, updates)
    {
      transactions := PatchTransactions(transactions, id, updates);
    }

    method DeleteTransaction(id: string)
      modifies this
      ensures State() == AfterDeleteTransaction(old(State()), id)
    {
      transactions := Remove(transactions, TransactionId, id);
    }

    method UpdateODBalance(amount: int)
      modifies this
      ensures State() == S.AfterUpdateODBalance(old(State()), amount)
    {
      currentODBalance := Max(0, amount);
    }

    method RecordODPayment(amount: int, description: string, date: string, id: string, month: string)
      modifies this
      ensures State() == S.AfterRecordODPayment(old(State()), amount, description, date, id, month)
    {
      AddTransaction(TransactionInput(date, amount, OdPayment, "od_payment", description), id, month);
      goals := CreditOdGoal(goals, amount, currentODBalance <= 0);
    }

    method UpdateEmergencyFund(amount: int)
      modifies this
      ensures State() == S.AfterSetFund(old(State()), EmergencyFund, amount)
    {
      var newAmount := Max(0, amount);
      emergencyFund := newAmount;
      goals := SetGoalProgress(goals, "emergency-fund", newAmount);
    }

    method UpdateLandFund(amount: int)
      modifies this
      ensures State() == S.AfterSetFund(old(State()), LandFund, amount)
    {
      var newAmount := Max(0, amount);
      landFund := newAmount;
      goals := SetGoalProgress(goals, "land-fund", newAmount);
    }

    method UpdateWeddingFund(amount: int)
      modifies this
      ensures State() == S.AfterSetFund(old(State()), WeddingFund, amount)
    {
      var newAmount := Max(0, amount);
      weddingFund := newAmount;
      goals := SetGoalProgress(goals, "wedding-fund", newAmount);
    }

    method UpdateGoal(id: string, updates: GoalPatch)
      modifies this
      ensures State() == S.AfterUpdateGoal(old(State()), id, updates)
    {
      goals := PatchGoals(goals, id, updates);
    }

    /** `getMonthlyRecord`: the first record of the month, if any. */
    function GetMonthlyRecord(month: string): (r: Option<MonthlyRecord>)
      reads this
      ensures r.None? <==> forall i :: 0 <= i < |monthlyRecords| ==> monthlyRecords[i].month != month
      ensures r.Some? ==> r.value in monthlyRecords && r.value.month == month
    {
      Find(monthlyRecords, RecordMonth, month)
    }

    method UpdateMonthlyRecord(month: string, updates: MonthlyRecordPatch)
      modifies this
      ensures State() == S.AfterUpdateMonthlyRecord(old(State()), month, updates)
    {
      monthlyRecords := UpsertMonthlyRecord(monthlyRecords, transactions, month, updates);
    }

    method UpdateLifestyleCap(amount: int)
      modifies this
      ensures State() == S.AfterUpdateLifestyleCap(old(State()), amount)
    {
      lifestyleCap := amount;
    }

    method ResetToDefaults()
      modifies this
      ensures State() == InitialState()
    {
      Load(InitialState());
    }
  }
}
