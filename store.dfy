/** The FinFree store of `src/lib/store.ts`: the financial state with its
    transactions, overdraft (OD) and fund balances, goals, monthly records
    and installment obligations (EMIs); the actions that change it; the
    merge applied when a persisted state is rehydrated; and the selector
    hooks. Each action is a method of `FinFreeStore` whose new state is a
    pure transition of the old one; the lemmas are about the transitions.
    The fresh id (`uuidv4`), the current month and the current date are
    parameters. */
module Store {
  import opened Common
  import opened Types
  import opened Ledger
  import opened Installments
  import F = Finances
  import C = Constants

  /** The EMI the plan starts with. */
  const DefaultEMI: EMI :=
    EMI("debit-card-emi", "Debit Card EMI", C.EmiAmount, 12, 4, "2025-09-01", C.EmiEndDate, Some("Initial Debit Card EMI"))

  /** `getInitialState` */
  function InitialState(): FinancialState {
    FinancialState(C.MonthlyNetIncome, C.InitialOdBalance, 8, C.EmiAmount, C.EmiEndDate, 0, 0, 0,
                   [], C.DefaultGoals, [], [DefaultEMI], C.LifestyleCap, C.TargetOdPayment)
  }

  function BalancesOf(s: FinancialState): Balances {
    Balances(s.currentODBalance, s.emergencyFund, s.landFund, s.weddingFund)
  }

  function WithBalances(s: FinancialState, b: Balances): FinancialState {
    s.(currentODBalance := b.od, emergencyFund := b.emergency, landFund := b.land, weddingFund := b.wedding)
  }

  // ---------------------------------------------------------------------------
  // Transitions
  // ---------------------------------------------------------------------------

  /** `addTransaction`: the stamped transaction is appended and the balances
      take its effect. */
  function AfterAddTransaction(s: FinancialState, input: TransactionInput, id: string, month: string): FinancialState {
    WithBalances(s.(transactions := s.transactions + [Stamp(input, id, month)]),
                 Credit(BalancesOf(s), input.kind, input.category, input.amount))
  }

  function AfterUpdateTransaction(s: FinancialState, id: string, updates: TransactionPatch): FinancialState {
    s.(transactions := PatchTransactions(s.transactions, id, updates))
  }

  /** `deleteTransaction`: nothing for an unknown id; otherwise every
      transaction with that id goes, and the first one's effect is reversed. */
  function AfterDeleteTransaction(s: FinancialState, id: string): FinancialState {
    match Find(s.transactions, TransactionId, id)
    case None => s
    case Some(t) =>
      WithBalances(s.(transactions := Remove(s.transactions, TransactionId, id)),
                   Reverse(BalancesOf(s), t.kind, t.category, t.amount))
  }

  function AfterUpdateODBalance(s: FinancialState, amount: int): FinancialState {
    s.(currentODBalance := Max(0, amount))
  }

  /** `recordODPayment`: an `od_payment` transaction, then the `od-payoff`
      goal credited and marked by the balance that results. */
  function AfterRecordODPayment(s: FinancialState, amount: int, description: string, date: string, id: string, month: string)
    : FinancialState
  {
    var paid := AfterAddTransaction(s, TransactionInput(date, amount, OdPayment, "od_payment", description), id, month);
    paid.(goals := CreditOdGoal(paid.goals, amount, paid.currentODBalance <= 0))
  }

  /** The fund setters: the fund takes the amount floored at zero, and its goal follows. */
  function AfterSetFund(s: FinancialState, f: Fund, amount: int): FinancialState {
    var newAmount := Max(0, amount);
    WithBalances(s, WithFund(BalancesOf(s), f, newAmount)).(goals := SetGoalProgress(s.goals, FundGoalId(f), newAmount))
  }

  function AfterUpdateGoal(s: FinancialState, id: string, updates: GoalPatch): FinancialState {
    s.(goals := PatchGoals(s.goals, id, updates))
  }

  function AfterUpdateMonthlyRecord(s: FinancialState, month: string, updates: MonthlyRecordPatch): FinancialState {
    s.(monthlyRecords := UpsertMonthlyRecord(s.monthlyRecords, s.transactions, month, updates))
  }

  function AfterUpdateLifestyleCap(s: FinancialState, amount: int): FinancialState {
    s.(lifestyleCap := amount)
  }

  function AfterAddEMI(s: FinancialState, input: EMIInput, id: string): FinancialState {
    s.(emis := s.emis + [StampEMI(input, id)])
  }

  function AfterUpdateEMI(s: FinancialState, id: string, updates: EMIPatch): FinancialState {
    s.(emis := PatchEMIs(s.emis, id, updates))
  }

  function AfterDeleteEMI(s: FinancialState, id: string): FinancialState {
    s.(emis := Remove(s.emis, EmiId, id))
  }

  /** `recordEMIPayment`: nothing when the EMI is missing or fully paid;
      otherwise an `emi` transaction of its amount, then one more paid
      installment on the EMIs with that id. */
  function AfterRecordEMIPayment(s: FinancialState, emiId: string, description: string, date: string, id: string, month: string)
    : FinancialState
  {
    match Find(s.emis, EmiId, emiId)
    case None => s
    case Some(e) =>
      if e.paidInstallments >= e.totalInstallments then s
      else
        var paid := AfterAddTransaction(s, TransactionInput(date, e.amount, EmiPayment, "emi", description), id, month);
        AfterUpdateEMI(paid, emiId, PaidInstallmentsPatch(e.paidInstallments + 1))
  }

  // ---------------------------------------------------------------------------
  // Persistence merge
  // ---------------------------------------------------------------------------

  /** A persisted field that may be missing, explicitly null, or present. */
  datatype Stored<T> = Missing | Null | Present(value: T)

  /** What rehydration reads back: every field optional, `emis` possibly null
      (a state saved before EMIs existed has none). */
  datatype PersistedState = PersistedState(
    monthlyNetIncome: Option<int>,
    currentODBalance: Option<int>,
    emiRemaining: Option<int>,
    emiAmount: Option<int>,
    emiEndDate: Option<string>,
    emergencyFund: Option<int>,
    landFund: Option<int>,
    weddingFund: Option<int>,
    monthlyRecords: Option<seq<MonthlyRecord>>,
    goals: Option<seq<Goal>>,
    transactions: Option<seq<Transaction>>,
    emis: Stored<seq<EMI>>,
    lifestyleCap: Option<int>,
    targetODPayment: Option<int>)

  /** The persisted form of a whole state. */
  function Snapshot(s: FinancialState): PersistedState {
    PersistedState(Some(s.monthlyNetIncome), Some(s.currentODBalance), Some(s.emiRemaining), Some(s.emiAmount),
                   Some(s.emiEndDate), Some(s.emergencyFund), Some(s.landFund), Some(s.weddingFund),
                   Some(s.monthlyRecords), Some(s.goals), Some(s.transactions), Present(s.emis),
                   Some(s.lifestyleCap), Some(s.targetODPayment))
  }

  /** `merge`: every persisted field overrides the current one; `emis` falls
      back to the current list when missing and to the default list when null. */
  function Merge(persisted: PersistedState, current: FinancialState): (merged: FinancialState)
    ensures persisted.emis.Missing? ==> merged.emis == current.emis
    ensures persisted.emis.Null? ==> merged.emis == [DefaultEMI]
    ensures persisted.emis.Present? ==> merged.emis == persisted.emis.value
  {
    var p := persisted;
    FinancialState(
      p.monthlyNetIncome.GetOr(current.monthlyNetIncome),
      p.currentODBalance.GetOr(current.currentODBalance),
      p.emiRemaining.GetOr(current.emiRemaining),
      p.emiAmount.GetOr(current.emiAmount),
      p.emiEndDate.GetOr(current.emiEndDate),
      p.emergencyFund.GetOr(current.emergencyFund),
      p.landFund.GetOr(current.landFund),
      p.weddingFund.GetOr(current.weddingFund),
      p.monthlyRecords.GetOr(current.monthlyRecords),
      p.goals.GetOr(current.goals),
      p.transactions.GetOr(current.transactions),
      match p.emis
      case Missing => current.emis
      case Null => InitialState().emis
      case Present(v) => v,
      p.lifestyleCap.GetOr(current.lifestyleCap),
      p.targetODPayment.GetOr(current.targetODPayment))
  }

  /** Rehydrating a saved state restores it, whatever the current state. */
  lemma MergeRestoresSnapshot(saved: FinancialState, current: FinancialState)
    ensures Merge(Snapshot(saved), current) == saved
  {
  }

  /** An empty persisted state keeps the current state. */
  lemma MergeOfNothing(current: FinancialState)
    ensures Merge(PersistedState(None, None, None, None, None, None, None, None, None, None, None, Missing, None, None), current)
            == current
  {
  }

  // ---------------------------------------------------------------------------
  // Selectors
  // ---------------------------------------------------------------------------

  /** `useCurrentPhase` */
  function CurrentPhaseOf(s: FinancialState): int {
    CurrentPhase(s.currentODBalance, s.emergencyFund)
  }

  /** `useFreedomScore` */
  function FreedomScoreOf(s: FinancialState): int {
    StoreFreedomScore(s.currentODBalance, s.emergencyFund, s.landFund, s.weddingFund)
  }

  /** `useNetWorth`: the funds less the OD balance and the outstanding EMIs. */
  function NetWorthOf(s: FinancialState): int {
    (s.emergencyFund + s.landFund + s.weddingFund) - (s.currentODBalance + TotalLiability(s.emis))
  }

  /** `useTotalMonthlyEMI` */
  function TotalMonthlyEMIOf(s: FinancialState): int {
    TotalMonthlyEMI(s.emis)
  }

  // ---------------------------------------------------------------------------
  // Properties
  // ---------------------------------------------------------------------------

  /** The initial state: one EMI, 4 of 12 paid; score 0; phase 1; net worth
      minus the OD and the eight outstanding installments. */
  lemma InitialStateFacts()
    ensures var s := InitialState();
            && UniqueKeys(s.emis, EmiId)
            && (forall i :: 0 <= i < |s.emis| ==> 0 <= s.emis[i].paidInstallments <= s.emis[i].totalInstallments)
            && FreedomScoreOf(s) == 0
            && CurrentPhaseOf(s) == 1
            && NetWorthOf(s) == -(C.InitialOdBalance + 8 * C.EmiAmount)
            && TotalMonthlyEMIOf(s) == C.EmiAmount
  {
    var s := InitialState();
    assert s.emis == [DefaultEMI];
    assert ActiveEMIs(s.emis) == [DefaultEMI] by {
      assert s.emis[..0] == [];
    }
    assert [DefaultEMI][..0] == [];
    F.FreedomScoreAtStart();
    StoreFreedomScoreIsLibraryScore(C.InitialOdBalance, 0, 0, 0);
  }

  /** `addTransaction` appends exactly the stamped transaction; an OD
      payment moves the OD balance by a month's interest less the payment,
      floored at zero; a savings in a fund's category adds to that fund
      alone; nothing else changes. */
  lemma AddTransactionEffect(s: FinancialState, input: TransactionInput, id: string, month: string)
    ensures var r := AfterAddTransaction(s, input, id, month);
            && r.transactions == s.transactions
                                 + [Transaction(id, input.date, input.amount, input.kind, input.category, input.description, month)]
            && r.currentODBalance == (if input.kind == OdPayment
                                      then Max(0, s.currentODBalance + F.ODInterest(s.currentODBalance) - input.amount)
                                      else s.currentODBalance)
            && r.emergencyFund == s.emergencyFund + (if input.kind == Savings && input.category == "emergency_fund" then input.amount else 0)
            && r.landFund == s.landFund + (if input.kind == Savings && input.category == "land_fund" then input.amount else 0)
            && r.weddingFund == s.weddingFund + (if input.kind == Savings && input.category == "wedding_fund" then input.amount else 0)
            && r.goals == s.goals && r.emis == s.emis && r.monthlyRecords == s.monthlyRecords
  {
    var c := Credit(BalancesOf(s), input.kind, input.category, input.amount);
    assert c.emergency == FundBalance(c, EmergencyFund);
    assert c.land == FundBalance(c, LandFund);
    assert c.wedding == FundBalance(c, WeddingFund);
  }

  /** `Reverse` field by field, as `deleteTransaction` computes it. */
  lemma ReverseFields(b: Balances, kind: TransactionType, category: string, amount: int)
    ensures Reverse(b, kind, category, amount)
            == Balances(if kind == OdPayment then b.od + amount else b.od,
                        if kind == Savings && category == "emergency_fund" then Max(0, b.emergency - amount) else b.emergency,
                        if kind == Savings && category == "land_fund" then Max(0, b.land - amount) else b.land,
                        if kind == Savings && category == "wedding_fund" then Max(0, b.wedding - amount) else b.wedding)
  {
    var r := Reverse(b, kind, category, amount);
    assert FundBalance(r, EmergencyFund) == r.emergency;
    assert FundBalance(r, LandFund) == r.land;
    assert FundBalance(r, WeddingFund) == r.wedding;
  }

  /** Adding then deleting a transaction under a fresh id restores the
      transaction list and every field but the balances, which take the
      reversal of the transaction's effect. */
  lemma DeleteAfterAdd(s: FinancialState, input: TransactionInput, id: string, month: string)
    requires forall i :: 0 <= i < |s.transactions| ==> s.transactions[i].id != id
    ensures AfterDeleteTransaction(AfterAddTransaction(s, input, id, month), id)
            == WithBalances(s, Reverse(Credit(BalancesOf(s), input.kind, input.category, input.amount),
                                       input.kind, input.category, input.amount))
  {
    var t := Stamp(input, id, month);
    FindAppended(s.transactions, t, TransactionId);
    RemoveAppended(s.transactions, t, TransactionId);
  }

  /** So a transaction that moves no OD balance, and whose fund (if any) was
      not negative, is undone exactly by deleting it. */
  lemma DeleteUndoesAdd(s: FinancialState, input: TransactionInput, id: string, month: string)
    requires forall i :: 0 <= i < |s.transactions| ==> s.transactions[i].id != id
    requires input.kind != OdPayment
    requires CreditedFund(input.kind, input.category).Some? ==>
               0 <= FundBalance(BalancesOf(s), CreditedFund(input.kind, input.category).value)
    ensures AfterDeleteTransaction(AfterAddTransaction(s, input, id, month), id) == s
  {
    DeleteAfterAdd(s, input, id, month);
    if CreditedFund(input.kind, input.category).Some? {
      ReverseUndoesFundSavings(BalancesOf(s), input.category, input.amount);
    } else {
      ReverseUndoesOther(BalancesOf(s), input.kind, input.category, input.amount);
    }
  }

  /** An OD payment is not undone by deleting it: the OD balance ends one
      month's interest above where it was (or at the payment, when that
      overshot), everything else restored. */
  lemma DeleteAfterOdPayment(s: FinancialState, input: TransactionInput, id: string, month: string)
    requires forall i :: 0 <= i < |s.transactions| ==> s.transactions[i].id != id
    requires input.kind == OdPayment
    ensures AfterDeleteTransaction(AfterAddTransaction(s, input, id, month), id)
            == s.(currentODBalance := Max(s.currentODBalance + F.ODInterest(s.currentODBalance), input.amount))
  {
    DeleteAfterAdd(s, input, id, month);
    ReverseOfOdPayment(BalancesOf(s), input.category, input.amount);
  }

  /** Deleting an id no transaction carries changes nothing. */
  lemma DeleteUnknownIsNoOp(s: FinancialState, id: string)
    requires forall i :: 0 <= i < |s.transactions| ==> s.transactions[i].id != id
    ensures AfterDeleteTransaction(s, id) == s
  {
  }

  /** A recorded OD payment leaves the balance at start plus interest less
      the payment, floored at zero, credits the `od-payoff` goal and marks it
      completed exactly when that balance is zero; every other field of that
      goal, and every other goal, stays as it was. */
  lemma RecordODPaymentEffect(s: FinancialState, amount: int, description: string, date: string, id: string, month: string)
    ensures var r := AfterRecordODPayment(s, amount, description, date, id, month);
            && r.currentODBalance == Max(0, s.currentODBalance + F.ODInterest(s.currentODBalance) - amount)
            && r.transactions == s.transactions + [Transaction(id, date, amount, OdPayment, "od_payment", description, month)]
            && |r.goals| == |s.goals|
            && (forall i :: 0 <= i < |s.goals| ==>
                  r.goals[i] == if s.goals[i].id == OdGoalId
                                then s.goals[i].(currentAmount := s.goals[i].currentAmount + amount,
                                                 isCompleted := r.currentODBalance == 0)
                                else s.goals[i])
            && r.emergencyFund == s.emergencyFund && r.landFund == s.landFund && r.weddingFund == s.weddingFund
  {
  }

  /** A fund setter stores a non-negative amount in its fund alone and sets
      the fund's goal to that amount, completed exactly at its target. */
  lemma SetFundEffect(s: FinancialState, f: Fund, amount: int)
    ensures var r := AfterSetFund(s, f, amount);
            && FundBalance(BalancesOf(r), f) == Max(0, amount) >= 0
            && r.currentODBalance == s.currentODBalance
            && (forall g: Fund :: g != f ==> FundBalance(BalancesOf(r), g) == FundBalance(BalancesOf(s), g))
            && |r.goals| == |s.goals|
            && (forall i :: 0 <= i < |s.goals| ==>
                  r.goals[i] == if s.goals[i].id == FundGoalId(f)
                                then s.goals[i].(currentAmount := FundBalance(BalancesOf(r), f),
                                                 isCompleted := FundBalance(BalancesOf(r), f) >= s.goals[i].targetAmount)
                                else s.goals[i])
            && r.transactions == s.transactions && r.emis == s.emis && r.monthlyRecords == s.monthlyRecords
  {
  }

  /** Recording a payment for a missing or fully paid EMI changes nothing. */
  lemma EMIPaymentSkipped(s: FinancialState, emiId: string, description: string, date: string, id: string, month: string)
    requires (forall i :: 0 <= i < |s.emis| ==> s.emis[i].id != emiId)
             || Find(s.emis, EmiId, emiId).value.paidInstallments >= Find(s.emis, EmiId, emiId).value.totalInstallments
    ensures AfterRecordEMIPayment(s, emiId, description, date, id, month) == s
  {
  }

  /** Under unique ids, looking up an EMI's id finds that EMI. */
  lemma FindUniqueEMI(emis: seq<EMI>, k: nat)
    requires k < |emis| && UniqueKeys(emis, EmiId)
    ensures Find(emis, EmiId, emis[k].id) == Some(emis[k])
  {
    var i := FirstIndex(emis, EmiId, emis[k].id);
    assert 0 <= i by {
      assert EmiId(emis[k]) == emis[k].id;
    }
  }

  /** An `emi` transaction moves no balance. */
  lemma CreditOfEmiPayment(b: Balances, category: string, amount: int)
    ensures Credit(b, EmiPayment, category, amount) == b
  {
    var r := Credit(b, EmiPayment, category, amount);
    assert FundBalance(r, EmergencyFund) == FundBalance(b, EmergencyFund);
    assert FundBalance(r, LandFund) == FundBalance(b, LandFund);
    assert FundBalance(r, WeddingFund) == FundBalance(b, WeddingFund);
  }

  /** Paying an EMI with installments left, under unique ids, appends the
      transaction and patches the paid count, and changes nothing else. */
  lemma EMIPaymentUnfolds(s: FinancialState, k: nat, description: string, date: string, id: string, month: string)
    requires k < |s.emis| && UniqueKeys(s.emis, EmiId)
    requires s.emis[k].paidInstallments < s.emis[k].totalInstallments
    ensures var e := s.emis[k];
            AfterRecordEMIPayment(s, e.id, description, date, id, month)
            == s.(transactions := s.transactions + [Transaction(id, date, e.amount, EmiPayment, "emi", description, month)],
                  emis := PatchEMIs(s.emis, e.id, PaidInstallmentsPatch(e.paidInstallments + 1)))
  {
    FindUniqueEMI(s.emis, k);
    CreditOfEmiPayment(BalancesOf(s), "emi", s.emis[k].amount);
  }

  /** With unique EMI ids, paying an EMI with installments left appends one
      `emi` transaction of its amount, advances its paid count by one and
      leaves every other EMI and every balance as it was. */
  lemma EMIPaymentEffect(s: FinancialState, k: nat, description: string, date: string, id: string, month: string)
    requires k < |s.emis| && UniqueKeys(s.emis, EmiId)
    requires s.emis[k].paidInstallments < s.emis[k].totalInstallments
    ensures var e := s.emis[k];
            var r := AfterRecordEMIPayment(s, e.id, description, date, id, month);
            && r.transactions == s.transactions + [Transaction(id, date, e.amount, EmiPayment, "emi", description, month)]
            && |r.emis| == |s.emis|
            && r.emis[k] == e.(paidInstallments := e.paidInstallments + 1)
            && (forall j :: 0 <= j < |s.emis| && j != k ==> r.emis[j] == s.emis[j])
            && BalancesOf(r) == BalancesOf(s)
  {
    EMIPaymentUnfolds(s, k, description, date, id, month);
  }

  /** ... and raises net worth by exactly the EMI's amount. */
  lemma NetWorthAfterEMIPayment(s: FinancialState, k: nat, description: string, date: string, id: string, month: string)
    requires k < |s.emis| && UniqueKeys(s.emis, EmiId)
    requires s.emis[k].paidInstallments < s.emis[k].totalInstallments
    ensures NetWorthOf(AfterRecordEMIPayment(s, s.emis[k].id, description, date, id, month)) == NetWorthOf(s) + s.emis[k].amount
  {
    var e := s.emis[k];
    var r := AfterRecordEMIPayment(s, e.id, description, date, id, month);
    EMIPaymentUnfolds(s, k, description, date, id, month);
    assert r.emis == PatchEMIs(s.emis, e.id, PaidInstallmentsPatch(e.paidInstallments + 1));
    assert BalancesOf(r) == BalancesOf(s);
    PaymentLowersLiability(s.emis, k);
  }

  /** So, with unique ids, no EMI is ever paid beyond its total. */
  lemma EMIPaymentKeepsPaidWithinTotal(s: FinancialState, emiId: string, description: string, date: string, id: string, month: string)
    requires UniqueKeys(s.emis, EmiId)
    requires forall i :: 0 <= i < |s.emis| ==> s.emis[i].paidInstallments <= s.emis[i].totalInstallments
    ensures var r := AfterRecordEMIPayment(s, emiId, description, date, id, month);
            forall i :: 0 <= i < |r.emis| ==> r.emis[i].paidInstallments <= r.emis[i].totalInstallments
  {
    var found := Find(s.emis, EmiId, emiId);
    if found.Some? && found.value.paidInstallments < found.value.totalInstallments {
      var k := FirstIndex(s.emis, EmiId, emiId);
      EMIPaymentEffect(s, k, description, date, id, month);
    }
  }

  /** A fund savings raises net worth by its amount; an OD payment within
      balance plus interest raises it by the payment less the interest. */
  lemma NetWorthAfterTransaction(s: FinancialState, input: TransactionInput, id: string, month: string)
    ensures CreditedFund(input.kind, input.category).Some? ==>
              NetWorthOf(AfterAddTransaction(s, input, id, month)) == NetWorthOf(s) + input.amount
    ensures input.kind == OdPayment && input.amount <= s.currentODBalance + F.ODInterest(s.currentODBalance) ==>
              NetWorthOf(AfterAddTransaction(s, input, id, month))
                == NetWorthOf(s) + input.amount - F.ODInterest(s.currentODBalance)
  {
    var b := BalancesOf(s);
    var r := Credit(b, input.kind, input.category, input.amount);
    assert FundBalance(r, EmergencyFund) + FundBalance(r, LandFund) + FundBalance(r, WeddingFund)
           == FundBalance(b, EmergencyFund) + FundBalance(b, LandFund) + FundBalance(b, WeddingFund)
              + (if CreditedFund(input.kind, input.category).Some? then input.amount else 0);
  }

  /** The selectors agree with the library: net worth is `calculateNetWorth`
      of the funds against the OD and the outstanding EMIs, the score is
      `calculateFreedomScore`, and the phase is one of the three. */
  lemma SelectorsAgreeWithLibrary(s: FinancialState)
    ensures NetWorthOf(s) == F.NetWorth(F.NetWorthAssets(0, s.emergencyFund, 0, s.landFund, s.weddingFund),
                                        F.NetWorthLiabilities(s.currentODBalance, TotalLiability(s.emis)))
    ensures FreedomScoreOf(s) == F.FreedomScore(s.currentODBalance, s.emergencyFund, s.landFund, s.weddingFund)
    ensures 1 <= CurrentPhaseOf(s) <= 3 && (CurrentPhaseOf(s) == 1 <==> s.currentODBalance > 0)
    ensures TotalMonthlyEMIOf(s) + AmountTotal(CompletedEMIs(s.emis)) == AmountTotal(s.emis)
  {
    StoreFreedomScoreIsLibraryScore(s.currentODBalance, s.emergencyFund, s.landFund, s.weddingFund);
    MonthlyEMIAndCompletedCoverAll(s.emis);
  }

  /** `updateODBalance` stores the amount floored at zero and changes nothing else. */
  lemma UpdateODBalanceEffect(s: FinancialState, amount: int)
    ensures var r := AfterUpdateODBalance(s, amount);
            && r.currentODBalance >= 0
            && (amount >= 0 ==> r.currentODBalance == amount)
            && (amount < 0 ==> r.currentODBalance == 0)
            && r == s.(currentODBalance := r.currentODBalance)
  {
  }

  /** Adding an EMI under a fresh id lowers net worth by what it leaves
      outstanding, and deleting it again restores the state. */
  lemma DeleteEMIUndoesAddEMI(s: FinancialState, input: EMIInput, id: string)
    requires forall i :: 0 <= i < |s.emis| ==> s.emis[i].id != id
    ensures NetWorthOf(AfterAddEMI(s, input, id)) == NetWorthOf(s) - Outstanding(StampEMI(input, id))
    ensures AfterDeleteEMI(AfterAddEMI(s, input, id), id) == s
  {
    TotalLiabilitySnoc(s.emis, StampEMI(input, id));
    RemoveAppended(s.emis, StampEMI(input, id), EmiId);
  }

  /** Monthly records stay unique by month under `updateMonthlyRecord` when
      the update keeps the month. */
  lemma MonthlyRecordsStayUnique(s: FinancialState, month: string, updates: MonthlyRecordPatch)
    requires UniqueKeys(s.monthlyRecords, RecordMonth)
    requires updates.month.None? || updates.month == Some(month)
    ensures UniqueKeys(AfterUpdateMonthlyRecord(s, month, updates).monthlyRecords, RecordMonth)
  {
    UpsertKeepsMonthsUnique(s.monthlyRecords, s.transactions, month, updates);
  }

  // ---------------------------------------------------------------------------
  // The store
  // ---------------------------------------------------------------------------

  /** The balances after deleting `t`, computed as `deleteTransaction` does. */
  method ReverseBalances(b: Balances, t: Transaction) returns (r: Balances)
    ensures r == Reverse(b, t.kind, t.category, t.amount)
  {
    var od, emergency, land, wedding := b.od, b.emergency, b.land, b.wedding;
    if t.kind == OdPayment {
      od := od + t.amount;
    }
    if t.kind == Savings {
      if t.category == "emergency_fund" {
        emergency := Max(0, emergency - t.amount);
      } else if t.category == "land_fund" {
        land := Max(0, land - t.amount);
      } else if t.category == "wedding_fund" {
        wedding := Max(0, wedding - t.amount);
      }
    }
    ReverseFields(b, t.kind, t.category, t.amount);
    r := Balances(od, emergency, land, wedding);
  }

  class FinFreeStore {
    var monthlyNetIncome: int
    var currentODBalance: int
    var emiRemaining: int
    var emiAmount: int
    var emiEndDate: string
    var emergencyFund: int
    var landFund: int
    var weddingFund: int
    var monthlyRecords: seq<MonthlyRecord>
    var goals: seq<Goal>
    var transactions: seq<Transaction>
    var emis: seq<EMI>
    var lifestyleCap: int
    var targetODPayment: int
    var hasHydrated: bool

    function State(): FinancialState
      reads this
    {
      FinancialState(monthlyNetIncome, currentODBalance, emiRemaining, emiAmount, emiEndDate,
                     emergencyFund, landFund, weddingFund, monthlyRecords, goals, transactions, emis,
                     lifestyleCap, targetODPayment)
    }

    /** The store as created: the initial state, not yet hydrated. */
    constructor()
      ensures State() == InitialState() && !hasHydrated
    {
      var s := InitialState();
      monthlyNetIncome, currentODBalance, emiRemaining, emiAmount, emiEndDate := s.monthlyNetIncome,
        s.currentODBalance, s.emiRemaining, s.emiAmount, s.emiEndDate;
      emergencyFund, landFund, weddingFund := s.emergencyFund, s.landFund, s.weddingFund;
      monthlyRecords, goals, transactions, emis := s.monthlyRecords, s.goals, s.transactions, s.emis;
      lifestyleCap, targetODPayment := s.lifestyleCap, s.targetODPayment;
      hasHydrated := false;
    }

    /** Replaces every state field, leaving the hydration flag. */
    method Load(s: FinancialState)
      modifies this
      ensures State() == s && hasHydrated == old(hasHydrated)
    {
      monthlyNetIncome := s.monthlyNetIncome;
      currentODBalance := s.currentODBalance;
      emiRemaining := s.emiRemaining;
      emiAmount := s.emiAmount;
      emiEndDate := s.emiEndDate;
      emergencyFund := s.emergencyFund;
      landFund := s.landFund;
      weddingFund := s.weddingFund;
      monthlyRecords := s.monthlyRecords;
      goals := s.goals;
      transactions := s.transactions;
      emis := s.emis;
      lifestyleCap := s.lifestyleCap;
      targetODPayment := s.targetODPayment;
    }

    method SetHasHydrated(hydrated: bool)
      modifies this
      ensures State() == old(State()) && hasHydrated == hydrated
    {
      hasHydrated := hydrated;
    }

    /** Rehydration: the persisted state merged over the current one, then
      the hydration flag set. */
    method Rehydrate(persisted: PersistedState)
      modifies this
      ensures State() == Merge(persisted, old(State())) && hasHydrated
    {
      Load(Merge(persisted, State()));
      SetHasHydrated(true);
    }

    method AddTransaction(input: TransactionInput, id: string, month: string)
      modifies this
      ensures State() == AfterAddTransaction(old(State()), input, id, month)
      ensures hasHydrated == old(hasHydrated)
    {
      var newTransaction := Stamp(input, id, month);
      var newTransactions := transactions + [newTransaction];
      var newODBalance := currentODBalance;
      if input.kind == OdPayment {
        var interest := F.ODInterest(currentODBalance);
        newODBalance := F.ODEndBalance(currentODBalance, input.amount, Some(interest));
      }
      var newEmergencyFund, newLandFund, newWeddingFund := emergencyFund, landFund, weddingFund;
      if input.kind == Savings {
        if input.category == "emergency_fund" {
          newEmergencyFund := newEmergencyFund + input.amount;
        } else if input.category == "land_fund" {
          newLandFund := newLandFund + input.amount;
        } else if input.category == "wedding_fund" {
          newWeddingFund := newWeddingFund + input.amount;
        }
      }
      transactions, currentODBalance := newTransactions, newODBalance;
      emergencyFund, landFund, weddingFund := newEmergencyFund, newLandFund, newWeddingFund;
    }

    method UpdateTransaction(id: string, updates: TransactionPatch)
      modifies this
      ensures State() == AfterUpdateTransaction(old(State()), id, updates)
      ensures hasHydrated == old(hasHydrated)
    {
      transactions := PatchTransactions(transactions, id, updates);
    }

    method DeleteTransaction(id: string)
      modifies this
      ensures State() == AfterDeleteTransaction(old(State()), id)
      ensures hasHydrated == old(hasHydrated)
    {
      var found := Find(transactions, TransactionId, id);
      if found.None? {
        return;
      }
      var t := found.value;
      var b := ReverseBalances(Balances(currentODBalance, emergencyFund, landFund, weddingFund), t);
      var remaining := Remove(transactions, TransactionId, id);
      Load(WithBalances(State().(transactions := remaining), b));
    }

    method UpdateODBalance(amount: int)
      modifies this
      ensures State() == AfterUpdateODBalance(old(State()), amount)
      ensures hasHydrated == old(hasHydrated)
    {
      currentODBalance := Max(0, amount);
    }

    method RecordODPayment(amount: int, description: string, date: string, id: string, month: string)
      modifies this
      ensures State() == AfterRecordODPayment(old(State()), amount, description, date, id, month)
      ensures hasHydrated == old(hasHydrated)
    {
      AddTransaction(TransactionInput(date, amount, OdPayment, "od_payment", description), id, month);
      goals := CreditOdGoal(goals, amount, currentODBalance <= 0);
    }

    method UpdateEmergencyFund(amount: int)
      modifies this
      ensures State() == AfterSetFund(old(State()), EmergencyFund, amount)
      ensures hasHydrated == old(hasHydrated)
    {
      var newAmount := Max(0, amount);
      emergencyFund := newAmount;
      goals := SetGoalProgress(goals, "emergency-fund", newAmount);
    }

    method UpdateLandFund(amount: int)
      modifies this
      ensures State() == AfterSetFund(old(State()), LandFund, amount)
      ensures hasHydrated == old(hasHydrated)
    {
      var newAmount := Max(0, amount);
      landFund := newAmount;
      goals := SetGoalProgress(goals, "land-fund", newAmount);
    }

    method UpdateWeddingFund(amount: int)
      modifies this
      ensures State() == AfterSetFund(old(State()), WeddingFund, amount)
      ensures hasHydrated == old(hasHydrated)
    {
      var newAmount := Max(0, amount);
      weddingFund := newAmount;
      goals := SetGoalProgress(goals, "wedding-fund", newAmount);
    }

    method UpdateGoal(id: string, updates: GoalPatch)
      modifies this
      ensures State() == AfterUpdateGoal(old(State()), id, updates)
      ensures hasHydrated == old(hasHydrated)
    {
      goals := PatchGoals(goals, id, updates);
    }

    /** `getMonthlyRecord`: the first record of the month, if any. */
    function GetMonthlyRecord(month: string): (r: Option<MonthlyRecord>)
      reads this
      ensures r.None? <==> forall i :: 0 <= i < |monthlyRecords| ==> monthlyRecords[i].month != month
      ensures r.Some? ==> r.value in monthlyRecords && r.value.month == month
    {
      Find(monthlyRecords, RecordMonth, month)
    }

    method UpdateMonthlyRecord(month: string, updates: MonthlyRecordPatch)
      modifies this
      ensures State() == AfterUpdateMonthlyRecord(old(State()), month, updates)
      ensures hasHydrated == old(hasHydrated)
    {
      monthlyRecords := UpsertMonthlyRecord(monthlyRecords, transactions, month, updates);
    }

    method UpdateLifestyleCap(amount: int)
      modifies this
      ensures State() == AfterUpdateLifestyleCap(old(State()), amount)
      ensures hasHydrated == old(hasHydrated)
    {
      lifestyleCap := amount;
    }

    method AddEMI(input: EMIInput, id: string)
      modifies this
      ensures State() == AfterAddEMI(old(State()), input, id)
      ensures hasHydrated == old(hasHydrated)
    {
      emis := emis + [StampEMI(input, id)];
    }

    method UpdateEMI(id: string, updates: EMIPatch)
      modifies this
      ensures State() == AfterUpdateEMI(old(State()), id, updates)
      ensures hasHydrated == old(hasHydrated)
    {
      emis := PatchEMIs(emis, id, updates);
    }

    method DeleteEMI(id: string)
      modifies this
      ensures State() == AfterDeleteEMI(old(State()), id)
      ensures hasHydrated == old(hasHydrated)
    {
      emis := Remove(emis, EmiId, id);
    }

    method RecordEMIPayment(emiId: string, description: string, date: string, id: string, month: string)
      modifies this
      ensures State() == AfterRecordEMIPayment(old(State()), emiId, description, date, id, month)
      ensures hasHydrated == old(hasHydrated)
    {
      var found := Find(emis, EmiId, emiId);
      if found.None? || found.value.paidInstallments >= found.value.totalInstallments {
        return;
      }
      var e := found.value;
      AddTransaction(TransactionInput(date, e.amount, EmiPayment, "emi", description), id, month);
      UpdateEMI(emiId, PaidInstallmentsPatch(e.paidInstallments + 1));
    }

    method ResetToDefaults()
      modifies this
      ensures State() == InitialState()
      ensures hasHydrated == old(hasHydrated)
    {
      Load(InitialState());
    }
  }
}
