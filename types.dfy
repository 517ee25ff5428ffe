/** The records of the FinFree apps (`src/lib/types.ts`): ledger transactions,
    monthly records, goals, the overdraft payoff schedule, plan phases,
    installment obligations (EMIs) and the aggregate financial state.
    Amounts are whole rupees. A `Partial<T>` update is a record of optional
    fields; applying it overwrites exactly the fields that are present. */
module Types {
  import opened Common

  datatype TransactionType = Income | Expense | OdPayment | EmiPayment | Savings

  datatype Transaction = Transaction(
    id: string,
    date: string,
    amount: int,
    kind: TransactionType,
    category: string,
    description: string,
    month: string)

  /** What `addTransaction` receives: a transaction without its id and month. */
  datatype TransactionInput = TransactionInput(
    date: string,
    amount: int,
    kind: TransactionType,
    category: string,
    description: string)

  function Stamp(input: TransactionInput, id: string, month: string): Transaction {
    Transaction(id, input.date, input.amount, input.kind, input.category, input.description, month)
  }

  function TransactionId(t: Transaction): string { t.id }

  datatype TransactionPatch = TransactionPatch(
    id: Option<string>,
    date: Option<string>,
    amount: Option<int>,
    kind: Option<TransactionType>,
    category: Option<string>,
    description: Option<string>,
    month: Option<string>)

  /** `{ ...t, ...updates }` */
  function PatchTransaction(t: Transaction, p: TransactionPatch): Transaction {
    Transaction(p.id.GetOr(t.id), p.date.GetOr(t.date), p.amount.GetOr(t.amount), p.kind.GetOr(t.kind),
                p.category.GetOr(t.category), p.description.GetOr(t.description), p.month.GetOr(t.month))
  }

  datatype MonthlyRecord = MonthlyRecord(
    month: string,
    income: int,
    expenses: int,
    emiPaid: int,
    odPayment: int,
    savings: int,
    savingsRate: real,
    lifestyleSpent: int,
    transactions: seq<Transaction>,
    notes: string)

  function RecordMonth(r: MonthlyRecord): string { r.month }

  datatype MonthlyRecordPatch = MonthlyRecordPatch(
    month: Option<string>,
    income: Option<int>,
    expenses: Option<int>,
    emiPaid: Option<int>,
    odPayment: Option<int>,
    savings: Option<int>,
    savingsRate: Option<real>,
    lifestyleSpent: Option<int>,
    transactions: Option<seq<Transaction>>,
    notes: Option<string>)

  function PatchMonthlyRecord(r: MonthlyRecord, p: MonthlyRecordPatch): MonthlyRecord {
    MonthlyRecord(p.month.GetOr(r.month), p.income.GetOr(r.income), p.expenses.GetOr(r.expenses),
                  p.emiPaid.GetOr(r.emiPaid), p.odPayment.GetOr(r.odPayment), p.savings.GetOr(r.savings),
                  p.savingsRate.GetOr(r.savingsRate), p.lifestyleSpent.GetOr(r.lifestyleSpent),
                  p.transactions.GetOr(r.transactions), p.notes.GetOr(r.notes))
  }

  datatype GoalCategory = DebtPayoff | EmergencyFundGoal | SavingsGoal

  datatype Goal = Goal(
    id: string,
    name: string,
    targetAmount: int,
    currentAmount: int,
    targetDate: string,
    startDate: string,
    category: GoalCategory,
    monthlyContribution: int,
    isCompleted: bool)

  datatype GoalPatch = GoalPatch(
    id: Option<string>,
    name: Option<string>,
    targetAmount: Option<int>,
    currentAmount: Option<int>,
    targetDate: Option<string>,
    startDate: Option<string>,
    category: Option<GoalCategory>,
    monthlyContribution: Option<int>,
    isCompleted: Option<bool>)

  function PatchGoal(g: Goal, p: GoalPatch): Goal {
    Goal(p.id.GetOr(g.id), p.name.GetOr(g.name), p.targetAmount.GetOr(g.targetAmount),
         p.currentAmount.GetOr(g.currentAmount), p.targetDate.GetOr(g.targetDate),
         p.startDate.GetOr(g.startDate), p.category.GetOr(g.category),
         p.monthlyContribution.GetOr(g.monthlyContribution), p.isCompleted.GetOr(g.isCompleted))
  }

  datatype ODPayoffRow = ODPayoffRow(
    month: string,
    startBalance: int,
    estimatedInterest: int,
    payment: int,
    endBalance: int,
    interestPaidYTD: int)

  datatype FinancialPhase = FinancialPhase(
    id: int,
    name: string,
    startMonth: string,
    endMonth: string,
    goal: string,
    targetAmount: int,
    isActive: bool,
    isCompleted: bool)

  datatype EMI = EMI(
    id: string,
    name: string,
    amount: int,
    totalInstallments: int,
    paidInstallments: int,
    startDate: string,
    endDate: string,
    description: Option<string>)

  function EmiId(e: EMI): string { e.id }

  /** What `addEMI` receives: an EMI without its id. */
  datatype EMIInput = EMIInput(
    name: string,
    amount: int,
    totalInstallments: int,
    paidInstallments: int,
    startDate: string,
    endDate: string,
    description: Option<string>)

  function StampEMI(input: EMIInput, id: string): EMI {
    EMI(id, input.name, input.amount, input.totalInstallments, input.paidInstallments,
        input.startDate, input.endDate, input.description)
  }

  datatype EMIPatch = EMIPatch(
    id: Option<string>,
    name: Option<string>,
    amount: Option<int>,
    totalInstallments: Option<int>,
    paidInstallments: Option<int>,
    startDate: Option<string>,
    endDate: Option<string>,
    description: Option<Option<string>>)

  function PatchEMI(e: EMI, p: EMIPatch): EMI {
    EMI(p.id.GetOr(e.id), p.name.GetOr(e.name), p.amount.GetOr(e.amount),
        p.totalInstallments.GetOr(e.totalInstallments), p.paidInstallments.GetOr(e.paidInstallments),
        p.startDate.GetOr(e.startDate), p.endDate.GetOr(e.endDate), p.description.GetOr(e.description))
  }

  /** The patch that only sets `paidInstallments`. */
  function PaidInstallmentsPatch(paid: int): EMIPatch {
    EMIPatch(None, None, None, None, Some(paid), None, None, None)
  }

  /** The aggregate state the FinFree store owns. */
  datatype FinancialState = FinancialState(
    monthlyNetIncome: int,
    currentODBalance: int,
    emiRemaining: int,
    emiAmount: int,
    emiEndDate: string,
    emergencyFund: int,
    landFund: int,
    weddingFund: int,
    monthlyRecords: seq<MonthlyRecord>,
    goals: seq<Goal>,
    transactions: seq<Transaction>,
    emis: seq<EMI>,
    lifestyleCap: int,
    targetODPayment: int)
}
