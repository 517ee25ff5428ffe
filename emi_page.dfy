/** The rules the EMI page (`src/app/emis/page.tsx`) applies before it calls
    the store: the add form's validation and the payment button's guard.
    The form's text fields are given already parsed: a blank field is
    `None`, and the paid-installments field is `None` when it is blank or
    does not parse (the page then takes 0). The start and end dates the page
    derives from today's date are parameters. */
module EmiRules {
  import opened Common
  import opened Types
  import opened Installments
  import S = Store

  datatype EmiForm = EmiForm(
    name: string,
    amount: Option<int>,
    totalInstallments: Option<int>,
    paidInstallments: Option<int>,
    description: string)

  /** Why a form was refused, or the EMI it adds. */
  datatype AddOutcome = MissingFields | NotPositive | PaidExceedsTotal | Accepted(input: EMIInput)

  /** `handleAddEMI`: the three checks in the page's order, then the EMI to add. */
  function ValidateNewEMI(form: EmiForm, startDate: string, endDate: string): (r: AddOutcome)
    ensures r.MissingFields? <==> form.name == "" || form.amount.None? || form.totalInstallments.None?
    ensures r.Accepted? <==>
              && form.name != "" && form.amount.Some? && form.totalInstallments.Some?
              && form.amount.value > 0 && form.totalInstallments.value > 0
              && form.paidInstallments.GetOr(0) <= form.totalInstallments.value
    ensures r.Accepted? ==>
              && r.input.name == form.name
              && r.input.amount == form.amount.value
              && r.input.totalInstallments == form.totalInstallments.value
              && r.input.paidInstallments == form.paidInstallments.GetOr(0)
              && r.input.startDate == startDate && r.input.endDate == endDate
              && (r.input.description.None? <==> form.description == "")
              && (r.input.description.Some? ==> r.input.description.value == form.description)
  {
    if form.name == "" || form.amount.None? || form.totalInstallments.None? then MissingFields
    else
      var amount := form.amount.value;
      var total := form.totalInstallments.value;
      var paid := form.paidInstallments.GetOr(0);
      if amount <= 0 || total <= 0 then NotPositive
      else if paid > total then PaidExceedsTotal
      else Accepted(EMIInput(form.name, amount, total, paid, startDate, endDate,
                             if form.description == "" then None else Some(form.description)))
  }

  /** The page checks only the upper bound: a negative paid count is accepted. */
  lemma NegativePaidAccepted()
    ensures ValidateNewEMI(EmiForm("Phone", Some(2000), Some(6), Some(-2), ""), "2026-01-01", "2026-09-01").Accepted?
  {
  }

  /** Adding an accepted EMI under a fresh id keeps every EMI within its total
      and keeps the ids unique. */
  lemma AcceptedAddKeepsInvariant(s: FinancialState, form: EmiForm, startDate: string, endDate: string, id: string)
    requires forall i :: 0 <= i < |s.emis| ==> s.emis[i].paidInstallments <= s.emis[i].totalInstallments
    requires UniqueKeys(s.emis, EmiId)
    requires forall i :: 0 <= i < |s.emis| ==> s.emis[i].id != id
    requires ValidateNewEMI(form, startDate, endDate).Accepted?
    ensures var r := S.AfterAddEMI(s, ValidateNewEMI(form, startDate, endDate).input, id);
            && (forall i :: 0 <= i < |r.emis| ==> r.emis[i].paidInstallments <= r.emis[i].totalInstallments)
            && UniqueKeys(r.emis, EmiId)
  {
    var r := S.AfterAddEMI(s, ValidateNewEMI(form, startDate, endDate).input, id);
    forall i, j | 0 <= i < j < |r.emis|
      ensures EmiId(r.emis[i]) != EmiId(r.emis[j])
    {
      if j < |s.emis| {
        assert EmiId(s.emis[i]) != EmiId(s.emis[j]);
      }
    }
  }

  /** `handleRecordPayment`'s guard: only an EMI with installments left. */
  predicate CanRecordPayment(e: EMI) {
    e.paidInstallments < e.totalInstallments
  }

  /** The page's guard and the store's own check agree: under unique ids,
      the store records a payment for an EMI exactly when the page allows it. */
  lemma PageGuardMatchesStore(s: FinancialState, k: nat, description: string, date: string, id: string, month: string)
    requires k < |s.emis| && UniqueKeys(s.emis, EmiId)
    ensures var r := S.AfterRecordEMIPayment(s, s.emis[k].id, description, date, id, month);
            (r == s <==> !CanRecordPayment(s.emis[k]))
  {
    S.FindUniqueEMI(s.emis, k);
    if CanRecordPayment(s.emis[k]) {
      S.EMIPaymentEffect(s, k, description, date, id, month);
      var r := S.AfterRecordEMIPayment(s, s.emis[k].id, description, date, id, month);
      assert |r.transactions| == |s.transactions| + 1;
    }
  }
}
