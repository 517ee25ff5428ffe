/** Installment obligations (EMIs): the outstanding liability, the split into
    active and completed EMIs, the monthly EMI obligation, and the id-keyed
    update that `updateEMI` and `recordEMIPayment` apply (`src/lib/store.ts`,
    `src/app/emis/page.tsx`). */
module Installments {
  import opened Common
  import opened Types

  /** What is still owed on one EMI: its unpaid installments times its amount. */
  function Outstanding(e: EMI): int {
    (e.totalInstallments - e.paidInstallments) * e.amount
  }

  /** The total EMI liability: the outstanding amounts of every EMI. */
  function TotalLiability(emis: seq<EMI>): int {
    if emis == [] then 0 else TotalLiability(emis[..|emis| - 1]) + Outstanding(emis[|emis| - 1])
  }

  /** The liability is additive over concatenated lists. */
  lemma {:induction false} TotalLiabilityAppend(a: seq<EMI>, b: seq<EMI>)
    ensures TotalLiability(a + b) == TotalLiability(a) + TotalLiability(b)
  {
    if b == [] {
      assert a + b == a;
    } else {
      TotalLiabilityAppend(a, b[..|b| - 1]);
      assert (a + b)[..|a + b| - 1] == a + b[..|b| - 1];
    }
  }

  /** When no EMI is overpaid and no amount is negative, nothing is owed below zero. */
  lemma {:induction false} TotalLiabilityNonnegative(emis: seq<EMI>)
    requires forall i :: 0 <= i < |emis| ==> emis[i].paidInstallments <= emis[i].totalInstallments && 0 <= emis[i].amount
    ensures 0 <= TotalLiability(emis)
  {
    if emis != [] {
      var e := emis[|emis| - 1];
      TotalLiabilityNonnegative(emis[..|emis| - 1]);
      IntMulNonnegative(e.totalInstallments - e.paidInstallments, e.amount);
    }
  }

  /** An EMI with installments still to pay. */
  predicate IsActive(e: EMI) {
    e.paidInstallments < e.totalInstallments
  }

  /** `emis.filter(emi => emi.paidInstallments < emi.totalInstallments)` */
  function ActiveEMIs(emis: seq<EMI>): (r: seq<EMI>)
    ensures |r| <= |emis|
    ensures forall i :: 0 <= i < |r| ==> IsActive(r[i])
  {
    if emis == [] then []
    else ActiveEMIs(emis[..|emis| - 1]) + (if IsActive(emis[|emis| - 1]) then [emis[|emis| - 1]] else [])
  }

  /** `emis.filter(emi => emi.paidInstallments >= emi.totalInstallments)` */
  function CompletedEMIs(emis: seq<EMI>): (r: seq<EMI>)
    ensures |r| <= |emis|
    ensures forall i :: 0 <= i < |r| ==> !IsActive(r[i])
  {
    if emis == [] then []
    else CompletedEMIs(emis[..|emis| - 1]) + (if IsActive(emis[|emis| - 1]) then [] else [emis[|emis| - 1]])
  }

  /** Every EMI is either active or completed, never both, so the two lists
      split the EMI list between them. */
  lemma {:induction false} ActiveCompletedPartition(emis: seq<EMI>)
    ensures multiset(ActiveEMIs(emis)) + multiset(CompletedEMIs(emis)) == multiset(emis)
    ensures |ActiveEMIs(emis)| + |CompletedEMIs(emis)| == |emis|
  {
    if emis != [] {
      var init, last := emis[..|emis| - 1], emis[|emis| - 1];
      ActiveCompletedPartition(init);
      assert emis == init + [last];
    }
  }

  /** The sum of the EMI amounts. */
  function AmountTotal(emis: seq<EMI>): int {
    if emis == [] then 0 else AmountTotal(emis[..|emis| - 1]) + emis[|emis| - 1].amount
  }

  /** `useTotalMonthlyEMI`: the amounts of the EMIs still being paid. */
  function TotalMonthlyEMI(emis: seq<EMI>): int {
    AmountTotal(ActiveEMIs(emis))
  }

  /** The active EMIs' amounts and the completed EMIs' amounts make up all of them. */
  lemma {:induction false} MonthlyEMIAndCompletedCoverAll(emis: seq<EMI>)
    ensures TotalMonthlyEMI(emis) + AmountTotal(CompletedEMIs(emis)) == AmountTotal(emis)
  {
    if emis != [] {
      var init, last := emis[..|emis| - 1], emis[|emis| - 1];
      MonthlyEMIAndCompletedCoverAll(init);
      assert AmountTotal(emis) == AmountTotal(init) + last.amount;
      if IsActive(last) {
        var a := ActiveEMIs(init);
        assert ActiveEMIs(emis) == a + [last];
        assert (a + [last])[..|a|] == a;
        assert AmountTotal(a + [last]) == AmountTotal(a) + last.amount;
        assert CompletedEMIs(emis) == CompletedEMIs(init) + [];
        assert CompletedEMIs(init) + [] == CompletedEMIs(init);
      } else {
        var c := CompletedEMIs(init);
        assert CompletedEMIs(emis) == c + [last];
        assert (c + [last])[..|c|] == c;
        assert AmountTotal(c + [last]) == AmountTotal(c) + last.amount;
        assert ActiveEMIs(emis) == ActiveEMIs(init) + [];
        assert ActiveEMIs(init) + [] == ActiveEMIs(init);
      }
    }
  }

  /** `emis.map(e => e.id === id ? { ...e, ...updates } : e)` */
  function PatchEMIs(emis: seq<EMI>, id: string, updates: EMIPatch): (r: seq<EMI>)
    ensures |r| == |emis|
    ensures forall i :: 0 <= i < |emis| ==> r[i] == if emis[i].id == id then PatchEMI(emis[i], updates) else emis[i]
  {
    MapWhere(emis, EmiId, id, e => PatchEMI(e, updates))
  }

  /** Updating an id no EMI carries leaves the list as it was. */
  lemma PatchAbsentEMIs(emis: seq<EMI>, id: string, updates: EMIPatch)
    requires forall i :: 0 <= i < |emis| ==> emis[i].id != id
    ensures PatchEMIs(emis, id, updates) == emis
  {
  }

  /** One more paid installment leaves one amount less outstanding. */
  lemma OutstandingAfterPayment(e: EMI)
    ensures Outstanding(PatchEMI(e, PaidInstallmentsPatch(e.paidInstallments + 1))) == Outstanding(e) - e.amount
  {
    var t, p, a := e.totalInstallments, e.paidInstallments, e.amount;
    assert (t - (p + 1)) * a == (t - p) * a - a;
  }

  lemma TotalLiabilitySnoc(emis: seq<EMI>, e: EMI)
    ensures TotalLiability(emis + [e]) == TotalLiability(emis) + Outstanding(e)
  {
    assert (emis + [e])[..|emis|] == emis;
  }

  /** Patching a list with one more element patches the prefix and that element. */
  lemma PatchEMIsSnoc(init: seq<EMI>, last: EMI, id: string, p: EMIPatch)
    ensures PatchEMIs(init + [last], id, p)
            == PatchEMIs(init, id, p) + [if last.id == id then PatchEMI(last, p) else last]
  {
    var xs := init + [last];
    assert forall i :: 0 <= i < |init| ==> xs[i] == init[i];
  }

  /** Unique ids stay unique in a prefix, and the prefix does not carry the
      last element's id. */
  lemma UniquePrefix(emis: seq<EMI>)
    requires |emis| > 0 && UniqueKeys(emis, EmiId)
    ensures UniqueKeys(emis[..|emis| - 1], EmiId)
    ensures forall i :: 0 <= i < |emis| - 1 ==> emis[i].id != emis[|emis| - 1].id
  {
    var init := emis[..|emis| - 1];
    forall i, j | 0 <= i < j < |init|
      ensures EmiId(init[i]) != EmiId(init[j])
    {
      assert EmiId(emis[i]) != EmiId(emis[j]);
    }
    forall i | 0 <= i < |init|
      ensures emis[i].id != emis[|emis| - 1].id
    {
      assert EmiId(emis[i]) != EmiId(emis[|emis| - 1]);
    }
  }

  /** Paying one installment of the only EMI with that id lowers the total
      liability by exactly that EMI's amount. */
  lemma {:induction false} PaymentLowersLiability(emis: seq<EMI>, k: nat)
    requires k < |emis| && UniqueKeys(emis, EmiId)
    ensures TotalLiability(PatchEMIs(emis, emis[k].id, PaidInstallmentsPatch(emis[k].paidInstallments + 1)))
            == TotalLiability(emis) - emis[k].amount
  {
    var e := emis[k];
    var p := PaidInstallmentsPatch(e.paidInstallments + 1);
    var n := |emis|;
    var init, last := emis[..n - 1], emis[n - 1];
    assert emis == init + [last];
    UniquePrefix(emis);
    var patchedLast := if last.id == e.id then PatchEMI(last, p) else last;
    PatchEMIsSnoc(init, last, e.id, p);
    TotalLiabilitySnoc(PatchEMIs(init, e.id, p), patchedLast);
    TotalLiabilitySnoc(init, last);
    if k == n - 1 {
      PatchAbsentEMIs(init, e.id, p);
      OutstandingAfterPayment(e);
    } else {
      assert init[k] == e;
      PaymentLowersLiability(init, k);
    }
  }
}
