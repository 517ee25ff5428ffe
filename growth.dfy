/** Monthly compounding with a fixed monthly contribution: the step that every
    projection loop of both finance libraries takes
    (`balance = balance * (1 + monthlyRate) + monthlyContribution` with
    `monthlyRate = annualRate / 12`). */
module Growth {

  /** One month of growth followed by one contribution. */
  function MonthlyStep(balance: real, contribution: real, annualRate: real): real {
    balance * (1.0 + annualRate / 12.0) + contribution
  }

  /** The balance after `n` monthly steps from `start`. */
  function Grow(start: real, contribution: real, annualRate: real, n: nat): real {
    if n == 0 then start
    else MonthlyStep(Grow(start, contribution, annualRate, n - 1), contribution, annualRate)
  }

  lemma MulNonnegative(x: real, y: real)
    requires 0.0 <= x && 0.0 <= y
    ensures 0.0 <= x * y
  {
  }

  /** With a zero rate the balance is the start plus the contributions made. */
  lemma {:induction false} GrowWithoutInterest(start: real, contribution: real, n: nat)
    ensures Grow(start, contribution, 0.0, n) == start + n as real * contribution
  {
    if n > 0 {
      GrowWithoutInterest(start, contribution, n - 1);
    }
  }

  /** From a non-negative start, with a non-negative rate and contribution,
      the balance never falls below the start plus the contributions made. */
  lemma {:induction false} GrowAtLeastContributions(start: real, contribution: real, annualRate: real, n: nat)
    requires 0.0 <= start && 0.0 <= contribution && 0.0 <= annualRate
    ensures Grow(start, contribution, annualRate, n) >= start + n as real * contribution
  {
    if n > 0 {
      GrowAtLeastContributions(start, contribution, annualRate, n - 1);
      var b := Grow(start, contribution, annualRate, n - 1);
      MulNonnegative(b, annualRate / 12.0);
      assert MonthlyStep(b, contribution, annualRate) == b + b * (annualRate / 12.0) + contribution;
    }
  }

  /** Under the same conditions the balance never decreases from month to month. */
  lemma {:induction false} GrowMonotone(start: real, contribution: real, annualRate: real, m: nat, n: nat)
    requires 0.0 <= start && 0.0 <= contribution && 0.0 <= annualRate
    requires m <= n
    ensures Grow(start, contribution, annualRate, m) <= Grow(start, contribution, annualRate, n)
  {
    if m < n {
      GrowMonotone(start, contribution, annualRate, m, n - 1);
      var b := Grow(start, contribution, annualRate, n - 1);
      GrowAtLeastContributions(start, contribution, annualRate, n - 1);
      MulNonnegative(b, annualRate / 12.0);
      assert MonthlyStep(b, contribution, annualRate) == b + b * (annualRate / 12.0) + contribution;
    }
  }
}
