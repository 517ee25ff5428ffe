/** The FreedomPath finance library (`freedompath/src/lib/finances.ts`):
    net worth over asset and liability lists, the clamped savings rate, the
    passive-income freedom score, the FIRE number, the years-to-FIRE loop,
    the FIRE targets, the year-by-year projection and monthly averages.
    Amounts are exact reals. */
module FireFinances {
  import opened Common
  import opened Growth

  datatype AssetType = Cash | Stocks | RealEstate | Bonds | Crypto | OtherAsset

  datatype Asset = Asset(id: string, name: string, kind: AssetType, value: real, lastUpdated: string)

  datatype LiabilityType = Mortgage | CarLoan | StudentLoan | CreditCard | OtherLiability

  datatype Liability = Liability(id: string, name: string, kind: LiabilityType, value: real, lastUpdated: string)

  datatype MonthlyEntry = MonthlyEntry(id: string, month: string, income: real, expenses: real)

  // ---------------------------------------------------------------------------
  // Net worth
  // ---------------------------------------------------------------------------

  /** `calculateTotalAssets`: the sum of the asset values. */
  function TotalAssets(assets: seq<Asset>): real {
    if assets == [] then 0.0 else TotalAssets(assets[..|assets| - 1]) + assets[|assets| - 1].value
  }

  /** `calculateTotalLiabilities`: the sum of the liability values. */
  function TotalLiabilities(liabilities: seq<Liability>): real {
    if liabilities == [] then 0.0
    else TotalLiabilities(liabilities[..|liabilities| - 1]) + liabilities[|liabilities| - 1].value
  }

  /** `calculateNetWorth`: assets less liabilities; with no liabilities it is the
      asset total, and with neither it is 0. */
  function NetWorth(assets: seq<Asset>, liabilities: seq<Liability>): (r: real)
    ensures liabilities == [] ==> r == TotalAssets(assets)
    ensures assets == [] && liabilities == [] ==> r == 0.0
  {
    TotalAssets(assets) - TotalLiabilities(liabilities)
  }

  /** Asset totals are additive over concatenated lists. */
  lemma {:induction false} TotalAssetsAppend(a: seq<Asset>, b: seq<Asset>)
    ensures TotalAssets(a + b) == TotalAssets(a) + TotalAssets(b)
  {
    if b == [] {
      assert a + b == a;
    } else {
      TotalAssetsAppend(a, b[..|b| - 1]);
      assert (a + b)[..|a + b| - 1] == a + b[..|b| - 1];
    }
  }

  /** Liability totals are additive over concatenated lists. */
  lemma {:induction false} TotalLiabilitiesAppend(a: seq<Liability>, b: seq<Liability>)
    ensures TotalLiabilities(a + b) == TotalLiabilities(a) + TotalLiabilities(b)
  {
    if b == [] {
      assert a + b == a;
    } else {
      TotalLiabilitiesAppend(a, b[..|b| - 1]);
      assert (a + b)[..|a + b| - 1] == a + b[..|b| - 1];
    }
  }

  /** Adding an asset raises net worth by exactly its value; adding a
      liability lowers it by exactly its value. */
  lemma NetWorthAfterAdding(assets: seq<Asset>, liabilities: seq<Liability>, a: Asset, l: Liability)
    ensures NetWorth(assets + [a], liabilities) == NetWorth(assets, liabilities) + a.value
    ensures NetWorth(assets, liabilities + [l]) == NetWorth(assets, liabilities) - l.value
  {
    assert (assets + [a])[..|assets|] == assets;
    assert (liabilities + [l])[..|liabilities|] == liabilities;
  }

  // ---------------------------------------------------------------------------
  // Rates and score
  // ---------------------------------------------------------------------------

  /** `calculateSavingsRate`: the percentage of income saved, clamped to
      [0, 100]; 0 when there is no income. */
  function SavingsRate(income: real, expenses: real): (r: real)
    ensures income <= 0.0 ==> r == 0.0
    ensures 0.0 <= r <= 100.0
    ensures income > 0.0 && expenses >= income ==> r == 0.0
    ensures income > 0.0 && 0.0 <= expenses <= income ==> r * income == (income - expenses) * 100.0
  {
    if income <= 0.0 then 0.0
    else
      var savings := income - expenses;
      MaxReal(0.0, MinReal(100.0, (savings / income) * 100.0))
  }

  /** `calculateMonthlyPassiveIncome`: a year's withdrawal spread over twelve months. */
  function MonthlyPassiveIncome(investedAssets: real, withdrawalRate: real): (r: real)
    ensures r * 12.0 == investedAssets * withdrawalRate
  {
    (investedAssets * withdrawalRate) / 12.0
  }

  /** `calculateFreedomScore`: the percentage of monthly expenses covered by
      passive income, capped at 100; 100 when there are no expenses. */
  function FreedomScore(investedAssets: real, monthlyExpenses: real, withdrawalRate: real): (r: real)
    ensures monthlyExpenses <= 0.0 ==> r == 100.0
    ensures r <= 100.0
    ensures monthlyExpenses > 0.0 && 0.0 <= investedAssets && 0.0 <= withdrawalRate ==> 0.0 <= r
    ensures monthlyExpenses > 0.0 && r < 100.0 ==>
              r * monthlyExpenses == MonthlyPassiveIncome(investedAssets, withdrawalRate) * 100.0
  {
    if monthlyExpenses <= 0.0 then 100.0
    else
      var passiveIncome := MonthlyPassiveIncome(investedAssets, withdrawalRate);
      PassiveIncomeNonnegative(investedAssets, withdrawalRate);
      MinReal(100.0, (passiveIncome / monthlyExpenses) * 100.0)
  }

  lemma PassiveIncomeNonnegative(investedAssets: real, withdrawalRate: real)
    ensures 0.0 <= investedAssets && 0.0 <= withdrawalRate ==> 0.0 <= MonthlyPassiveIncome(investedAssets, withdrawalRate)
  {
    if 0.0 <= investedAssets && 0.0 <= withdrawalRate {
      MulNonnegative(investedAssets, withdrawalRate);
    }
  }

  /** `calculateFIRENumber`: the portfolio whose yearly withdrawal at the given
      rate pays a year of expenses. */
  function FIRENumber(monthlyExpenses: real, withdrawalRate: real): (r: real)
    requires withdrawalRate != 0.0
    ensures r * withdrawalRate == monthlyExpenses * 12.0
  {
    var annualExpenses := monthlyExpenses * 12.0;
    annualExpenses / withdrawalRate
  }

  /** At the default 4% withdrawal rate the FIRE number is 25 years of expenses. */
  lemma FIRENumberAtFourPercent(monthlyExpenses: real)
    ensures FIRENumber(monthlyExpenses, 0.04) == 25.0 * (monthlyExpenses * 12.0)
  {
  }

  // ---------------------------------------------------------------------------
  // Years to FIRE
  // ---------------------------------------------------------------------------

  /** The iteration cap of the years-to-FIRE loop. */
  const MaxFireYears: nat := 100

  /** The result of `calculateYearsToFIRE`: a whole number of years, `Infinity`,
      or the growth-only logarithm `log(ratio) / log(1 + annualReturn)`, which
      the model keeps symbolic. */
  datatype FireYears = Years(n: nat) | Never | GrowthOnly(ratio: real, annualReturn: real)

  /** The balance after `years` whole years of monthly compounding. */
  function YearEnd(start: real, contribution: real, annualReturn: real, years: nat): real {
    Grow(start, contribution, annualReturn, 12 * years)
  }

  /** The year, counting on from `k`, at which the yearly loop stops: the first
      whose balance reaches the target, or the cap. */
  function StopYearFrom(start: real, contribution: real, target: real, annualReturn: real, k: nat): (n: nat)
    requires k <= MaxFireYears
    ensures k <= n <= MaxFireYears
    ensures n == MaxFireYears || YearEnd(start, contribution, annualReturn, n) >= target
    ensures forall j :: k <= j < n ==> YearEnd(start, contribution, annualReturn, j) < target
    decreases MaxFireYears - k
  {
    if k == MaxFireYears || YearEnd(start, contribution, annualReturn, k) >= target then k
    else StopYearFrom(start, contribution, target, annualReturn, k + 1)
  }

  /** The loop's stopping year is the only year with its two properties. */
  lemma StopYearUnique(start: real, contribution: real, target: real, annualReturn: real, m: nat)
    requires m <= MaxFireYears
    requires m == MaxFireYears || YearEnd(start, contribution, annualReturn, m) >= target
    requires forall j :: 0 <= j < m ==> YearEnd(start, contribution, annualReturn, j) < target
    ensures StopYearFrom(start, contribution, target, annualReturn, 0) == m
  {
  }

  /** What `calculateYearsToFIRE` returns, branch by branch. */
  function FireYearsOf(currentNetWorth: real, monthlyContribution: real, fireNumber: real, annualReturn: real): FireYears {
    if currentNetWorth >= fireNumber then Years(0)
    else if monthlyContribution <= 0.0 && currentNetWorth <= 0.0 then Never
    else if monthlyContribution <= 0.0 then GrowthOnly(fireNumber / currentNetWorth, annualReturn)
    else
      var n := StopYearFrom(currentNetWorth, monthlyContribution, fireNumber, annualReturn, 0);
      if n >= MaxFireYears then Never else Years(n)
  }

  /** The meaning of the result: 0 exactly when the target is already met
      (checked first); otherwise, with a positive contribution, the least whole
      number of years whose balance reaches the target, or `Infinity` when none
      below 100 does. */
  lemma FireYearsOfMeaning(currentNetWorth: real, monthlyContribution: real, fireNumber: real, annualReturn: real)
    ensures FireYearsOf(currentNetWorth, monthlyContribution, fireNumber, annualReturn) == Years(0)
              <== currentNetWorth >= fireNumber
    ensures monthlyContribution > 0.0 ==>
              match FireYearsOf(currentNetWorth, monthlyContribution, fireNumber, annualReturn)
              case Years(n) =>
                && n < MaxFireYears
                && YearEnd(currentNetWorth, monthlyContribution, annualReturn, n) >= fireNumber
                && forall j :: 0 <= j < n ==> YearEnd(currentNetWorth, monthlyContribution, annualReturn, j) < fireNumber
              case Never =>
                forall j :: 0 <= j < MaxFireYears ==> YearEnd(currentNetWorth, monthlyContribution, annualReturn, j) < fireNumber
              case GrowthOnly(_, _) => false
    ensures monthlyContribution <= 0.0 && currentNetWorth < fireNumber ==>
              FireYearsOf(currentNetWorth, monthlyContribution, fireNumber, annualReturn)
                == if currentNetWorth <= 0.0 then Never else GrowthOnly(fireNumber / currentNetWorth, annualReturn)
  {
  }

  /** From a non-negative balance at a non-negative return, a target within 99
      years of contributions is reached before the cap. */
  lemma FireReachedWithinCap(currentNetWorth: real, monthlyContribution: real, fireNumber: real, annualReturn: real)
    requires 0.0 <= currentNetWorth && 0.0 < monthlyContribution && 0.0 <= annualReturn
    requires fireNumber <= currentNetWorth + (12 * (MaxFireYears - 1)) as real * monthlyContribution
    ensures FireYearsOf(currentNetWorth, monthlyContribution, fireNumber, annualReturn).Years?
  {
    if currentNetWorth < fireNumber {
      GrowAtLeastContributions(currentNetWorth, monthlyContribution, annualReturn, 12 * (MaxFireYears - 1));
      assert YearEnd(currentNetWorth, monthlyContribution, annualReturn, MaxFireYears - 1) >= fireNumber;
    }
  }

  /** `calculateYearsToFIRE`: the early returns, then whole years of twelve
      monthly steps each until the target is met or 100 years have passed. */
  method YearsToFIRE(currentNetWorth: real, monthlyContribution: real, fireNumber: real, annualReturn: real)
    returns (result: FireYears)
    ensures result == FireYearsOf(currentNetWorth, monthlyContribution, fireNumber, annualReturn)
  {
    if currentNetWorth >= fireNumber {
      return Years(0);
    }
    if monthlyContribution <= 0.0 && currentNetWorth <= 0.0 {
      return Never;
    }
    if monthlyContribution <= 0.0 {
      return GrowthOnly(fireNumber / currentNetWorth, annualReturn);
    }
    var years := 0;
    var balance := currentNetWorth;
    while balance < fireNumber && years < MaxFireYears
      invariant 0 <= years <= MaxFireYears
      invariant balance == YearEnd(currentNetWorth, monthlyContribution, annualReturn, years)
      invariant forall j :: 0 <= j < years ==> YearEnd(currentNetWorth, monthlyContribution, annualReturn, j) < fireNumber
      decreases MaxFireYears - years
    {
      balance := GrowOneYear(currentNetWorth, monthlyContribution, annualReturn, years, balance);
      years := years + 1;
    }
    StopYearUnique(currentNetWorth, monthlyContribution, fireNumber, annualReturn, years);
    result := if years >= MaxFireYears then Never else Years(years);
  }

  // ---------------------------------------------------------------------------
  // Targets and projection
  // ---------------------------------------------------------------------------

  /** `amount / (1 + annualReturn) ^ years`, kept symbolic. */
  datatype Discounted = Discounted(amount: real, annualReturn: real, years: real)

  datatype FIRETargets = FIRETargets(leanFIRE: real, coastFIRE: Discounted, regularFIRE: real, fatFIRE: real)

  /** `calculateFIRETargets`: regular FIRE is 25 years of expenses, lean FIRE
      60% of it, fat FIRE twice it, and coast FIRE regular FIRE discounted to
      today over the years to retirement. */
  function CalculateFIRETargets(monthlyExpenses: real, currentAge: real, retirementAge: real, annualReturn: real)
    : (t: FIRETargets)
    ensures t.regularFIRE == FIRENumber(monthlyExpenses, 0.04)
    ensures t.leanFIRE == 0.6 * t.regularFIRE
    ensures t.fatFIRE == 2.0 * t.regularFIRE
    ensures t.coastFIRE == Discounted(t.regularFIRE, annualReturn, retirementAge - currentAge)
    ensures 0.0 <= monthlyExpenses ==> t.leanFIRE <= t.regularFIRE <= t.fatFIRE
  {
    var annualExpenses := monthlyExpenses * 12.0;
    var leanExpenses := annualExpenses * 0.6;
    var fatExpenses := annualExpenses * 2.0;
    var yearsToRetirement := retirementAge - currentAge;
    var regularFIRE := annualExpenses * 25.0;
    FIRETargets(leanExpenses * 25.0, Discounted(regularFIRE, annualReturn, yearsToRetirement), regularFIRE, fatExpenses * 25.0)
  }

  datatype Projection = Projection(year: nat, value: real)

  /** Entry `k` of the projection: the start value as given for year 0, the
      rounded year-end balance afterwards. */
  function ProjectedValue(start: real, contribution: real, annualReturn: real, k: nat): real {
    if k == 0 then start else Round(YearEnd(start, contribution, annualReturn, k)) as real
  }

  /** One year of the projection's inner loop: twelve monthly steps. */
  method GrowOneYear(ghost start: real, contribution: real, annualReturn: real, ghost y: nat, balance: real)
    returns (b: real)
    requires balance == Grow(start, contribution, annualReturn, 12 * y)
    ensures b == Grow(start, contribution, annualReturn, 12 * (y + 1))
  {
    b := balance;
    var monthlyRate := annualReturn / 12.0;
    for month := 0 to 12
      invariant b == Grow(start, contribution, annualReturn, 12 * y + month)
    {
      b := b * (1.0 + monthlyRate) + contribution;
    }
  }

  /** `projectFutureNetWorth`: one entry per year from 0 to `years`. */
  method ProjectFutureNetWorth(currentNetWorth: real, monthlyContribution: real, years: int, annualReturn: real)
    returns (projections: seq<Projection>)
    ensures |projections| == (if years > 0 then years else 0) + 1
    ensures forall k :: 0 <= k < |projections| ==>
              projections[k] == Projection(k, ProjectedValue(currentNetWorth, monthlyContribution, annualReturn, k))
  {
    var balance := currentNetWorth;
    projections := [Projection(0, balance)];
    var year := 1;
    while year <= years
      invariant 1 <= year && (years > 0 ==> year <= years + 1) && (years <= 0 ==> year == 1)
      invariant |projections| == year
      invariant balance == YearEnd(currentNetWorth, monthlyContribution, annualReturn, year - 1)
      invariant forall k :: 0 <= k < |projections| ==>
                  projections[k] == Projection(k, ProjectedValue(currentNetWorth, monthlyContribution, annualReturn, k))
    {
      balance := GrowOneYear(currentNetWorth, monthlyContribution, annualReturn, year - 1, balance);
      projections := projections + [Projection(year, Round(balance) as real)];
      year := year + 1;
    }
  }

  /** From year 1 on, with nothing negative, the projection never decreases. */
  lemma ProjectionNondecreasing(start: real, contribution: real, annualReturn: real, j: nat, k: nat)
    requires 0.0 <= start && 0.0 <= contribution && 0.0 <= annualReturn
    requires 1 <= j <= k
    ensures ProjectedValue(start, contribution, annualReturn, j) <= ProjectedValue(start, contribution, annualReturn, k)
  {
    GrowMonotone(start, contribution, annualReturn, 12 * j, 12 * k);
    RoundMonotone(YearEnd(start, contribution, annualReturn, j), YearEnd(start, contribution, annualReturn, k));
  }

  /** Year 0 is not rounded, so the list can dip between years 0 and 1 even
      with nothing negative: a start of 10.3 with no growth and no
      contribution is followed by 10. */
  lemma ProjectionStartNotRounded()
    ensures ProjectedValue(10.3, 0.0, 0.0, 1) < ProjectedValue(10.3, 0.0, 0.0, 0)
  {
    GrowWithoutInterest(10.3, 0.0, 12);
  }

  // ---------------------------------------------------------------------------
  // Averages
  // ---------------------------------------------------------------------------

  function TotalIncome(entries: seq<MonthlyEntry>): real {
    if entries == [] then 0.0 else TotalIncome(entries[..|entries| - 1]) + entries[|entries| - 1].income
  }

  function TotalExpenses(entries: seq<MonthlyEntry>): real {
    if entries == [] then 0.0 else TotalExpenses(entries[..|entries| - 1]) + entries[|entries| - 1].expenses
  }

  /** `calculateAverageMonthlyExpenses`: 0 with no entries, else the mean. */
  function AverageMonthlyExpenses(entries: seq<MonthlyEntry>): (r: real)
    ensures entries == [] ==> r == 0.0
    ensures r * |entries| as real == TotalExpenses(entries)
  {
    if |entries| == 0 then 0.0 else TotalExpenses(entries) / |entries| as real
  }

  /** `calculateAverageMonthlyIncome`: 0 with no entries, else the mean. */
  function AverageMonthlyIncome(entries: seq<MonthlyEntry>): (r: real)
    ensures entries == [] ==> r == 0.0
    ensures r * |entries| as real == TotalIncome(entries)
  {
    if |entries| == 0 then 0.0 else TotalIncome(entries) / |entries| as real
  }

  /** `calculateAverageSavingsRate`: the savings rate of the mean income and
      mean expenses; the empty-list guard agrees with the rate's own guard. */
  function AverageSavingsRate(entries: seq<MonthlyEntry>): (r: real)
    ensures r == SavingsRate(AverageMonthlyIncome(entries), AverageMonthlyExpenses(entries))
    ensures 0.0 <= r <= 100.0
  {
    if |entries| == 0 then 0.0
    else SavingsRate(AverageMonthlyIncome(entries), AverageMonthlyExpenses(entries))
  }

  /** Two quotients are equal when their cross products are. */
  lemma QuotientsEqual(p: real, q: real, r: real, s: real)
    requires q != 0.0 && s != 0.0 && p * s == r * q
    ensures p / q == r / s
  {
    var x, y := p / q, r / s;
    assert p == x * q && r == y * s;
    assert (x - y) * (q * s) == 0.0;
  }

  /** Averaging does not change the rate: it is the savings rate of the totals. */
  lemma AverageSavingsRateOfTotals(entries: seq<MonthlyEntry>)
    ensures AverageSavingsRate(entries) == SavingsRate(TotalIncome(entries), TotalExpenses(entries))
  {
    if |entries| > 0 {
      var n := |entries| as real;
      var i, e := TotalIncome(entries), TotalExpenses(entries);
      var ai, ae := AverageMonthlyIncome(entries), AverageMonthlyExpenses(entries);
      assert ai * n == i && ae * n == e;
      if i > 0.0 {
        assert ai > 0.0 by {
          if ai <= 0.0 {
            MulNonnegative(-ai, n);
          }
        }
        assert (ai - ae) / ai == (i - e) / i by {
          assert (ai - ae) * i == (i - e) * ai;
          QuotientsEqual(ai - ae, ai, i - e, i);
        }
      } else {
        assert ai <= 0.0 by {
          if ai > 0.0 {
            MulNonnegative(ai, n);
          }
        }
      }
    }
  }
}
