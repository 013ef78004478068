/** The cash-flow simulation: net operating income and net yield for each projected point,
    and the initial gross yield of the purchase. */
module CashFlow {
  import opened Errors
  import opened Numeric
  import opened Projection

  /** The property's figures: purchase price in units of 10,000 yen, monthly
      management fee and repair reserve in yen, annual property and city-planning
      tax in yen, and the vacancy rate as a fraction. */
  datatype Financials = Financials(price: int, adminFee: int, taxAnnual: int, vacancy: real)

  /** One simulated year: its net operating income in yen and its net yield in percent
      (the exact value, before display rounding). */
  datatype CashFlowPoint = CashFlowPoint(year: int, noi: int, netYield: real)

  /** Vacancy rates the vacancy slider offers (0% to 10%, as a fraction). */
  predicate ValidVacancy(v: real)
  {
    0.0 <= v <= 0.10
  }

  /** Annual rent collected at monthly rent `rent` after the vacancy loss, truncated to whole yen. */
  function GrossRevenue(rent: int, vacancy: real): (g: int)
    ensures vacancy == 0.0 ==> g == rent * 12
    ensures rent >= 0 && vacancy <= 1.0 ==> g >= 0 && g == (rent as real * 12.0 * (1.0 - vacancy)).Floor
    ensures rent >= 0 && 0.0 <= vacancy <= 1.0 ==> g <= rent * 12
  {
    TruncOfInt(rent * 12);
    VacancyBounds(rent as real * 12.0, vacancy);
    Trunc(rent as real * 12.0 * (1.0 - vacancy))
  }

  /** Removing a vacancy share from a non-negative full amount leaves a value between zero
      and the full amount. */
  lemma VacancyBounds(full: real, vacancy: real)
    ensures full >= 0.0 && vacancy <= 1.0 ==> full * (1.0 - vacancy) >= 0.0
    ensures full >= 0.0 && vacancy >= 0.0 ==> full * (1.0 - vacancy) <= full
  {
    if full >= 0.0 && vacancy <= 1.0 {
      NonNegProduct(full, 1.0 - vacancy);
    }
    if full >= 0.0 && vacancy >= 0.0 {
      NonNegProduct(full, vacancy);
      assert full - full * (1.0 - vacancy) == full * vacancy;
    }
  }

  /** More rent never brings less gross revenue. */
  lemma GrossRevenueMonotone(rent1: int, rent2: int, vacancy: real)
    requires 0 <= rent1 <= rent2
    requires vacancy <= 1.0
    ensures GrossRevenue(rent1, vacancy) <= GrossRevenue(rent2, vacancy)
  {
    var x1, x2 := rent1 as real * 12.0, rent2 as real * 12.0;
    MulMonotone(x1, x2, 1.0 - vacancy, 1.0 - vacancy);
    NonNegProduct(x1, 1.0 - vacancy);
    TruncMonotone(x1 * (1.0 - vacancy), x2 * (1.0 - vacancy));
  }

  /** Yearly operating expenses: twelve months of fees plus the annual tax. */
  function OperatingExpenses(f: Financials): (e: int)
    ensures f.adminFee >= 0 && f.taxAnnual >= 0 ==> e >= 0
  {
    f.adminFee * 12 + f.taxAnnual
  }

  /** Net operating income: gross revenue less operating expenses, not clamped at zero. */
  function Noi(rent: int, f: Financials): (n: int)
    ensures rent >= 0 && 0.0 <= f.vacancy <= 1.0 ==> n <= rent * 12 - OperatingExpenses(f)
    ensures f.vacancy == 0.0 ==> n == rent * 12 - OperatingExpenses(f)
  {
    GrossRevenue(rent, f.vacancy) - OperatingExpenses(f)
  }

  /** An annual amount in yen as a percentage of a price given in units of 10,000 yen. */
  function YieldPercent(annual: int, price: int): (y: real)
    requires price != 0
    ensures y * (price as real * 10000.0) == annual as real * 100.0
    ensures price > 0 ==> (y > 0.0 <==> annual > 0) && (y < 0.0 <==> annual < 0)
  {
    annual as real / (price as real * 10000.0) * 100.0
  }

  /** On the same positive price the yield follows the order of the amounts:
      never smaller for a larger-or-equal amount, strictly larger for a larger one. */
  lemma YieldPercentMonotone(a1: int, a2: int, price: int)
    requires a1 <= a2
    requires price > 0
    ensures YieldPercent(a1, price) <= YieldPercent(a2, price)
    ensures a1 < a2 ==> YieldPercent(a1, price) < YieldPercent(a2, price)
  {
    var y1, y2 := YieldPercent(a1, price), YieldPercent(a2, price);
    var p := price as real * 10000.0;
    assert (y2 - y1) * p == (a2 - a1) as real * 100.0;
    if y2 <= y1 {
      NonNegProduct(y1 - y2, p);
    }
  }

  /** The cash-flow figures of one projected point; the price must not be zero. The year
      is the point's, the income is gross revenue less the operating expenses, and the net
      yield, times the price in yen, gives 100 times that income. */
  function PointCashFlow(p: ProjectionPoint, f: Financials): (c: CashFlowPoint)
    requires f.price != 0
    ensures c.year == p.year
    ensures c.noi == GrossRevenue(p.rent, f.vacancy) - OperatingExpenses(f)
    ensures c.netYield * (f.price as real * 10000.0) == c.noi as real * 100.0
    ensures f.price > 0 ==> (c.netYield > 0.0 <==> c.noi > 0) && (c.netYield < 0.0 <==> c.noi < 0)
  {
    var noi := Noi(p.rent, f);
    CashFlowPoint(p.year, noi, YieldPercent(noi, f.price))
  }

  /** The whole simulation: one result per projected point, in the same order; a zero
      price fails with a division by zero as soon as there is a point to evaluate. */
  function CashFlowOf(ps: seq<ProjectionPoint>, f: Financials): (r: Result<seq<CashFlowPoint>>)
    ensures r.Err? <==> |ps| > 0 && f.price == 0
    ensures r.Err? ==> r.error == DivisionByZero
    ensures r.Ok? ==> |r.value| == |ps|
    ensures r.Ok? ==> forall i :: 0 <= i < |ps| ==> r.value[i].year == ps[i].year
  {
    if |ps| > 0 && f.price == 0 then Err(DivisionByZero)
    else Ok(seq(|ps|, i requires 0 <= i < |ps| => PointCashFlow(ps[i], f)))
  }

  /** The cash-flow loop: evaluates each projected point in turn and appends its figures. */
  method ComputeCashFlow(sims: seq<ProjectionPoint>, f: Financials) returns (res: Result<seq<CashFlowPoint>>)
    ensures res == CashFlowOf(sims, f)
  {
    var results: seq<CashFlowPoint> := [];
    for i := 0 to |sims|
      invariant |results| == i
      invariant i > 0 ==> f.price != 0
      invariant forall k :: 0 <= k < i ==> f.price != 0 && results[k] == PointCashFlow(sims[k], f)
    {
      var row := sims[i];
      var grossRevenue := Trunc(row.rent as real * 12.0 * (1.0 - f.vacancy));
      var operatingExpenses := f.adminFee * 12 + f.taxAnnual;
      var noi := grossRevenue - operatingExpenses;
      if f.price == 0 {
        return Err(DivisionByZero);
      }
      var netYield := noi as real / (f.price as real * 10000.0) * 100.0;
      assert CashFlowPoint(row.year, noi, netYield) == PointCashFlow(row, f);
      results := results + [CashFlowPoint(row.year, noi, netYield)];
    }
    assert |sims| > 0 ==> f.price != 0;
    assert results == CashFlowOf(sims, f).value;
    return Ok(results);
  }

  /** Each year's income is its gross revenue less the same operating expenses,
      so two years differ exactly by their gross revenues. */
  lemma ExpensesConstant(ps: seq<ProjectionPoint>, f: Financials, i: nat, j: nat)
    requires f.price != 0
    requires i < |ps| && j < |ps|
    ensures CashFlowOf(ps, f).Ok?
    ensures CashFlowOf(ps, f).value[i].noi == GrossRevenue(ps[i].rent, f.vacancy) - OperatingExpenses(f)
    ensures CashFlowOf(ps, f).value[i].noi - CashFlowOf(ps, f).value[j].noi ==
            GrossRevenue(ps[i].rent, f.vacancy) - GrossRevenue(ps[j].rent, f.vacancy)
  {
  }

  /** With a positive price, every net yield has the sign of its year's income. */
  lemma NetYieldSign(ps: seq<ProjectionPoint>, f: Financials, i: nat)
    requires f.price > 0
    requires i < |ps|
    ensures CashFlowOf(ps, f).Ok?
    ensures CashFlowOf(ps, f).value[i].netYield > 0.0 <==> CashFlowOf(ps, f).value[i].noi > 0
    ensures CashFlowOf(ps, f).value[i].netYield < 0.0 <==> CashFlowOf(ps, f).value[i].noi < 0
    ensures CashFlowOf(ps, f).value[i].netYield == 0.0 <==> CashFlowOf(ps, f).value[i].noi == 0
  {
  }

  /** Initial gross yield: twelve months of the first projected rent against the price,
      with no vacancy or expense deduction. */
  function InitialYield(sims: seq<ProjectionPoint>, price: int): (r: Result<real>)
    requires |sims| > 0
    ensures r.Err? <==> price == 0
    ensures r.Err? ==> r.error == DivisionByZero
    ensures r.Ok? ==> r.value * (price as real * 10000.0) == (sims[0].rent * 12) as real * 100.0
  {
    if price == 0 then Err(DivisionByZero) else Ok(YieldPercent(sims[0].rent * 12, price))
  }

  /** The gross yield is never below the first year's net yield when the rent, the fees
      and the tax are non-negative, the vacancy rate is a fraction and the price is positive. */
  lemma GrossYieldAtLeastNetYield(ps: seq<ProjectionPoint>, f: Financials)
    requires |ps| > 0 && ps[0].rent >= 0
    requires f.price > 0 && f.adminFee >= 0 && f.taxAnnual >= 0
    requires 0.0 <= f.vacancy <= 1.0
    ensures InitialYield(ps, f.price).Ok? && CashFlowOf(ps, f).Ok?
    ensures CashFlowOf(ps, f).value[0].netYield <= InitialYield(ps, f.price).value
  {
    YieldPercentMonotone(Noi(ps[0].rent, f), ps[0].rent * 12, f.price);
  }

  /** Over a projection whose rents do not fall, the yearly income does not fall either. */
  lemma NoiNondecreasing(ps: seq<ProjectionPoint>, f: Financials, i: nat, j: nat)
    requires f.price != 0 && f.vacancy <= 1.0
    requires i <= j < |ps|
    requires 0 <= ps[i].rent <= ps[j].rent
    ensures CashFlowOf(ps, f).Ok?
    ensures CashFlowOf(ps, f).value[i].noi <= CashFlowOf(ps, f).value[j].noi
  {
    GrossRevenueMonotone(ps[i].rent, ps[j].rent, f.vacancy);
  }

  /** The whole pipeline: for a positive ward with non-shrinking households, a room from
      the slider, non-negative inflation and a positive price, the simulation gives five
      years, 2025 to 2045, whose income never falls. */
  lemma PipelineNoiNondecreasing(w: Wards.WardProfile, room: int, rate: real, f: Financials)
    requires Wards.Positive(w) && w.hhIdx >= 1.0
    requires ValidRoom(room) && rate >= 0.0
    requires f.price > 0 && ValidVacancy(f.vacancy)
    ensures CashFlowOf(Projected(w, room, rate), f).Ok?
    ensures |CashFlowOf(Projected(w, room, rate), f).value| == 5
    ensures forall i :: 0 <= i < 5 ==> CashFlowOf(Projected(w, room, rate), f).value[i].year == 2025 + 5 * i
    ensures forall i, j :: 0 <= i <= j < 5 ==>
      CashFlowOf(Projected(w, room, rate), f).value[i].noi <= CashFlowOf(Projected(w, room, rate), f).value[j].noi
  {
    var ps := Projected(w, room, rate);
    forall i, j | 0 <= i <= j < 5
      ensures CashFlowOf(ps, f).value[i].noi <= CashFlowOf(ps, f).value[j].noi
    {
      RentNondecreasing(w, room, rate, 0, i);
      RentNondecreasing(w, room, rate, i, j);
      NoiNondecreasing(ps, f, i, j);
    }
  }

  /** A property at 3,500 (x 10,000) yen renting at 135,000 yen a month with 5% vacancy,
      12,000 yen monthly fees and 80,000 yen tax: income 1,315,000 yen, a net yield of
      263/70 percent (3.757...), and a gross yield of 324/70 percent (4.628...). */
  lemma DefaultPropertyScenario()
    ensures GrossRevenue(135000, 0.05) == 1539000
    ensures OperatingExpenses(Financials(3500, 12000, 80000, 0.05)) == 224000
    ensures CashFlowOf([ProjectionPoint(2025, 135000, 100.0, 100.0)], Financials(3500, 12000, 80000, 0.05))
            == Ok([CashFlowPoint(2025, 1315000, 263.0 / 70.0)])
    ensures InitialYield([ProjectionPoint(2025, 135000, 100.0, 100.0)], 3500) == Ok(324.0 / 70.0)
  {
    assert 135000 as real * 12.0 * (1.0 - 0.05) == 1539000.0;
    TruncOfInt(1539000);
    var cf := CashFlowOf([ProjectionPoint(2025, 135000, 100.0, 100.0)], Financials(3500, 12000, 80000, 0.05));
    assert cf.value == [CashFlowPoint(2025, 1315000, 263.0 / 70.0)];
  }
}
