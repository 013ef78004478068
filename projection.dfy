/** The market projection: rent, population index and household index of a ward
    at five checkpoints, 2025 to 2045. */
module Projection {
  import opened Errors
  import opened Numeric
  import opened Wards

  /** One projected checkpoint. The indices are the exact values, before display rounding. */
  datatype ProjectionPoint = ProjectionPoint(year: int, rent: int, popIndex: real, hhIndex: real)

  /** The checkpoint years. */
  const Years: seq<int> := [2025, 2030, 2035, 2040, 2045]

  /** Room sizes the area slider offers, in square metres. */
  predicate ValidRoom(room: int)
  {
    15 <= room <= 80
  }

  /** Interpolation fraction of checkpoint i: 0 in 2025, 1 in 2045. */
  function Fraction(i: nat): (t: real)
    ensures i <= 4 ==> 0.0 <= t <= 1.0
    ensures i == 0 ==> t == 0.0
    ensures i == 4 ==> t == 1.0
  {
    i as real / 4.0
  }

  /** Index (base 100 in 2025) at checkpoint i of a quantity whose 2045 ratio is ratio. */
  function IndexAt(ratio: real, i: nat): (r: real)
    ensures i == 0 ==> r == 100.0
    ensures i == 4 ==> r == 100.0 * ratio
    ensures r == (1.0 - Fraction(i)) * 100.0 + Fraction(i) * (100.0 * ratio)
  {
    100.0 * (1.0 + (ratio - 1.0) * Fraction(i))
  }

  /** Share of the 2045 household growth passed on to rent: 40% of it. */
  function DemandImpact(w: WardProfile): (d: real)
    ensures w.hhIdx > 0.0 ==> d > -0.4
    ensures w.hhIdx >= 1.0 ==> d >= 0.0
    ensures w.hhIdx <= 1.0 ==> d <= 0.0
  {
    (w.hhIdx - 1.0) * 0.4
  }

  /** Demand factor at checkpoint i; above 0.6 whenever the household ratio is positive. */
  function DemandFactor(w: WardProfile, i: nat): (f: real)
    ensures i == 0 ==> f == 1.0
    ensures w.hhIdx > 0.0 && i <= 4 ==> f > 0.6
  {
    1.0 + DemandImpact(w) * Fraction(i)
  }

  /** Inflation compounded annually over the 5 * i years elapsed at checkpoint i. */
  function InflationFactor(rate: real, i: nat): (f: real)
    ensures i == 0 ==> f == 1.0
    ensures rate >= 0.0 ==> f >= 1.0
  {
    Pow(1.0 + rate, 5 * i)
  }

  /** Current market rent of a room: rent per area times the room size. For a room
      from the slider it lies between 15 and 80 times the rent per area. */
  function CurrentRent(w: WardProfile, room: int): (r: int)
    ensures w.rentPerArea >= 0 && ValidRoom(room) ==> 15 * w.rentPerArea <= r <= 80 * w.rentPerArea
  {
    ScaleBounds(w.rentPerArea, room, 15, 80);
    w.rentPerArea * room
  }

  /** Untruncated projected rent at checkpoint i: current rent scaled by demand and inflation.
      It starts at the current rent and is never negative for valid inputs. */
  function RentValue(w: WardProfile, room: int, rate: real, i: nat): (x: real)
    ensures i == 0 ==> x == CurrentRent(w, room) as real
    ensures Positive(w) && room >= 0 && rate >= 0.0 && i <= 4 ==> x >= 0.0
  {
    ScaleBounds(w.rentPerArea, room, 0, room);
    Product3NonNeg(CurrentRent(w, room) as real, DemandFactor(w, i), InflationFactor(rate, i));
    Product3(CurrentRent(w, room) as real, DemandFactor(w, i), InflationFactor(rate, i))
  }

  /** Projected monthly rent at checkpoint i, truncated to whole yen. */
  function RentAt(w: WardProfile, room: int, rate: real, i: nat): (r: int)
    ensures i == 0 ==> r == CurrentRent(w, room)
    ensures Positive(w) && room >= 0 && rate >= 0.0 && i <= 4 ==>
      r >= 0 && r == RentValue(w, room, rate, i).Floor
  {
    TruncOfInt(CurrentRent(w, room));
    Trunc(RentValue(w, room, rate, i))
  }

  /** The projected point of checkpoint i. */
  function PointAt(w: WardProfile, room: int, rate: real, i: nat): (p: ProjectionPoint)
    requires i < |Years|
    ensures p.year == 2025 + 5 * i
    ensures i == 0 ==> p.rent == CurrentRent(w, room) && p.popIndex == 100.0 && p.hhIndex == 100.0
    ensures i == 4 ==> p.popIndex == 100.0 * w.popIdx && p.hhIndex == 100.0 * w.hhIdx
  {
    ProjectionPoint(Years[i], RentAt(w, room, rate, i), IndexAt(w.popIdx, i), IndexAt(w.hhIdx, i))
  }

  /** The whole projection: one point per checkpoint year, in year order. */
  function Projected(w: WardProfile, room: int, rate: real): (ps: seq<ProjectionPoint>)
    ensures |ps| == |Years|
    ensures forall i :: 0 <= i < |ps| ==> ps[i] == PointAt(w, room, rate, i)
    ensures forall i :: 0 <= i < |ps| ==> ps[i].year == 2025 + 5 * i
  {
    seq(|Years|, i requires 0 <= i < |Years| => PointAt(w, room, rate, i))
  }

  /** The projection loop: appends one point per checkpoint year. */
  method Project(w: WardProfile, room: int, rate: real) returns (sims: seq<ProjectionPoint>)
    ensures sims == Projected(w, room, rate)
    ensures |sims| == |Years| && forall i :: 0 <= i < |sims| ==> sims[i].year == Years[i]
  {
    sims := [];
    for i := 0 to |Years|
      invariant |sims| == i
      invariant forall k :: 0 <= k < i ==> sims[k] == PointAt(w, room, rate, k)
    {
      var year := Years[i];
      var popSim := 100.0 * (1.0 + (w.popIdx - 1.0) * (i as real / 4.0));
      var hhSim := 100.0 * (1.0 + (w.hhIdx - 1.0) * (i as real / 4.0));
      var demandImpact := (w.hhIdx - 1.0) * 0.4;
      var infFactor := Pow(1.0 + rate, i * 5);
      var currentRentBase := w.rentPerArea * room;
      var futureRent := Trunc(currentRentBase as real * (1.0 + demandImpact * (i as real / 4.0)) * infFactor);
      sims := sims + [ProjectionPoint(year, futureRent, popSim, hhSim)];
    }
  }

  /** Checkpoint years strictly ascend, five years apart. */
  lemma YearsAscend(w: WardProfile, room: int, rate: real, i: nat, j: nat)
    requires i < j < |Years|
    ensures Projected(w, room, rate)[i].year < Projected(w, room, rate)[j].year
    ensures Projected(w, room, rate)[j].year - Projected(w, room, rate)[i].year == 5 * (j - i)
  {
  }

  /** The demand factor moves with the checkpoint in the direction of household growth. */
  lemma DemandFactorMonotone(w: WardProfile, i: nat, j: nat)
    requires w.hhIdx > 0.0
    requires i <= j <= 4
    ensures w.hhIdx >= 1.0 ==> DemandFactor(w, i) <= DemandFactor(w, j)
    ensures w.hhIdx <= 1.0 ==> DemandFactor(w, j) <= DemandFactor(w, i)
  {
    var d, ti, tj := DemandImpact(w), Fraction(i), Fraction(j);
    assert DemandFactor(w, j) - DemandFactor(w, i) == d * (tj - ti);
    if w.hhIdx >= 1.0 {
      NonNegProduct(d, tj - ti);
    }
    if w.hhIdx <= 1.0 {
      NonNegProduct(-d, tj - ti);
    }
  }

  /** The untruncated rent grows with the checkpoint when households do not shrink
      and prices do not fall. */
  lemma RentValueNondecreasing(w: WardProfile, room: int, rate: real, i: nat, j: nat)
    requires Positive(w) && w.hhIdx >= 1.0
    requires room >= 0 && rate >= 0.0
    requires i <= j <= 4
    ensures 0.0 <= RentValue(w, room, rate, i) <= RentValue(w, room, rate, j)
  {
    NonNegProduct(w.rentPerArea as real, room as real);
    DemandFactorMonotone(w, i, j);
    PowMonotone(1.0 + rate, 5 * i, 5 * j);
    ProductMonotone(CurrentRent(w, room) as real, DemandFactor(w, i), DemandFactor(w, j),
                    InflationFactor(rate, i), InflationFactor(rate, j));
  }

  /** Rent grows with the checkpoint when households do not shrink and prices do not fall. */
  lemma RentNondecreasing(w: WardProfile, room: int, rate: real, i: nat, j: nat)
    requires Positive(w) && w.hhIdx >= 1.0
    requires room >= 0 && rate >= 0.0
    requires i <= j <= 4
    ensures RentAt(w, room, rate, i) <= RentAt(w, room, rate, j)
  {
    RentValueNondecreasing(w, room, rate, i, j);
    TruncMonotone(RentValue(w, room, rate, i), RentValue(w, room, rate, j));
  }

  /** Without inflation, the untruncated rent does not grow when households do not grow. */
  lemma RentValueNonincreasingWithoutInflation(w: WardProfile, room: int, i: nat, j: nat)
    requires Positive(w) && w.hhIdx <= 1.0
    requires room >= 0
    requires i <= j <= 4
    ensures 0.0 <= RentValue(w, room, 0.0, j) <= RentValue(w, room, 0.0, i)
  {
    NonNegProduct(w.rentPerArea as real, room as real);
    DemandFactorMonotone(w, i, j);
    PowOfOne(5 * i);
    PowOfOne(5 * j);
    ProductMonotone(CurrentRent(w, room) as real, DemandFactor(w, j), DemandFactor(w, i),
                    InflationFactor(0.0, j), InflationFactor(0.0, i));
  }

  /** Without inflation, shrinking household numbers make rent non-increasing. */
  lemma RentNonincreasingWithoutInflation(w: WardProfile, room: int, i: nat, j: nat)
    requires Positive(w) && w.hhIdx <= 1.0
    requires room >= 0
    requires i <= j <= 4
    ensures RentAt(w, room, 0.0, j) <= RentAt(w, room, 0.0, i)
  {
    RentValueNonincreasingWithoutInflation(w, room, i, j);
    TruncMonotone(RentValue(w, room, 0.0, j), RentValue(w, room, 0.0, i));
  }

  /** Every power of one is one. */
  lemma {:induction false} PowOfOne(n: nat)
    ensures Pow(1.0, n) == 1.0
  {
    if n > 0 {
      PowOfOne(n - 1);
    }
  }

  /** The series of projected rents is non-decreasing under the same conditions. */
  lemma ProjectedRentsNondecreasing(w: WardProfile, room: int, rate: real)
    requires Positive(w) && w.hhIdx >= 1.0
    requires room >= 0 && rate >= 0.0
    ensures forall i, j :: 0 <= i <= j < |Years| ==>
      Projected(w, room, rate)[i].rent <= Projected(w, room, rate)[j].rent
  {
    var ps := Projected(w, room, rate);
    forall i, j | 0 <= i <= j < |Years|
      ensures ps[i].rent <= ps[j].rent
    {
      RentNondecreasing(w, room, rate, i, j);
    }
  }

  /** The first projected rent is the current market rent shown beside the chart,
      and it is positive for a positive ward and a room from the slider. */
  lemma FirstRentIsCurrent(w: WardProfile, room: int, rate: real)
    requires Positive(w) && ValidRoom(room)
    ensures Projected(w, room, rate)[0].rent == CurrentRent(w, room)
    ensures Projected(w, room, rate)[0].rent > 0
  {
  }

  /** Population and household indices start at 100 and end at 100 times the 2045 ratio. */
  lemma IndexEndpoints(w: WardProfile, room: int, rate: real)
    ensures Projected(w, room, rate)[0].popIndex == 100.0
    ensures Projected(w, room, rate)[0].hhIndex == 100.0
    ensures Projected(w, room, rate)[4].popIndex == 100.0 * w.popIdx
    ensures Projected(w, room, rate)[4].hhIndex == 100.0 * w.hhIdx
  {
  }

  /** Chiyoda, 25 square metres, no inflation: 135000 yen now and 148500 yen in 2045. */
  lemma ChiyodaWithoutInflation()
    ensures Projected(WardTable["千代田区"], 25, 0.0)[0].rent == 135000
    ensures Projected(WardTable["千代田区"], 25, 0.0)[4].rent == 148500
  {
    var w := WardTable["千代田区"];
    PowOfOne(20);
    assert DemandFactor(w, 4) == 1.1;
    assert CurrentRent(w, 25) == 135000;
    assert RentAt(w, 25, 0.0, 4) == Trunc(148500.0);
  }

  /** Growth of the last projected rent over the first, in percent; a first rent of zero
      is a division by zero. */
  function GrowthRate(sims: seq<ProjectionPoint>): (r: Result<real>)
    requires |sims| > 0
    ensures r.Err? <==> sims[0].rent == 0
    ensures r.Err? ==> r.error == DivisionByZero
    ensures r.Ok? ==> (1.0 + r.value / 100.0) * sims[0].rent as real == sims[|sims| - 1].rent as real
    ensures r.Ok? && sims[0].rent > 0 ==>
      (r.value >= 0.0 <==> sims[|sims| - 1].rent >= sims[0].rent) &&
      (r.value == 0.0 <==> sims[|sims| - 1].rent == sims[0].rent)
  {
    var first, last := sims[0].rent, sims[|sims| - 1].rent;
    if first == 0 then Err(DivisionByZero)
    else
      QuotientGrowth(first, last);
      Ok((last as real / first as real - 1.0) * 100.0)
  }

  /** The growth of a quotient over one, scaled back by the divisor, is the difference;
      with a positive divisor its sign is that of the difference. */
  lemma QuotientGrowth(first: int, last: int)
    requires first != 0
    ensures (last as real / first as real - 1.0) * first as real == last as real - first as real
    ensures first > 0 ==>
      (last as real / first as real - 1.0 >= 0.0 <==> last >= first) &&
      (last as real / first as real - 1.0 == 0.0 <==> last == first)
  {
    var g := last as real / first as real - 1.0;
    assert g * first as real == last as real - first as real;
    if first > 0 && last < first {
      NonNegProduct(-g, first as real);
    }
    if first > 0 && last > first {
      NonNegProduct(g, first as real);
    }
  }

  /** For a positive ward and a room from the slider the growth rate is defined, and it is
      non-negative when households do not shrink and prices do not fall. */
  lemma ProjectedGrowth(w: WardProfile, room: int, rate: real)
    requires Positive(w) && ValidRoom(room)
    ensures GrowthRate(Projected(w, room, rate)).Ok?
    ensures w.hhIdx >= 1.0 && rate >= 0.0 ==> GrowthRate(Projected(w, room, rate)).value >= 0.0
  {
    FirstRentIsCurrent(w, room, rate);
    if w.hhIdx >= 1.0 && rate >= 0.0 {
      RentNondecreasing(w, room, rate, 0, 4);
    }
  }
}
