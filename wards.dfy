/** The 23-ward reference table of Tokyo and the household-demand band of a ward. */
module Wards {
  import opened Errors

  /** One row of the table: asking rent per square metre in yen (2025), and the
      population and household ratios projected for 2045 against 2025 (1.0 = no change). */
  datatype WardProfile = WardProfile(rentPerArea: int, popIdx: real, hhIdx: real)

  /** Every figure of a profile is positive. */
  predicate Positive(w: WardProfile)
  {
    w.rentPerArea > 0 && w.popIdx > 0.0 && w.hhIdx > 0.0
  }

  /** The ward table, keyed by ward name. */
  const WardTable: map<string, WardProfile> := map[
    "千代田区" := WardProfile(5400, 1.22, 1.25),
    "中央区" := WardProfile(5000, 1.28, 1.32),
    "港区" := WardProfile(5800, 1.18, 1.22),
    "新宿区" := WardProfile(4400, 1.05, 1.09),
    "文京区" := WardProfile(4100, 1.02, 1.05),
    "台東区" := WardProfile(3900, 1.12, 1.15),
    "墨田区" := WardProfile(3600, 1.04, 1.08),
    "江東区" := WardProfile(3700, 1.14, 1.17),
    "品川区" := WardProfile(4200, 1.03, 1.07),
    "目黒区" := WardProfile(4500, 1.01, 1.05),
    "大田区" := WardProfile(3300, 0.98, 1.03),
    "世田谷区" := WardProfile(3800, 0.98, 1.04),
    "渋谷区" := WardProfile(5500, 1.12, 1.16),
    "中野区" := WardProfile(4000, 1.02, 1.06),
    "杉並区" := WardProfile(3600, 0.99, 1.03),
    "豊島区" := WardProfile(4100, 1.10, 1.13),
    "北区" := WardProfile(3400, 1.00, 1.04),
    "荒川区" := WardProfile(3300, 1.03, 1.07),
    "板橋区" := WardProfile(3100, 0.98, 1.03),
    "練馬区" := WardProfile(3000, 0.98, 1.02),
    "足立区" := WardProfile(2800, 0.92, 0.97),
    "葛飾区" := WardProfile(2700, 0.93, 0.98),
    "江戸川区" := WardProfile(2900, 0.95, 1.00)
  ]

  /** The ward names in the table's insertion order, as offered by the ward selector. */
  const WardNames: seq<string> := [
    "千代田区", "中央区", "港区", "新宿区", "文京区", "台東区", "墨田区", "江東区",
    "品川区", "目黒区", "大田区", "世田谷区", "渋谷区", "中野区", "杉並区", "豊島区",
    "北区", "荒川区", "板橋区", "練馬区", "足立区", "葛飾区", "江戸川区"
  ]

  /** The selector's list names every ward of the table exactly once. */
  lemma WardNamesCoverTable()
    ensures |WardNames| == 23
    ensures forall i, j :: 0 <= i < j < |WardNames| ==> WardNames[i] != WardNames[j]
    ensures forall name :: name in WardTable <==> name in WardNames
  {
  }

  /** Every entry of the table is positive; the cheapest asking rent is 2700 yen. */
  lemma TablePositive()
    ensures forall name :: name in WardTable ==> Positive(WardTable[name])
    ensures forall name :: name in WardTable ==> WardTable[name].rentPerArea >= 2700
    ensures exists name :: name in WardTable && WardTable[name].rentPerArea == 2700
  {
    assert WardTable["葛飾区"].rentPerArea == 2700;
  }

  /** The profile of a ward, or the lookup failure for a name not in the table. */
  function Lookup(name: string): (r: Result<WardProfile>)
    ensures r.Ok? <==> name in WardTable
    ensures r.Ok? ==> r.value == WardTable[name] && Positive(r.value)
    ensures r.Err? ==> r.error == InvalidWard
  {
    TablePositive();
    if name in WardTable then Ok(WardTable[name]) else Err(InvalidWard)
  }

  /** The three market-diagnosis bands, from strongest to weakest household demand. */
  datatype DemandBand = HighDemand | StableGrowth | Selective

  /** Band of a 2045 household ratio: first above 1.15, then from 1.05 up, otherwise the selective band. */
  function Classify(hhIdx: real): (b: DemandBand)
    ensures b == HighDemand <==> hhIdx > 1.15
    ensures b == StableGrowth <==> 1.05 <= hhIdx <= 1.15
    ensures b == Selective <==> hhIdx < 1.05
  {
    if hhIdx > 1.15 then HighDemand
    else if hhIdx >= 1.05 then StableGrowth
    else Selective
  }

  /** Position of a band, 0 for the strongest. */
  function Rank(b: DemandBand): nat
  {
    match b
    case HighDemand => 0
    case StableGrowth => 1
    case Selective => 2
  }

  /** A larger household ratio never falls into a weaker band. */
  lemma ClassifyMonotone(a: real, b: real)
    requires a <= b
    ensures Rank(Classify(b)) <= Rank(Classify(a))
  {
  }

  /** The table's wards on the band boundaries: 1.15 and 1.05 both fall in the middle band. */
  lemma BoundaryWards()
    ensures Classify(WardTable["台東区"].hhIdx) == StableGrowth
    ensures Classify(WardTable["文京区"].hhIdx) == StableGrowth
    ensures Classify(WardTable["目黒区"].hhIdx) == StableGrowth
    ensures Classify(WardTable["渋谷区"].hhIdx) == HighDemand
    ensures Classify(WardTable["世田谷区"].hhIdx) == Selective
  {
  }

  /** Exactly five wards of the table are in the high-demand band. */
  lemma HighDemandWards()
    ensures forall name :: name in WardTable && Classify(WardTable[name].hhIdx) == HighDemand <==>
      name in {"千代田区", "中央区", "港区", "江東区", "渋谷区"}
  {
  }
}
