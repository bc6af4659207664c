/**
 * The dashboard totaliser: one pass over the stored farm rows that counts
 * them, sums their three areas, and groups the cultivable area by state and
 * the crop areas by crop type.
 */
module Totalizers {
  import Farms

  /** A crop as stored in a farm row: its type name and its area. */
  datatype RowCrop = RowCrop(kind: string, totalArea: int)

  /** The columns of a stored farm row the totaliser reads. */
  datatype FarmRow = FarmRow(
    state: string,
    totalArea: int,
    cultivableArea: int,
    vegetationArea: int,
    crops: seq<RowCrop>)

  /** `FarmTotalizers`. */
  datatype Totals = Totals(
    numberOfFarms: nat,
    totalArea: int,
    totalCultivableArea: int,
    totalVegetationArea: int,
    totalCultivableAreaByState: map<string, int>,
    totalCultivableAreaByCrop: map<string, int>)

  // ---------------------------------------------------------------------------
  // Reference sums
  // ---------------------------------------------------------------------------

  /** A dictionary entry read the way a missing key adds up: as 0. */
  function Lookup(m: map<string, int>, k: string): int {
    if k in m then m[k] else 0
  }

  /** The sum of the total areas of the rows. */
  function AreaSum(rows: seq<FarmRow>): int {
    if rows == [] then 0 else AreaSum(rows[..|rows| - 1]) + rows[|rows| - 1].totalArea
  }

  /** The sum of the cultivable areas of the rows. */
  function CultivableSum(rows: seq<FarmRow>): int {
    if rows == [] then 0 else CultivableSum(rows[..|rows| - 1]) + rows[|rows| - 1].cultivableArea
  }

  /** The sum of the vegetation areas of the rows. */
  function VegetationSum(rows: seq<FarmRow>): int {
    if rows == [] then 0 else VegetationSum(rows[..|rows| - 1]) + rows[|rows| - 1].vegetationArea
  }

  /** The cultivable area of the rows in state `s`. */
  function StateSum(rows: seq<FarmRow>, s: string): int {
    if rows == [] then 0
    else StateSum(rows[..|rows| - 1], s) + (if rows[|rows| - 1].state == s then rows[|rows| - 1].cultivableArea else 0)
  }

  /** The states some row is in. */
  function States(rows: seq<FarmRow>): set<string> {
    set i | 0 <= i < |rows| :: rows[i].state
  }

  /** The area of the crops of type `k` in one crop list. */
  function CropArea(cs: seq<RowCrop>, k: string): int {
    if cs == [] then 0
    else CropArea(cs[..|cs| - 1], k) + (if cs[|cs| - 1].kind == k then cs[|cs| - 1].totalArea else 0)
  }

  /** The area of every crop of a crop list. */
  function CropListArea(cs: seq<RowCrop>): int {
    if cs == [] then 0 else CropListArea(cs[..|cs| - 1]) + cs[|cs| - 1].totalArea
  }

  /** The crop types of one crop list. */
  function Kinds(cs: seq<RowCrop>): set<string> {
    set j | 0 <= j < |cs| :: cs[j].kind
  }

  /** The area of the crops of type `k` over every row. */
  function CropTotal(rows: seq<FarmRow>, k: string): int {
    if rows == [] then 0 else CropTotal(rows[..|rows| - 1], k) + CropArea(rows[|rows| - 1].crops, k)
  }

  /** The crop types that occur in some row. */
  function CropKinds(rows: seq<FarmRow>): set<string> {
    set i, j | 0 <= i < |rows| && 0 <= j < |rows[i].crops| :: rows[i].crops[j].kind
  }

  /** The sum of the values of a dictionary. */
  ghost function MapSum(m: map<string, int>): int
    decreases |m.Keys|
  {
    if m == map[] then 0
    else
      var k :| k in m;
      m[k] + MapSum(m - {k})
  }

  // ---------------------------------------------------------------------------
  // The dictionaries the fold builds
  // ---------------------------------------------------------------------------

  /**
   * `t[k] = t[k] ? t[k] + x : x`: a missing key and a key holding 0 both
   * start from `x`, which is the same as adding `x` to 0.
   */
  function AddTo(m: map<string, int>, k: string, x: int): (r: map<string, int>)
    ensures r == m[k := Lookup(m, k) + x]
  {
    m[k := if k in m && m[k] != 0 then m[k] + x else x]
  }

  /** The by-state dictionary after folding `rows`. */
  function ByState(rows: seq<FarmRow>): map<string, int> {
    if rows == [] then map[]
    else AddTo(ByState(rows[..|rows| - 1]), rows[|rows| - 1].state, rows[|rows| - 1].cultivableArea)
  }

  /** The by-crop dictionary after the inner `forEach` over `cs`. */
  function AddCrops(m: map<string, int>, cs: seq<RowCrop>): map<string, int> {
    if cs == [] then m
    else AddTo(AddCrops(m, cs[..|cs| - 1]), cs[|cs| - 1].kind, cs[|cs| - 1].totalArea)
  }

  /** The by-crop dictionary after folding `rows`. */
  function ByCrop(rows: seq<FarmRow>): map<string, int> {
    if rows == [] then map[] else AddCrops(ByCrop(rows[..|rows| - 1]), rows[|rows| - 1].crops)
  }

  // ---------------------------------------------------------------------------
  // What the dictionaries hold
  // ---------------------------------------------------------------------------

  /** The by-state dictionary has a key exactly for each state, holding that state's cultivable area. */
  lemma {:induction false} ByStateCorrect(rows: seq<FarmRow>)
    ensures ByState(rows).Keys == States(rows)
    ensures forall s :: Lookup(ByState(rows), s) == StateSum(rows, s)
  {
    if rows != [] {
      var prefix := rows[..|rows| - 1];
      ByStateCorrect(prefix);
      assert States(rows) == States(prefix) + {rows[|rows| - 1].state} by {
        forall s | s in States(rows) ensures s in States(prefix) + {rows[|rows| - 1].state} {
          var i :| 0 <= i < |rows| && rows[i].state == s;
          if i < |rows| - 1 { assert prefix[i] == rows[i]; }
        }
        forall s | s in States(prefix) ensures s in States(rows) {
          var i :| 0 <= i < |prefix| && prefix[i].state == s;
          assert rows[i] == prefix[i];
        }
      }
    }
  }

  /** The inner loop adds each crop's area under its type and adds those types as keys. */
  lemma {:induction false} AddCropsCorrect(m: map<string, int>, cs: seq<RowCrop>)
    ensures AddCrops(m, cs).Keys == m.Keys + Kinds(cs)
    ensures forall k :: Lookup(AddCrops(m, cs), k) == Lookup(m, k) + CropArea(cs, k)
  {
    if cs != [] {
      var prefix := cs[..|cs| - 1];
      AddCropsCorrect(m, prefix);
      assert Kinds(cs) == Kinds(prefix) + {cs[|cs| - 1].kind} by {
        forall k | k in Kinds(cs) ensures k in Kinds(prefix) + {cs[|cs| - 1].kind} {
          var j :| 0 <= j < |cs| && cs[j].kind == k;
          if j < |cs| - 1 { assert prefix[j] == cs[j]; }
        }
        forall k | k in Kinds(prefix) ensures k in Kinds(cs) {
          var j :| 0 <= j < |prefix| && prefix[j].kind == k;
          assert cs[j] == prefix[j];
        }
      }
    }
  }

  /** The crop types of the rows: those of the earlier rows and those of the last one. */
  lemma CropKindsSnoc(rows: seq<FarmRow>)
    requires rows != []
    ensures CropKinds(rows) == CropKinds(rows[..|rows| - 1]) + Kinds(rows[|rows| - 1].crops)
  {
    var prefix := rows[..|rows| - 1];
    var last := rows[|rows| - 1];
    forall k | k in CropKinds(rows) ensures k in CropKinds(prefix) + Kinds(last.crops) {
      var i, j :| 0 <= i < |rows| && 0 <= j < |rows[i].crops| && rows[i].crops[j].kind == k;
      if i < |rows| - 1 { assert prefix[i] == rows[i]; }
    }
    forall k | k in CropKinds(prefix) ensures k in CropKinds(rows) {
      var i, j :| 0 <= i < |prefix| && 0 <= j < |prefix[i].crops| && prefix[i].crops[j].kind == k;
      assert rows[i] == prefix[i];
    }
    forall k | k in Kinds(last.crops) ensures k in CropKinds(rows) {
      var j :| 0 <= j < |last.crops| && last.crops[j].kind == k;
      assert rows[|rows| - 1].crops[j].kind == k;
    }
  }

  /** The by-crop dictionary has a key exactly for each crop type, holding that type's area over all rows. */
  lemma {:induction false} ByCropCorrect(rows: seq<FarmRow>)
    ensures ByCrop(rows).Keys == CropKinds(rows)
    ensures forall k :: Lookup(ByCrop(rows), k) == CropTotal(rows, k)
  {
    if rows != [] {
      var prefix := rows[..|rows| - 1];
      ByCropCorrect(prefix);
      AddCropsCorrect(ByCrop(prefix), rows[|rows| - 1].crops);
      CropKindsSnoc(rows);
    }
  }

  // ---------------------------------------------------------------------------
  // The dictionaries add up to the totals
  // ---------------------------------------------------------------------------

  /** Any key can be the one taken out first. */
  lemma {:induction false} MapSumRemove(m: map<string, int>, k: string)
    requires k in m
    ensures MapSum(m) == m[k] + MapSum(m - {k})
    decreases |m.Keys|
  {
    var j :| j in m && MapSum(m) == m[j] + MapSum(m - {j});
    if j != k {
      assert k in m - {j};
      MapSumRemove(m - {j}, k);
      assert j in m - {k};
      MapSumRemove(m - {k}, j);
      assert (m - {j}) - {k} == (m - {k}) - {j};
    }
  }

  /** Setting one entry changes the sum by the difference. */
  lemma MapSumUpdate(m: map<string, int>, k: string, v: int)
    ensures MapSum(m[k := v]) == MapSum(m) - Lookup(m, k) + v
  {
    MapSumRemove(m[k := v], k);
    assert m[k := v] - {k} == m - {k};
    if k in m {
      MapSumRemove(m, k);
    } else {
      assert m - {k} == m;
    }
  }

  /** Adding through the truthiness test adds `x` to the sum. */
  lemma AddToSum(m: map<string, int>, k: string, x: int)
    ensures MapSum(AddTo(m, k, x)) == MapSum(m) + x
  {
    MapSumUpdate(m, k, Lookup(m, k) + x);
  }

  /** The by-state values sum to the total cultivable area. */
  lemma {:induction false} ByStateSum(rows: seq<FarmRow>)
    ensures MapSum(ByState(rows)) == CultivableSum(rows)
  {
    if rows == [] {
      assert ByState(rows) == map[];
    } else {
      ByStateSum(rows[..|rows| - 1]);
      AddToSum(ByState(rows[..|rows| - 1]), rows[|rows| - 1].state, rows[|rows| - 1].cultivableArea);
    }
  }

  /** The inner loop adds the area of every crop to the sum. */
  lemma {:induction false} AddCropsSum(m: map<string, int>, cs: seq<RowCrop>)
    ensures MapSum(AddCrops(m, cs)) == MapSum(m) + CropListArea(cs)
  {
    if cs != [] {
      AddCropsSum(m, cs[..|cs| - 1]);
      AddToSum(AddCrops(m, cs[..|cs| - 1]), cs[|cs| - 1].kind, cs[|cs| - 1].totalArea);
    }
  }

  /**
   * When every row's cultivable area is the sum of its crop areas, as the
   * farm schema derives it, the by-crop values also sum to the total
   * cultivable area.
   */
  lemma {:induction false} ByCropSum(rows: seq<FarmRow>)
    requires forall i :: 0 <= i < |rows| ==> rows[i].cultivableArea == CropListArea(rows[i].crops)
    ensures MapSum(ByCrop(rows)) == CultivableSum(rows)
  {
    if rows == [] {
      assert ByCrop(rows) == map[];
    } else {
      var prefix := rows[..|rows| - 1];
      assert forall i :: 0 <= i < |prefix| ==> prefix[i] == rows[i];
      ByCropSum(prefix);
      AddCropsSum(ByCrop(prefix), rows[|rows| - 1].crops);
    }
  }

  // ---------------------------------------------------------------------------
  // Rows stored from validated farms
  // ---------------------------------------------------------------------------

  /** The row a validated farm is stored as. */
  function RowOf(r: Farms.FarmRecord): FarmRow {
    FarmRow(r.state, r.totalArea, r.cultivableArea, r.vegetationArea, RowCrops(r.crops))
  }

  function RowCrops(cs: seq<Farms.Crop>): (r: seq<RowCrop>)
    ensures |r| == |cs|
    ensures forall i :: 0 <= i < |cs| ==> r[i] == RowCrop(Farms.CropTypeValue(cs[i].kind), cs[i].totalArea)
  {
    if cs == [] then [] else RowCrops(cs[..|cs| - 1]) + [RowCrop(Farms.CropTypeValue(cs[|cs| - 1].kind), cs[|cs| - 1].totalArea)]
  }

  lemma {:induction false} RowCropsArea(cs: seq<Farms.Crop>)
    ensures CropListArea(RowCrops(cs)) == Farms.CropSum(cs)
  {
    if cs != [] {
      RowCropsArea(cs[..|cs| - 1]);
      assert RowCrops(cs)[..|cs| - 1] == RowCrops(cs[..|cs| - 1]);
    }
  }

  /** Rows stored from valid farms meet the premise of `ByCropSum`. */
  lemma ValidFarmRows(farms: seq<Farms.FarmRecord>)
    requires forall i :: 0 <= i < |farms| ==> Farms.FarmValid(farms[i])
    ensures forall i :: 0 <= i < |farms| ==> RowOf(farms[i]).cultivableArea == CropListArea(RowOf(farms[i]).crops)
  {
    forall i | 0 <= i < |farms| ensures RowOf(farms[i]).cultivableArea == CropListArea(RowOf(farms[i]).crops) {
      RowCropsArea(farms[i].crops);
    }
  }

  // ---------------------------------------------------------------------------
  // The fold
  // ---------------------------------------------------------------------------

  /** What the two folded dictionaries hold, gathered for the method below. */
  lemma DictionariesCorrect(rows: seq<FarmRow>)
    ensures ByState(rows).Keys == States(rows)
    ensures forall s :: s in ByState(rows) ==> ByState(rows)[s] == StateSum(rows, s)
    ensures ByCrop(rows).Keys == CropKinds(rows)
    ensures forall k :: k in ByCrop(rows) ==> ByCrop(rows)[k] == CropTotal(rows, k)
    ensures MapSum(ByState(rows)) == CultivableSum(rows)
    ensures (forall i :: 0 <= i < |rows| ==> rows[i].cultivableArea == CropListArea(rows[i].crops)) ==>
      MapSum(ByCrop(rows)) == CultivableSum(rows)
  {
    ByStateCorrect(rows);
    ByCropCorrect(rows);
    ByStateSum(rows);
    if forall i :: 0 <= i < |rows| ==> rows[i].cultivableArea == CropListArea(rows[i].crops) {
      ByCropSum(rows);
    }
  }

  /** `getTotalizers` over the rows the query returns. */
  method GetTotalizers(rows: seq<FarmRow>) returns (t: Totals)
    ensures t.numberOfFarms == |rows|
    ensures t.totalArea == AreaSum(rows)
    ensures t.totalCultivableArea == CultivableSum(rows)
    ensures t.totalVegetationArea == VegetationSum(rows)
    ensures t.totalCultivableAreaByState.Keys == States(rows)
    ensures forall s :: s in t.totalCultivableAreaByState ==> t.totalCultivableAreaByState[s] == StateSum(rows, s)
    ensures t.totalCultivableAreaByCrop.Keys == CropKinds(rows)
    ensures forall k :: k in t.totalCultivableAreaByCrop ==> t.totalCultivableAreaByCrop[k] == CropTotal(rows, k)
    ensures MapSum(t.totalCultivableAreaByState) == t.totalCultivableArea
    ensures (forall i :: 0 <= i < |rows| ==> rows[i].cultivableArea == CropListArea(rows[i].crops)) ==>
      MapSum(t.totalCultivableAreaByCrop) == t.totalCultivableArea
  {
    var numberOfFarms := 0;
    var totalArea := 0;
    var totalCultivableArea := 0;
    var totalVegetationArea := 0;
    var byState: map<string, int> := map[];
    var byCrop: map<string, int> := map[];
    var i := 0;
    while i < |rows|
      invariant 0 <= i <= |rows|
      invariant numberOfFarms == i
      invariant totalArea == AreaSum(rows[..i])
      invariant totalCultivableArea == CultivableSum(rows[..i])
      invariant totalVegetationArea == VegetationSum(rows[..i])
      invariant byState == ByState(rows[..i])
      invariant byCrop == ByCrop(rows[..i])
    {
      var farm := rows[i];
      assert rows[..i + 1][..i] == rows[..i];
      numberOfFarms := numberOfFarms + 1;
      totalArea := totalArea + farm.totalArea;
      totalCultivableArea := totalCultivableArea + farm.cultivableArea;
      totalVegetationArea := totalVegetationArea + farm.vegetationArea;
      byState := AddTo(byState, farm.state, farm.cultivableArea);
      var j := 0;
      while j < |farm.crops|
        invariant 0 <= j <= |farm.crops|
        invariant byCrop == AddCrops(ByCrop(rows[..i]), farm.crops[..j])
      {
        var c := farm.crops[j];
        assert farm.crops[..j + 1][..j] == farm.crops[..j];
        byCrop := AddTo(byCrop, c.kind, c.totalArea);
        j := j + 1;
      }
      assert farm.crops[..j] == farm.crops;
      i := i + 1;
    }
    assert rows[..i] == rows;
    DictionariesCorrect(rows);
    t := Totals(numberOfFarms, totalArea, totalCultivableArea, totalVegetationArea, byState, byCrop);
  }
}
