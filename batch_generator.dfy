/** The synthetic batch generator of 1_Data_Generation/generate_synthetic_data.py.

    A batch is a frame of one row per minute. The golden profile gives each
    row its time index and three process channels; fault injection lowers
    some channels inside fixed time windows, writes the three quality values
    on the last row only and stamps the fault label on every row; the driver
    builds 80 Normal, 10 Door_Open and 10 Under_Mixed_Batter batches and
    numbers them C-1001, C-1002, ...

    Random draws are inputs. A uniform draw is given as a unit draw u with
    0 <= u < 1, and `uniform(low, high)` is low + (high - low) * u; Gaussian
    noise is any real. Channel values are reals. */
module BatchGenerator {
  import opened Tabular

  // Batch counts, run length and set points of the golden batch.
  const NormalBatches: nat := 80
  const DoorBatches: nat := 10
  const MixingBatches: nat := 10
  const TotalBatches: nat := NormalBatches + DoorBatches + MixingBatches
  const TimeSteps: nat := 60
  const TimeInterval: nat := 1

  const TempTarget: real := 175.0
  const BatterTempStart: real := 25.0
  const BatterTempEnd: real := 95.0
  const StirrerPowerBase: real := 5.0
  const StirrerPowerPeak: real := 20.0

  const CqaHeightTarget: real := 8.0
  const CqaMoistureTarget: real := 18.0
  const CqaDonenessPerfect: real := 1.0

  const FirstBatchNumber: nat := 1001

  /** One row of a batch frame. The quality columns, `Fault_Type` and
      `Batch_ID` are None where the frame has no value (NaN), which is also
      how they stand before the column exists. */
  datatype Row = Row(
    timeMin: int,
    oven: real,
    batter: real,
    stirrer: real,
    finalHeight: Option<real>,
    finalMoisture: Option<real>,
    internalDoneness: Option<real>,
    faultType: Option<string>,
    batchId: Option<string>)

  predicate UnitDraws(u: seq<real>)
  {
    forall i :: 0 <= i < |u| ==> 0.0 <= u[i] < 1.0
  }

  /** How far into an interval of the given width the unit draw `u` lands. */
  function Offset(width: real, u: real): (p: real)
    requires width > 0.0 && 0.0 <= u < 1.0
    ensures 0.0 <= p < width
  {
    assert width * u <= width * 1.0 - width * (1.0 - u);
    width * u
  }

  /** `uniform(low, high)` driven by the unit draw `u`. */
  function Uniform(low: real, high: real, u: real): (x: real)
    requires low < high && 0.0 <= u < 1.0
    ensures low <= x < high
  {
    low + Offset(high - low, u)
  }

  // ---------------------------------------------------------------------
  // Golden profile

  /** `linspace(start, stop, n)`: n evenly spaced values, the first exactly
      `start` and the last exactly `stop`. */
  function Linspace(start: real, stop: real, n: nat): (r: seq<real>)
    ensures |r| == n
    ensures n >= 1 ==> r[0] == start
    ensures n >= 2 ==> r[n - 1] == stop
    ensures n >= 2 ==> forall i :: 0 <= i < n ==>
              r[i] == start + (i as real) * (stop - start) / ((n - 1) as real)
  {
    if n < 2 then seq(n, i => start)
    else
      var step := (stop - start) / ((n - 1) as real);
      assert ((n - 1) as real) * step == stop - start;
      seq(n, i requires 0 <= i < n => if i == n - 1 then stop else start + (i as real) * step)
  }

  predicate Baseline(r: Row)
  {
    r.finalHeight.None? && r.finalMoisture.None? && r.internalDoneness.None? &&
    r.faultType.None? && r.batchId.None?
  }

  /** The ideal trajectory plus the given noise: oven at its set point, batter
      and stirrer on linear ramps, one row per time step. */
  function GoldenProfile(timeSteps: nat, ovenNoise: seq<real>, batterNoise: seq<real>, stirrerNoise: seq<real>)
    : (rows: seq<Row>)
    requires |ovenNoise| == timeSteps && |batterNoise| == timeSteps && |stirrerNoise| == timeSteps
    ensures |rows| == timeSteps
    ensures forall i :: 0 <= i < timeSteps ==> rows[i].timeMin == i && Baseline(rows[i])
    ensures forall i :: 0 <= i < timeSteps ==>
              rows[i].oven - ovenNoise[i] == TempTarget &&
              rows[i].batter - batterNoise[i] == Linspace(BatterTempStart, BatterTempEnd, timeSteps)[i] &&
              rows[i].stirrer - stirrerNoise[i] == Linspace(StirrerPowerBase, StirrerPowerPeak, timeSteps)[i]
  {
    var batterRamp := Linspace(BatterTempStart, BatterTempEnd, timeSteps);
    var powerRamp := Linspace(StirrerPowerBase, StirrerPowerPeak, timeSteps);
    seq(timeSteps, i requires 0 <= i < timeSteps =>
      Row(i * TimeInterval, TempTarget + ovenNoise[i], batterRamp[i] + batterNoise[i],
          powerRamp[i] + stirrerNoise[i], None, None, None, None, None))
  }

  /** Before noise, the ramps of a 60-step batch run from 25.0 to 95.0 and
      from 5.0 to 20.0 in equal steps. */
  lemma GoldenRamps(i: nat)
    requires i < TimeSteps
    ensures Linspace(BatterTempStart, BatterTempEnd, TimeSteps)[0] == 25.0
    ensures Linspace(BatterTempStart, BatterTempEnd, TimeSteps)[TimeSteps - 1] == 95.0
    ensures Linspace(StirrerPowerBase, StirrerPowerPeak, TimeSteps)[0] == 5.0
    ensures Linspace(StirrerPowerBase, StirrerPowerPeak, TimeSteps)[TimeSteps - 1] == 20.0
    ensures Linspace(BatterTempStart, BatterTempEnd, TimeSteps)[i] == 25.0 + (i as real) * 70.0 / 59.0
    ensures Linspace(StirrerPowerBase, StirrerPowerPeak, TimeSteps)[i] == 5.0 + (i as real) * 15.0 / 59.0
  {
  }

  // ---------------------------------------------------------------------
  // Quality values (CQAs)

  /** A dictionary with Python's ordering rule: a new key goes last, and
      assigning to a key already present keeps its position. */
  type CqaDict = seq<(string, real)>

  /** The quality columns, in the order the last-row assignment lists them. */
  const CqaColumns: seq<string> := ["Final_Height", "Final_Moisture", "Internal_Doneness"]

  /** Unit draws one quality computation may consume. */
  const CqaDrawCount: nat := 5

  function DictKeys(d: CqaDict): (keys: seq<string>)
    ensures |keys| == |d|
    ensures forall i :: 0 <= i < |d| ==> keys[i] == d[i].0
  {
    if d == [] then [] else [d[0].0] + DictKeys(d[1..])
  }

  /** The values in key order, as `dict.values()` yields them. */
  function DictValues(d: CqaDict): (values: seq<real>)
    ensures |values| == |d|
    ensures forall i :: 0 <= i < |d| ==> values[i] == d[i].1
  {
    seq(|d|, i requires 0 <= i < |d| => d[i].1)
  }

  function DictGet(d: CqaDict, k: string): (v: Option<real>)
    ensures v.None? <==> k !in DictKeys(d)
  {
    if d == [] then None
    else if d[0].0 == k then Some(d[0].1)
    else
      assert DictKeys(d) == [d[0].0] + DictKeys(d[1..]);
      DictGet(d[1..], k)
  }

  /** `d[k] = v`. */
  function DictSet(d: CqaDict, k: string, v: real): (r: CqaDict)
    ensures DictKeys(r) == if k in DictKeys(d) then DictKeys(d) else DictKeys(d) + [k]
  {
    if d == [] then [(k, v)]
    else
      PairCons(d[0], d[1..]);
      assert [d[0]] + d[1..] == d;
      if d[0].0 == k then
        PairCons((k, v), d[1..]);
        [(k, v)] + d[1..]
      else
        var tail := DictSet(d[1..], k, v);
        PairCons(d[0], tail);
        assert k in DictKeys(d) <==> k in DictKeys(d[1..]);
        assert [d[0].0] + (DictKeys(d[1..]) + [k]) == ([d[0].0] + DictKeys(d[1..])) + [k];
        [d[0]] + tail
  }

  /** A dictionary with one pair in front: its first pair, the rest, and
      its keys. */
  lemma PairCons(p: (string, real), d: CqaDict)
    ensures ([p] + d)[0] == p && ([p] + d)[1..] == d
    ensures DictKeys([p] + d) == [p.0] + DictKeys(d)
  {
    assert ([p] + d)[1..] == d;
  }

  /** After `d[k] = v`, key k holds v and every other key holds what it
      held before. */
  lemma {:induction false} DictSetValues(d: CqaDict, k: string, v: real)
    ensures DictGet(DictSet(d, k, v), k) == Some(v)
    ensures forall k' :: k' != k ==> DictGet(DictSet(d, k, v), k') == DictGet(d, k')
  {
    if d != [] {
      var r := DictSet(d, k, v);
      if d[0].0 == k {
        PairCons((k, v), d[1..]);
        assert r[1..] == d[1..];
      } else {
        DictSetValues(d[1..], k, v);
        PairCons(d[0], DictSet(d[1..], k, v));
        assert r[1..] == DictSet(d[1..], k, v);
      }
    }
  }

  /** The quality values of a batch: the high-quality base case, overwritten
      field by field for the two fault types. Draws are consumed in call
      order: base height, base moisture, then the fault's three draws. */
  function CalculateCqa(fault: string, u: seq<real>): (d: CqaDict)
    requires |u| == CqaDrawCount && UnitDraws(u)
    ensures DictKeys(d) == CqaColumns
  {
    var base := [("Final_Height", Uniform(CqaHeightTarget - 0.2, CqaHeightTarget + 0.2, u[0])),
                 ("Final_Moisture", Uniform(CqaMoistureTarget - 0.5, CqaMoistureTarget + 0.5, u[1])),
                 ("Internal_Doneness", CqaDonenessPerfect)];
    assert DictKeys(base) == CqaColumns;
    if fault == "Door_Open" then
      var d1 := DictSet(base, "Final_Height", Uniform(6.5, 7.0, u[2]));
      var d2 := DictSet(d1, "Internal_Doneness", Uniform(3.5, 4.5, u[3]));
      DictSet(d2, "Final_Moisture", Uniform(19.0, 21.0, u[4]))
    else if fault == "Under_Mixed_Batter" then
      var d1 := DictSet(base, "Final_Height", Uniform(6.0, 6.7, u[2]));
      var d2 := DictSet(d1, "Final_Moisture", Uniform(20.0, 22.0, u[3]));
      DictSet(d2, "Internal_Doneness", Uniform(2.5, 3.5, u[4]))
    else base
  }

  /** Whatever order the branch assigned them in, the values come out in
      column order: the j-th value is the one stored under the j-th column. */
  lemma {:induction false} ValuesFollowColumns(d: CqaDict, j: nat)
    requires DictKeys(d) == CqaColumns && j < |CqaColumns|
    ensures DictGet(d, CqaColumns[j]) == Some(DictValues(d)[j])
  {
    assert d[0].0 == "Final_Height" && d[1].0 == "Final_Moisture" && d[2].0 == "Internal_Doneness";
    if j == 1 {
      assert DictGet(d, "Final_Moisture") == DictGet(d[1..], "Final_Moisture");
    } else if j == 2 {
      assert DictGet(d, "Internal_Doneness") == DictGet(d[1..], "Internal_Doneness");
      assert d[1..][1..] == d[2..];
      assert DictGet(d[1..], "Internal_Doneness") == DictGet(d[2..], "Internal_Doneness");
    }
  }

  /** The ranges each label draws its quality values from. */
  predicate CqaInRange(fault: string, height: real, moisture: real, doneness: real)
  {
    if fault == "Door_Open" then
      6.5 <= height < 7.0 && 19.0 <= moisture < 21.0 && 3.5 <= doneness < 4.5
    else if fault == "Under_Mixed_Batter" then
      6.0 <= height < 6.7 && 20.0 <= moisture < 22.0 && 2.5 <= doneness < 3.5
    else
      7.8 <= height < 8.2 && 17.5 <= moisture < 18.5 && doneness == 1.0
  }

  lemma CqaRanges(fault: string, u: seq<real>)
    requires |u| == CqaDrawCount && UnitDraws(u)
    ensures var d := CalculateCqa(fault, u);
      DictGet(d, "Final_Height").Some? && DictGet(d, "Final_Moisture").Some? &&
      DictGet(d, "Internal_Doneness").Some? &&
      CqaInRange(fault, DictGet(d, "Final_Height").value, DictGet(d, "Final_Moisture").value,
                 DictGet(d, "Internal_Doneness").value)
  {
    var base := [("Final_Height", Uniform(CqaHeightTarget - 0.2, CqaHeightTarget + 0.2, u[0])),
                 ("Final_Moisture", Uniform(CqaMoistureTarget - 0.5, CqaMoistureTarget + 0.5, u[1])),
                 ("Internal_Doneness", CqaDonenessPerfect)];
    if fault == "Door_Open" {
      ThreeSets(base, "Final_Height", Uniform(6.5, 7.0, u[2]), "Internal_Doneness", Uniform(3.5, 4.5, u[3]),
                "Final_Moisture", Uniform(19.0, 21.0, u[4]));
    } else if fault == "Under_Mixed_Batter" {
      ThreeSets(base, "Final_Height", Uniform(6.0, 6.7, u[2]), "Final_Moisture", Uniform(20.0, 22.0, u[3]),
                "Internal_Doneness", Uniform(2.5, 3.5, u[4]));
    } else {
      assert DictKeys(base) == CqaColumns;
      ValuesFollowColumns(base, 0);
      ValuesFollowColumns(base, 1);
      ValuesFollowColumns(base, 2);
    }
  }

  /** Three assignments to three different keys: each key ends up with the
      value assigned to it. */
  lemma ThreeSets(d: CqaDict, k1: string, v1: real, k2: string, v2: real, k3: string, v3: real)
    requires k1 != k2 && k1 != k3 && k2 != k3
    ensures var r := DictSet(DictSet(DictSet(d, k1, v1), k2, v2), k3, v3);
      DictGet(r, k1) == Some(v1) && DictGet(r, k2) == Some(v2) && DictGet(r, k3) == Some(v3)
  {
    var d1 := DictSet(d, k1, v1);
    var d2 := DictSet(d1, k2, v2);
    DictSetValues(d, k1, v1);
    DictSetValues(d1, k2, v2);
    DictSetValues(d2, k3, v3);
  }

  // ---------------------------------------------------------------------
  // Fault injection

  /** Door_Open, oven: 35.0 lower for 20 <= Time_Min <= 30. */
  function LowerOven(r: Row): Row
  {
    if 20 <= r.timeMin <= 30 then r.(oven := r.oven - 35.0) else r
  }

  /** Door_Open, batter: lower by a fresh uniform(10, 15) for Time_Min > 20. */
  function DrawBatter(r: Row, u: real): Row
    requires 0.0 <= u < 1.0
  {
    if r.timeMin > 20 then r.(batter := r.batter - Uniform(10.0, 15.0, u)) else r
  }

  /** Under_Mixed_Batter, stirrer: 7.0 lower for 5 <= Time_Min <= 15. */
  function LowerStirrer(r: Row): Row
  {
    if 5 <= r.timeMin <= 15 then r.(stirrer := r.stirrer - 7.0) else r
  }

  /** The process deviation of one row; labels other than the two faults
      match neither branch and change nothing. */
  function DeviateRow(r: Row, fault: string, u: real): Row
    requires 0.0 <= u < 1.0
  {
    if fault == "Door_Open" then DrawBatter(LowerOven(r), u)
    else if fault == "Under_Mixed_Batter" then LowerStirrer(r)
    else r
  }

  function Deviate(rows: seq<Row>, fault: string, units: seq<real>): (r: seq<Row>)
    requires |units| == |rows| && UnitDraws(units)
    ensures |r| == |rows|
    ensures forall i :: 0 <= i < |rows| ==> r[i] == DeviateRow(rows[i], fault, units[i])
  {
    seq(|rows|, i requires 0 <= i < |rows| => DeviateRow(rows[i], fault, units[i]))
  }

  /** The last-row assignment: the dictionary's values, in order, into the
      three quality columns of the last row. */
  function StampLast(rows: seq<Row>, d: CqaDict): (r: seq<Row>)
    requires |rows| > 0 && DictKeys(d) == CqaColumns
    ensures |r| == |rows| && r[..|rows| - 1] == rows[..|rows| - 1]
  {
    var values := DictValues(d);
    rows[|rows| - 1 := rows[|rows| - 1].(finalHeight := Some(values[0]),
                                          finalMoisture := Some(values[1]),
                                          internalDoneness := Some(values[2]))]
  }

  /** `df['Fault_Type'] = fault`: the label on every row. */
  function StampLabel(rows: seq<Row>, fault: string): (r: seq<Row>)
    ensures |r| == |rows|
    ensures forall i :: 0 <= i < |rows| ==> r[i] == rows[i].(faultType := Some(fault))
  {
    seq(|rows|, i requires 0 <= i < |rows| => rows[i].(faultType := Some(fault)))
  }

  /** The frame inject_fault leaves behind for a non-empty frame. */
  function Injected(rows: seq<Row>, fault: string, batterUnits: seq<real>, cqaUnits: seq<real>): seq<Row>
    requires |rows| > 0 && |batterUnits| == |rows| && UnitDraws(batterUnits)
    requires |cqaUnits| == CqaDrawCount && UnitDraws(cqaUnits)
  {
    StampLabel(StampLast(Deviate(rows, fault, batterUnits), CalculateCqa(fault, cqaUnits)), fault)
  }

  /** `df.loc[(Time_Min >= 20) & (Time_Min <= 30), 'Oven_Temp_Actual'] -= 35.0`. */
  method LowerOvenInPlace(df: array<Row>)
    modifies df
    ensures forall k :: 0 <= k < df.Length ==> df[k] == LowerOven(old(df[k]))
  {
    var startTime, endTime := 20, 30;
    var i := 0;
    while i < df.Length
      invariant 0 <= i <= df.Length
      invariant forall k :: 0 <= k < i ==> df[k] == LowerOven(old(df[k]))
      invariant forall k :: i <= k < df.Length ==> df[k] == old(df[k])
    {
      if startTime <= df[i].timeMin <= endTime {
        df[i] := df[i].(oven := df[i].oven - 35.0);
      }
      i := i + 1;
    }
  }

  /** The row-wise batter update of Door_Open, one draw per selected row. */
  method DrawBatterInPlace(df: array<Row>, batterUnits: seq<real>)
    requires |batterUnits| == df.Length && UnitDraws(batterUnits)
    modifies df
    ensures forall k :: 0 <= k < df.Length ==> df[k] == DrawBatter(old(df[k]), batterUnits[k])
  {
    var startTime := 20;
    var i := 0;
    while i < df.Length
      invariant 0 <= i <= df.Length
      invariant forall k :: 0 <= k < i ==> df[k] == DrawBatter(old(df[k]), batterUnits[k])
      invariant forall k :: i <= k < df.Length ==> df[k] == old(df[k])
    {
      if df[i].timeMin > startTime {
        df[i] := df[i].(batter := df[i].batter - Uniform(10.0, 15.0, batterUnits[i]));
      }
      i := i + 1;
    }
  }

  /** `df.loc[(Time_Min >= 5) & (Time_Min <= 15), 'Stirrer_Power_Online'] -= 7.0`. */
  method LowerStirrerInPlace(df: array<Row>)
    modifies df
    ensures forall k :: 0 <= k < df.Length ==> df[k] == LowerStirrer(old(df[k]))
  {
    var startTime, endTime := 5, 15;
    var i := 0;
    while i < df.Length
      invariant 0 <= i <= df.Length
      invariant forall k :: 0 <= k < i ==> df[k] == LowerStirrer(old(df[k]))
      invariant forall k :: i <= k < df.Length ==> df[k] == old(df[k])
    {
      if startTime <= df[i].timeMin <= endTime {
        df[i] := df[i].(stirrer := df[i].stirrer - 7.0);
      }
      i := i + 1;
    }
  }

  /** `df['Fault_Type'] = fault`. */
  method StampLabelInPlace(df: array<Row>, fault: string)
    modifies df
    ensures df[..] == StampLabel(old(df[..]), fault)
  {
    var i := 0;
    while i < df.Length
      invariant 0 <= i <= df.Length
      invariant forall k :: 0 <= k < i ==> df[k] == old(df[k]).(faultType := Some(fault))
      invariant forall k :: i <= k < df.Length ==> df[k] == old(df[k])
    {
      df[i] := df[i].(faultType := Some(fault));
      i := i + 1;
    }
  }

  /** inject_fault, in place. An empty frame has no last row: the
      deviations (of no rows) are applied and the assignment to
      `df.index[-1]` then fails, which `ok == false` reports. */
  method InjectFault(df: array<Row>, fault: string, batterUnits: seq<real>, cqaUnits: seq<real>)
    returns (ok: bool)
    requires |batterUnits| == df.Length && UnitDraws(batterUnits)
    requires |cqaUnits| == CqaDrawCount && UnitDraws(cqaUnits)
    modifies df
    ensures ok <==> df.Length > 0
    ensures ok ==> df[..] == Injected(old(df[..]), fault, batterUnits, cqaUnits)
  {
    ghost var orig := df[..];
    if fault == "Door_Open" {
      LowerOvenInPlace(df);
      DrawBatterInPlace(df, batterUnits);
    } else if fault == "Under_Mixed_Batter" {
      LowerStirrerInPlace(df);
    }
    assert df[..] == Deviate(orig, fault, batterUnits);
    var finalCqa := CalculateCqa(fault, cqaUnits);
    if df.Length == 0 {
      return false;
    }
    var values := DictValues(finalCqa);
    var last := df.Length - 1;
    df[last] := df[last].(finalHeight := Some(values[0]), finalMoisture := Some(values[1]),
                          internalDoneness := Some(values[2]));
    assert df[..] == StampLast(Deviate(orig, fault, batterUnits), finalCqa);
    StampLabelInPlace(df, fault);
    ok := true;
  }

  /** Door_Open lowers the oven by exactly 35.0 inside [20, 30] and nowhere
      else, lowers the batter by a draw in [10, 15) after minute 20, and
      leaves the stirrer and the time index alone. */
  lemma DoorOpenDeviation(rows: seq<Row>, batterUnits: seq<real>, cqaUnits: seq<real>)
    requires |rows| > 0 && |batterUnits| == |rows| && UnitDraws(batterUnits)
    requires |cqaUnits| == CqaDrawCount && UnitDraws(cqaUnits)
    ensures var r := Injected(rows, "Door_Open", batterUnits, cqaUnits);
      |r| == |rows| &&
      forall i :: 0 <= i < |rows| ==>
        r[i].timeMin == rows[i].timeMin && r[i].stirrer == rows[i].stirrer &&
        r[i].oven == (if 20 <= rows[i].timeMin <= 30 then rows[i].oven - 35.0 else rows[i].oven) &&
        (rows[i].timeMin > 20 ==> rows[i].batter - 15.0 < r[i].batter <= rows[i].batter - 10.0) &&
        (rows[i].timeMin <= 20 ==> r[i].batter == rows[i].batter)
  {
    var dev := Deviate(rows, "Door_Open", batterUnits);
    var cqa := CalculateCqa("Door_Open", cqaUnits);
    var r := StampLabel(StampLast(dev, cqa), "Door_Open");
    assert r == Injected(rows, "Door_Open", batterUnits, cqaUnits);
    forall i | 0 <= i < |rows|
      ensures r[i].timeMin == rows[i].timeMin && r[i].stirrer == rows[i].stirrer
      ensures r[i].oven == (if 20 <= rows[i].timeMin <= 30 then rows[i].oven - 35.0 else rows[i].oven)
      ensures rows[i].timeMin > 20 ==> rows[i].batter - 15.0 < r[i].batter <= rows[i].batter - 10.0
      ensures rows[i].timeMin <= 20 ==> r[i].batter == rows[i].batter
    {
      ChannelsSurviveStamps(dev, cqa, "Door_Open", i);
      DoorOpenRow(rows[i], batterUnits[i]);
    }
  }

  /** Under_Mixed_Batter on one row. */
  lemma UnderMixedRow(row: Row, u: real)
    requires 0.0 <= u < 1.0
    ensures var d := DeviateRow(row, "Under_Mixed_Batter", u);
      d.timeMin == row.timeMin && d.oven == row.oven && d.batter == row.batter &&
      d.stirrer == (if 5 <= row.timeMin <= 15 then row.stirrer - 7.0 else row.stirrer)
  {
  }

  /** Door_Open on one row. */
  lemma DoorOpenRow(row: Row, u: real)
    requires 0.0 <= u < 1.0
    ensures var d := DeviateRow(row, "Door_Open", u);
      d.timeMin == row.timeMin && d.stirrer == row.stirrer &&
      d.oven == (if 20 <= row.timeMin <= 30 then row.oven - 35.0 else row.oven) &&
      (row.timeMin > 20 ==> row.batter - 15.0 < d.batter <= row.batter - 10.0) &&
      (row.timeMin <= 20 ==> d.batter == row.batter)
  {
  }

  /** Under_Mixed_Batter lowers the stirrer by exactly 7.0 inside [5, 15]
      and touches no other row of it and no other channel. */
  lemma UnderMixedDeviation(rows: seq<Row>, batterUnits: seq<real>, cqaUnits: seq<real>)
    requires |rows| > 0 && |batterUnits| == |rows| && UnitDraws(batterUnits)
    requires |cqaUnits| == CqaDrawCount && UnitDraws(cqaUnits)
    ensures var r := Injected(rows, "Under_Mixed_Batter", batterUnits, cqaUnits);
      |r| == |rows| &&
      forall i :: 0 <= i < |rows| ==>
        r[i].timeMin == rows[i].timeMin && r[i].oven == rows[i].oven && r[i].batter == rows[i].batter &&
        r[i].stirrer == (if 5 <= rows[i].timeMin <= 15 then rows[i].stirrer - 7.0 else rows[i].stirrer)
  {
    var dev := Deviate(rows, "Under_Mixed_Batter", batterUnits);
    var cqa := CalculateCqa("Under_Mixed_Batter", cqaUnits);
    var r := StampLabel(StampLast(dev, cqa), "Under_Mixed_Batter");
    assert r == Injected(rows, "Under_Mixed_Batter", batterUnits, cqaUnits);
    forall i | 0 <= i < |rows|
      ensures r[i].timeMin == rows[i].timeMin && r[i].oven == rows[i].oven && r[i].batter == rows[i].batter
      ensures r[i].stirrer == (if 5 <= rows[i].timeMin <= 15 then rows[i].stirrer - 7.0 else rows[i].stirrer)
    {
      ChannelsSurviveStamps(dev, cqa, "Under_Mixed_Batter", i);
      UnderMixedRow(rows[i], batterUnits[i]);
    }
  }

  /** Normal, and any label the script does not know, match neither branch:
      all channels keep their values. */
  lemma OtherLabelsKeepChannels(rows: seq<Row>, fault: string, batterUnits: seq<real>, cqaUnits: seq<real>)
    requires |rows| > 0 && |batterUnits| == |rows| && UnitDraws(batterUnits)
    requires |cqaUnits| == CqaDrawCount && UnitDraws(cqaUnits)
    requires fault != "Door_Open" && fault != "Under_Mixed_Batter"
    ensures var r := Injected(rows, fault, batterUnits, cqaUnits);
      |r| == |rows| &&
      forall i :: 0 <= i < |rows| ==>
        r[i].timeMin == rows[i].timeMin && r[i].oven == rows[i].oven &&
        r[i].batter == rows[i].batter && r[i].stirrer == rows[i].stirrer
  {
    var r := Injected(rows, fault, batterUnits, cqaUnits);
    var dev := Deviate(rows, fault, batterUnits);
    var cqa := CalculateCqa(fault, cqaUnits);
    forall i | 0 <= i < |rows|
      ensures r[i].timeMin == rows[i].timeMin && r[i].oven == rows[i].oven
      ensures r[i].batter == rows[i].batter && r[i].stirrer == rows[i].stirrer
    {
      ChannelsSurviveStamps(dev, cqa, fault, i);
    }
  }

  /** The two stamps touch only the quality and label columns. */
  lemma ChannelsSurviveStamps(rows: seq<Row>, d: CqaDict, fault: string, i: nat)
    requires |rows| > 0 && DictKeys(d) == CqaColumns && i < |rows|
    ensures var r := StampLabel(StampLast(rows, d), fault);
      |r| == |rows| && r[i].timeMin == rows[i].timeMin && r[i].oven == rows[i].oven &&
      r[i].batter == rows[i].batter && r[i].stirrer == rows[i].stirrer && r[i].batchId == rows[i].batchId
  {
    var s := StampLast(rows, d);
    if i < |rows| - 1 {
      assert s[..|rows| - 1][i] == rows[..|rows| - 1][i];
    }
  }

  /** The quality values land on the last row only, each in its own column
      and inside its label's range; every row carries the label. */
  lemma InjectedQualityAndLabel(rows: seq<Row>, fault: string, batterUnits: seq<real>, cqaUnits: seq<real>)
    requires |rows| > 0 && |batterUnits| == |rows| && UnitDraws(batterUnits)
    requires |cqaUnits| == CqaDrawCount && UnitDraws(cqaUnits)
    ensures var r := Injected(rows, fault, batterUnits, cqaUnits);
      |r| == |rows| &&
      (forall i :: 0 <= i < |rows| ==> r[i].faultType == Some(fault) && r[i].batchId == rows[i].batchId) &&
      (forall i :: 0 <= i < |rows| - 1 ==>
         r[i].finalHeight == rows[i].finalHeight && r[i].finalMoisture == rows[i].finalMoisture &&
         r[i].internalDoneness == rows[i].internalDoneness) &&
      var last := r[|rows| - 1];
      var d := CalculateCqa(fault, cqaUnits);
      last.finalHeight == DictGet(d, "Final_Height") &&
      last.finalMoisture == DictGet(d, "Final_Moisture") &&
      last.internalDoneness == DictGet(d, "Internal_Doneness") &&
      last.finalHeight.Some? && last.finalMoisture.Some? && last.internalDoneness.Some? &&
      CqaInRange(fault, last.finalHeight.value, last.finalMoisture.value, last.internalDoneness.value)
  {
    var d := CalculateCqa(fault, cqaUnits);
    var dev := Deviate(rows, fault, batterUnits);
    assert StampLabel(StampLast(dev, d), fault) == Injected(rows, fault, batterUnits, cqaUnits);
    DeviateKeepsRest(rows, fault, batterUnits);
    StampedRows(dev, d, fault);
    LastRowQuality(dev, d, fault);
    CqaRanges(fault, cqaUnits);
  }

  /** The deviations touch the channels only. */
  lemma DeviateKeepsRest(rows: seq<Row>, fault: string, units: seq<real>)
    requires |units| == |rows| && UnitDraws(units)
    ensures var dev := Deviate(rows, fault, units);
      forall i :: 0 <= i < |rows| ==>
        dev[i].timeMin == rows[i].timeMin &&
        dev[i].batchId == rows[i].batchId && dev[i].finalHeight == rows[i].finalHeight &&
        dev[i].finalMoisture == rows[i].finalMoisture && dev[i].internalDoneness == rows[i].internalDoneness
  {
  }

  /** Stamping labels every row and leaves the quality columns of all rows
      but the last, and every identifier, as they were. */
  lemma StampedRows(rows: seq<Row>, d: CqaDict, fault: string)
    requires |rows| > 0 && DictKeys(d) == CqaColumns
    ensures var r := StampLabel(StampLast(rows, d), fault);
      |r| == |rows| &&
      (forall i :: 0 <= i < |rows| ==> r[i].faultType == Some(fault) && r[i].batchId == rows[i].batchId) &&
      (forall i :: 0 <= i < |rows| - 1 ==>
         r[i].finalHeight == rows[i].finalHeight && r[i].finalMoisture == rows[i].finalMoisture &&
         r[i].internalDoneness == rows[i].internalDoneness)
  {
    var s := StampLast(rows, d);
    var r := StampLabel(s, fault);
    forall i | 0 <= i < |rows|
      ensures r[i].faultType == Some(fault) && r[i].batchId == rows[i].batchId
    {
      ChannelsSurviveStamps(rows, d, fault, i);
    }
    forall i | 0 <= i < |rows| - 1
      ensures r[i].finalHeight == rows[i].finalHeight && r[i].finalMoisture == rows[i].finalMoisture
      ensures r[i].internalDoneness == rows[i].internalDoneness
    {
      assert s[..|rows| - 1][i] == rows[..|rows| - 1][i];
    }
  }

  /** The last row after stamping carries the dictionary's value of each
      quality column. */
  lemma LastRowQuality(rows: seq<Row>, d: CqaDict, fault: string)
    requires |rows| > 0 && DictKeys(d) == CqaColumns
    ensures var last := StampLabel(StampLast(rows, d), fault)[|rows| - 1];
      last.finalHeight == DictGet(d, "Final_Height") &&
      last.finalMoisture == DictGet(d, "Final_Moisture") &&
      last.internalDoneness == DictGet(d, "Internal_Doneness")
  {
    ValuesFollowColumns(d, 0);
    ValuesFollowColumns(d, 1);
    ValuesFollowColumns(d, 2);
  }

  // ---------------------------------------------------------------------
  // The driver

  /** The random inputs of one batch. */
  datatype BatchDraws = BatchDraws(
    ovenNoise: seq<real>,
    batterNoise: seq<real>,
    stirrerNoise: seq<real>,
    batterUnits: seq<real>,
    cqaUnits: seq<real>)

  predicate DrawsFor(d: BatchDraws, timeSteps: nat)
  {
    |d.ovenNoise| == timeSteps && |d.batterNoise| == timeSteps && |d.stirrerNoise| == timeSteps &&
    |d.batterUnits| == timeSteps && UnitDraws(d.batterUnits) &&
    |d.cqaUnits| == CqaDrawCount && UnitDraws(d.cqaUnits)
  }

  function Repeat(x: string, n: nat): (r: seq<string>)
    ensures |r| == n
    ensures forall i :: 0 <= i < n ==> r[i] == x
  {
    seq(n, _ => x)
  }

  /** The scenario list: every Normal batch first, then Door_Open, then
      Under_Mixed_Batter. */
  function FaultScenarios(): seq<string>
  {
    Repeat("Normal", NormalBatches) + Repeat("Door_Open", DoorBatches) +
    Repeat("Under_Mixed_Batter", MixingBatches)
  }

  lemma ScenarioBlocks()
    ensures |FaultScenarios()| == TotalBatches == 100
    ensures forall i :: 0 <= i < 100 ==>
              (FaultScenarios()[i] == "Normal" <==> i < 80) &&
              (FaultScenarios()[i] == "Door_Open" <==> 80 <= i < 90) &&
              (FaultScenarios()[i] == "Under_Mixed_Batter" <==> 90 <= i)
  {
    var s := FaultScenarios();
    forall i | 0 <= i < 100
      ensures (s[i] == "Normal" <==> i < 80) && (s[i] == "Door_Open" <==> 80 <= i < 90)
      ensures s[i] == "Under_Mixed_Batter" <==> 90 <= i
    {
      if i < 80 {
        assert s[i] == Repeat("Normal", 80)[i];
      } else if i < 90 {
        assert s[i] == Repeat("Door_Open", 10)[i - 80];
      } else {
        assert s[i] == Repeat("Under_Mixed_Batter", 10)[i - 90];
      }
    }
  }

  /** Decimal rendering of a natural number, as the f-string gives it. */
  function DecimalString(n: nat): (s: string)
    ensures 1 <= |s|
    ensures n >= 10 ==> 2 <= |s|
    ensures forall i :: 0 <= i < |s| ==> '0' <= s[i] <= '9'
    ensures s[0] == '0' <==> n == 0
  {
    if n < 10 then [('0' as int + n) as char]
    else DecimalString(n / 10) + [('0' as int + n % 10) as char]
  }

  /** The number a string of decimal digits spells, read from its most
      significant digit: each digit shifts what was read so far one place. */
  function DigitsValue(s: string): nat
    requires forall i :: 0 <= i < |s| ==> '0' <= s[i] <= '9'
  {
    ReadDigits(0, s)
  }

  function ReadDigits(acc: nat, s: string): nat
    requires forall i :: 0 <= i < |s| ==> '0' <= s[i] <= '9'
    decreases |s|
  {
    if s == [] then acc else ReadDigits(acc * 10 + (s[0] as int - '0' as int), s[1..])
  }

  /** Appending a digit shifts the value read one place. */
  lemma {:induction false} ReadDigitsAppend(acc: nat, s: string, d: char)
    requires forall i :: 0 <= i < |s| ==> '0' <= s[i] <= '9'
    requires '0' <= d <= '9'
    ensures ReadDigits(acc, s + [d]) == ReadDigits(acc, s) * 10 + (d as int - '0' as int)
    decreases |s|
  {
    if s != [] {
      assert (s + [d])[1..] == s[1..] + [d];
      ReadDigitsAppend(acc * 10 + (s[0] as int - '0' as int), s[1..], d);
    }
  }

  /** The rendering spells n: reading its digits back gives n. */
  lemma {:induction false} DecimalStringValue(n: nat)
    ensures DigitsValue(DecimalString(n)) == n
  {
    if n < 10 {
      var s := DecimalString(n);
      assert s[0] as int - '0' as int == n && s[1..] == [];
      assert ReadDigits(0, s) == ReadDigits(n, []);
    } else {
      DecimalStringValue(n / 10);
      ReadDigitsAppend(0, DecimalString(n / 10), ('0' as int + n % 10) as char);
    }
  }

  lemma {:induction false} DecimalStringInjective(m: nat, n: nat)
    requires DecimalString(m) == DecimalString(n)
    ensures m == n
    decreases m
  {
    var s := DecimalString(m);
    if m >= 10 && n >= 10 {
      assert s[|s| - 1] == ('0' as int + m % 10) as char;
      assert DecimalString(n)[|s| - 1] == ('0' as int + n % 10) as char;
      assert s[..|s| - 1] == DecimalString(m / 10);
      assert DecimalString(n)[..|s| - 1] == DecimalString(n / 10);
      DecimalStringInjective(m / 10, n / 10);
    } else if m < 10 && n < 10 {
      assert s[0] == ('0' as int + m) as char;
    }
  }

  /** The identifier `C-<n>`. */
  function BatchId(n: nat): string
  {
    "C-" + DecimalString(n)
  }

  lemma BatchIdsUnique(m: nat, n: nat)
    ensures BatchId(m) == BatchId(n) <==> m == n
  {
    if BatchId(m) == BatchId(n) {
      assert DecimalString(m) == BatchId(m)[2..];
      assert DecimalString(n) == BatchId(n)[2..];
      DecimalStringInjective(m, n);
    }
  }

  /** `batch_data['Batch_ID'] = id`. */
  function WithBatchId(rows: seq<Row>, id: string): (r: seq<Row>)
    ensures |r| == |rows|
    ensures forall i :: 0 <= i < |rows| ==> r[i] == rows[i].(batchId := Some(id))
  {
    seq(|rows|, i requires 0 <= i < |rows| => rows[i].(batchId := Some(id)))
  }

  method AssignBatchId(df: array<Row>, id: string)
    modifies df
    ensures df[..] == WithBatchId(old(df[..]), id)
  {
    var i := 0;
    while i < df.Length
      invariant 0 <= i <= df.Length
      invariant forall k :: 0 <= k < i ==> df[k] == old(df[k]).(batchId := Some(id))
      invariant forall k :: i <= k < df.Length ==> df[k] == old(df[k])
    {
      df[i] := df[i].(batchId := Some(id));
      i := i + 1;
    }
  }

  /** Batch number k (counting from 0) of the driver, for the given label
      and draws. */
  function GeneratedBatch(k: nat, fault: string, d: BatchDraws): seq<Row>
    requires DrawsFor(d, TimeSteps)
  {
    var baseline := GoldenProfile(TimeSteps, d.ovenNoise, d.batterNoise, d.stirrerNoise);
    WithBatchId(Injected(baseline, fault, d.batterUnits, d.cqaUnits), BatchId(FirstBatchNumber + k))
  }

  /** One pass of the driver loop: a fresh baseline, a copy of it injected
      with the fault, and the batch's identifier on every row. */
  method GenerateBatch(counter: nat, fault: string, d: BatchDraws) returns (batch: seq<Row>)
    requires counter >= FirstBatchNumber && DrawsFor(d, TimeSteps)
    ensures batch == GeneratedBatch(counter - FirstBatchNumber, fault, d)
  {
    var baseline := GoldenProfile(TimeSteps, d.ovenNoise, d.batterNoise, d.stirrerNoise);
    var df := new Row[|baseline|](i requires 0 <= i < |baseline| => baseline[i]);
    assert df[..] == baseline;
    var ok := InjectFault(df, fault, d.batterUnits, d.cqaUnits);
    assert ok;  // the 60-row baseline is never empty, so `df.index[-1]` exists
    AssignBatchId(df, BatchId(counter));
    batch := df[..];
  }

  /** The driver loop: one batch per scenario, numbered from 1001. */
  method GenerateBatches(draws: seq<BatchDraws>) returns (batches: seq<seq<Row>>, counter: nat)
    requires |draws| == |FaultScenarios()|
    requires forall i :: 0 <= i < |draws| ==> DrawsFor(draws[i], TimeSteps)
    ensures |batches| == |draws| && counter == FirstBatchNumber + |draws|
    ensures forall i :: 0 <= i < |draws| ==> batches[i] == GeneratedBatch(i, FaultScenarios()[i], draws[i])
  {
    var scenarios := FaultScenarios();
    batches := [];
    counter := FirstBatchNumber;
    var n := 0;
    while n < |draws|
      invariant 0 <= n <= |draws| && |batches| == n && counter == FirstBatchNumber + n
      invariant forall i :: 0 <= i < n ==> batches[i] == GeneratedBatch(i, scenarios[i], draws[i])
    {
      var batch := GenerateBatch(counter, scenarios[n], draws[n]);
      assert batch == GeneratedBatch(n, scenarios[n], draws[n]);
      ghost var prev := batches;
      batches := batches + [batch];
      forall i | 0 <= i <= n
        ensures batches[i] == GeneratedBatch(i, scenarios[i], draws[i])
      {
        if i < n {
          assert batches[i] == prev[i];
        }
      }
      counter := counter + 1;
      n := n + 1;
    }
  }

  /** Each generated batch: 60 rows at minutes 0..59, its own identifier
      and label on every row, quality values on the last row only. */
  lemma GeneratedBatchShape(k: nat, fault: string, d: BatchDraws)
    requires DrawsFor(d, TimeSteps)
    ensures var b := GeneratedBatch(k, fault, d);
      |b| == TimeSteps &&
      forall i :: 0 <= i < TimeSteps ==>
        b[i].timeMin == i && b[i].batchId == Some(BatchId(FirstBatchNumber + k)) &&
        b[i].faultType == Some(fault) &&
        (b[i].finalHeight.Some? <==> i == TimeSteps - 1) &&
        (b[i].finalMoisture.Some? <==> i == TimeSteps - 1) &&
        (b[i].internalDoneness.Some? <==> i == TimeSteps - 1)
  {
    var baseline := GoldenProfile(TimeSteps, d.ovenNoise, d.batterNoise, d.stirrerNoise);
    InjectedShape(baseline, fault, d.batterUnits, d.cqaUnits);
    StampedShape(Injected(baseline, fault, d.batterUnits, d.cqaUnits), BatchId(FirstBatchNumber + k), fault);
  }

  /** Injecting a fault into a fresh profile: minutes kept, the label on
      every row, quality values on the last row only. */
  lemma InjectedShape(rows: seq<Row>, fault: string, batterUnits: seq<real>, cqaUnits: seq<real>)
    requires |rows| > 0 && |batterUnits| == |rows| && UnitDraws(batterUnits)
    requires |cqaUnits| == CqaDrawCount && UnitDraws(cqaUnits)
    requires forall i :: 0 <= i < |rows| ==> rows[i].timeMin == i && Baseline(rows[i])
    ensures var r := Injected(rows, fault, batterUnits, cqaUnits);
      |r| == |rows| &&
      forall i :: 0 <= i < |rows| ==>
        r[i].timeMin == i && r[i].faultType == Some(fault) &&
        (r[i].finalHeight.Some? <==> i == |rows| - 1) &&
        (r[i].finalMoisture.Some? <==> i == |rows| - 1) &&
        (r[i].internalDoneness.Some? <==> i == |rows| - 1)
  {
    var d := CalculateCqa(fault, cqaUnits);
    var dev := Deviate(rows, fault, batterUnits);
    assert StampLabel(StampLast(dev, d), fault) == Injected(rows, fault, batterUnits, cqaUnits);
    DeviateKeepsRest(rows, fault, batterUnits);
    StampShape(dev, d, fault);
  }

  /** Stamping a frame without quality values: minutes kept, the label on
      every row, quality values on the last row only. */
  lemma StampShape(rows: seq<Row>, d: CqaDict, fault: string)
    requires |rows| > 0 && DictKeys(d) == CqaColumns
    requires forall i :: 0 <= i < |rows| ==>
               rows[i].finalHeight.None? && rows[i].finalMoisture.None? && rows[i].internalDoneness.None?
    ensures var r := StampLabel(StampLast(rows, d), fault);
      |r| == |rows| &&
      forall i :: 0 <= i < |rows| ==>
        r[i].timeMin == rows[i].timeMin && r[i].faultType == Some(fault) &&
        (r[i].finalHeight.Some? <==> i == |rows| - 1) &&
        (r[i].finalMoisture.Some? <==> i == |rows| - 1) &&
        (r[i].internalDoneness.Some? <==> i == |rows| - 1)
  {
    StampedRows(rows, d, fault);
    LastRowQuality(rows, d, fault);
    assert "Final_Height" in DictKeys(d) && "Final_Moisture" in DictKeys(d) && "Internal_Doneness" in DictKeys(d);
    forall i | 0 <= i < |rows|
      ensures StampLabel(StampLast(rows, d), fault)[i].timeMin == rows[i].timeMin
    {
      ChannelsSurviveStamps(rows, d, fault, i);
    }
  }

  /** Stamping the identifier keeps what the injection left. */
  lemma StampedShape(rows: seq<Row>, id: string, fault: string)
    requires forall i :: 0 <= i < |rows| ==>
               rows[i].timeMin == i && rows[i].faultType == Some(fault) &&
               (rows[i].finalHeight.Some? <==> i == |rows| - 1) &&
               (rows[i].finalMoisture.Some? <==> i == |rows| - 1) &&
               (rows[i].internalDoneness.Some? <==> i == |rows| - 1)
    ensures var b := WithBatchId(rows, id);
      |b| == |rows| &&
      forall i :: 0 <= i < |rows| ==>
        b[i].timeMin == i && b[i].batchId == Some(id) && b[i].faultType == Some(fault) &&
        (b[i].finalHeight.Some? <==> i == |rows| - 1) &&
        (b[i].finalMoisture.Some? <==> i == |rows| - 1) &&
        (b[i].internalDoneness.Some? <==> i == |rows| - 1)
  {
  }

  // ---------------------------------------------------------------------
  // The exported table

  /** The exported header: the profile columns, the quality columns added
      by the last-row assignment, then `Fault_Type` and `Batch_ID`. */
  const ExportColumns: seq<string> :=
    ["Time_Min", "Oven_Temp_Actual", "Batter_Center_Temp", "Stirrer_Power_Online",
     "Final_Height", "Final_Moisture", "Internal_Doneness", "Fault_Type", "Batch_ID"]

  function NumCell(o: Option<real>): Cell
  {
    match o
    case None => Missing
    case Some(x) => Num(x)
  }

  function TextCell(o: Option<string>): Cell
  {
    match o
    case None => Missing
    case Some(s) => Text(s)
  }

  function RowCells(r: Row): (c: seq<Cell>)
    ensures |c| == |ExportColumns|
  {
    [Num(r.timeMin as real), Num(r.oven), Num(r.batter), Num(r.stirrer),
     NumCell(r.finalHeight), NumCell(r.finalMoisture), NumCell(r.internalDoneness),
     TextCell(r.faultType), TextCell(r.batchId)]
  }

  /** `pd.concat(all_batches)`: the batches' rows one after another. */
  function Concat(batches: seq<seq<Row>>): (rows: seq<Row>)
  {
    if batches == [] then [] else Concat(batches[..|batches| - 1]) + batches[|batches| - 1]
  }

  function ExportTable(batches: seq<seq<Row>>): (t: Table)
    ensures t.columns == ExportColumns && Rectangular(t)
    ensures |t.rows| == |Concat(batches)|
  {
    var rows := Concat(batches);
    Table(ExportColumns, seq(|rows|, i requires 0 <= i < |rows| => RowCells(rows[i])))
  }

  /** The dataset has one row per (batch, minute): 100 batches of 60 rows. */
  lemma {:induction false} ConcatLength(batches: seq<seq<Row>>, n: nat)
    requires forall i :: 0 <= i < |batches| ==> |batches[i]| == n
    ensures |Concat(batches)| == |batches| * n
  {
    if batches != [] {
      var m := |batches| - 1;
      ConcatLength(batches[..m], n);
      assert |Concat(batches)| == |Concat(batches[..m])| + |batches[m]|;
      assert m * n + n == (m + 1) * n;
    }
  }
}
