/**
 * The scaling step: the fitted scaler rewrites the five continuous columns of
 * the encoded row in place, selected by name; every other column is kept.
 */
module Scaling {
  import opened Wrappers
  import opened Encoder

  /** The continuous columns, in the order the scaler was fitted on. */
  const NumCols: seq<string> := ["age", "restingbp", "cholesterol", "maxhr", "oldpeak"]

  /** Their positions in the encoded row. */
  const NumColSlots: seq<nat> := [AGE, RESTING_BP, CHOLESTEROL, MAX_HR, OLDPEAK]

  /** Position of the column called `name` in a header without repeated
      names (FeatureNames is one: FeatureNamesLayout proves its names
      distinct), as a label lookup finds it; None is the KeyError of a column
      that is not there. On a header with repeated names pandas would return
      every matching column; this lookup gives the first. */
  function ColumnIndex(names: seq<string>, name: string): (r: Option<nat>)
    ensures r.Some? <==> name in names
    ensures r.Some? ==> r.value < |names| && names[r.value] == name && name !in names[..r.value]
  {
    if names == [] then None
    else if names[0] == name then Some(0)
    else match ColumnIndex(names[1..], name)
      case None => None
      case Some(k) => Some(k + 1)
  }

  /** Positions of all the columns `cols`, in their order, or None when one of
      them is missing from the header. */
  function ColumnIndices(names: seq<string>, cols: seq<string>): (r: Option<seq<nat>>)
    ensures r.Some? <==> forall k :: 0 <= k < |cols| ==> cols[k] in names
    ensures r.Some? ==> |r.value| == |cols|
    ensures r.Some? ==> forall k :: 0 <= k < |cols| ==> r.value[k] < |names| && names[r.value[k]] == cols[k]
    decreases |cols|
  {
    if cols == [] then Some([])
    else
      match ColumnIndex(names, cols[0])
      case None => None
      case Some(i) =>
        match ColumnIndices(names, cols[1..])
        case None => None
        case Some(rest) => Some([i] + rest)
  }

  /** `row[cols]`: the entries at the given positions, in that order. */
  function Select<T>(row: seq<T>, idx: seq<nat>): (r: seq<T>)
    requires forall k :: 0 <= k < |idx| ==> idx[k] < |row|
    ensures |r| == |idx|
    ensures forall k :: 0 <= k < |idx| ==> r[k] == row[idx[k]]
  {
    seq(|idx|, k requires 0 <= k < |idx| => row[idx[k]])
  }

  /** In a header without repeated names, the lookup of the name at
      position i finds i. */
  lemma ColumnIndexOfDistinct(names: seq<string>, i: nat)
    requires i < |names|
    requires forall a, b :: 0 <= a < b < |names| ==> names[a] != names[b]
    ensures ColumnIndex(names, names[i]) == Some(i)
  {
  }

  /** In a header without repeated names, looking up the names found at some
      positions gives back those positions. */
  lemma {:induction false} LookupOfDistinct(names: seq<string>, slots: seq<nat>)
    requires forall a, b :: 0 <= a < b < |names| ==> names[a] != names[b]
    requires forall k :: 0 <= k < |slots| ==> slots[k] < |names|
    ensures ColumnIndices(names, Select(names, slots)) == Some(slots)
    decreases |slots|
  {
    if slots != [] {
      var cols := Select(names, slots);
      LookupOfDistinct(names, slots[1..]);
      assert cols[1..] == Select(names, slots[1..]);
      ColumnIndexOfDistinct(names, slots[0]);
      assert slots == [slots[0]] + slots[1..];
    }
  }

  /** The continuous columns are the names of slots 0, 1, 2, 4, 5, and
      selecting them by name reaches exactly those slots. */
  lemma NumColsPositions()
    ensures NumCols == Select(FeatureNames, NumColSlots)
    ensures ColumnIndices(FeatureNames, NumCols) == Some(NumColSlots)
  {
    assert forall a, b :: 0 <= a < b < |FeatureNames| ==> FeatureNames[a] != FeatureNames[b] by {
      FeatureNamesLayout();
    }
    assert NumCols == Select(FeatureNames, NumColSlots);
    LookupOfDistinct(FeatureNames, NumColSlots);
  }

  /** `row[cols] = vals`: vals[k] is written at idx[k], left to right. Only
      the listed positions change, and each holds the value written there
      last. */
  function Assign(row: seq<real>, idx: seq<nat>, vals: seq<real>): (r: seq<real>)
    requires |vals| == |idx|
    requires forall k :: 0 <= k < |idx| ==> idx[k] < |row|
    ensures |r| == |row|
    ensures forall i :: 0 <= i < |row| && i !in idx ==> r[i] == row[i]
    decreases |idx|
  {
    if idx == [] then row
    else
      var n := |idx| - 1;
      Assign(row, idx[..n], vals[..n])[idx[n] := vals[n]]
  }

  /** Writing one more position extends the assignment by one update. */
  lemma AssignExtend(row: seq<real>, idx: seq<nat>, vals: seq<real>, k: nat)
    requires |vals| == |idx| && k < |idx|
    requires forall j :: 0 <= j < |idx| ==> idx[j] < |row|
    ensures Assign(row, idx[..k + 1], vals[..k + 1]) == Assign(row, idx[..k], vals[..k])[idx[k] := vals[k]]
  {
    assert idx[..k + 1][..k] == idx[..k] && vals[..k + 1][..k] == vals[..k];
  }

  /** No position is listed twice. */
  predicate Distinct(idx: seq<nat>)
  {
    forall a, b :: 0 <= a < b < |idx| ==> idx[a] != idx[b]
  }

  /** With distinct positions, each listed position holds the value written there. */
  lemma {:induction false} AssignWritten(row: seq<real>, idx: seq<nat>, vals: seq<real>, k: nat)
    requires |vals| == |idx|
    requires forall j :: 0 <= j < |idx| ==> idx[j] < |row|
    requires Distinct(idx) && k < |idx|
    ensures Assign(row, idx, vals)[idx[k]] == vals[k]
    decreases |idx|
  {
    var n := |idx| - 1;
    if k < n {
      AssignWritten(row, idx[..n], vals[..n], k);
      assert idx[k] != idx[n];
    }
  }

  /** The scaled row: the transform's five outputs land in the continuous
      slots in NumCols order; the ten indicator and code slots are exactly
      those of the unscaled row. */
  lemma ScalingFrame(v: seq<real>, out: seq<real>)
    requires |v| == |FeatureNames| && |out| == |NumColSlots|
    ensures |Assign(v, NumColSlots, out)| == |v|
    ensures forall i :: 0 <= i < |v| && i !in NumColSlots ==> Assign(v, NumColSlots, out)[i] == v[i]
    ensures Assign(v, NumColSlots, out)[AGE] == out[0]
    ensures Assign(v, NumColSlots, out)[RESTING_BP] == out[1]
    ensures Assign(v, NumColSlots, out)[CHOLESTEROL] == out[2]
    ensures Assign(v, NumColSlots, out)[MAX_HR] == out[3]
    ensures Assign(v, NumColSlots, out)[OLDPEAK] == out[4]
  {
    assert Distinct(NumColSlots);
    AssignWritten(v, NumColSlots, out, 0);
    AssignWritten(v, NumColSlots, out, 1);
    AssignWritten(v, NumColSlots, out, 2);
    AssignWritten(v, NumColSlots, out, 3);
    AssignWritten(v, NumColSlots, out, 4);
  }

  /** The untouched slots are the eight indicators, the slope code and the
      cholesterol missing flag: scaling never alters a categorical feature. */
  lemma UnscaledSlotsAreCategorical()
    ensures forall i :: 0 <= i < |FeatureNames| ==> (i !in NumColSlots <==> i in IndicatorSlots || i == ST_SLOPE)
  {
  }

  /** The scaling step on the row built from the form. `transform` stands for
      the fitted scaler, which is not modelled; a result of the wrong width is
      refused (ok false) and leaves the row as it was. */
  method ScaleNumeric(row: array<real>, transform: seq<real> -> seq<real>) returns (ok: bool)
    requires row.Length == |FeatureNames|
    modifies row
    ensures ok <==> |transform(Select(old(row[..]), NumColSlots))| == |NumCols|
    ensures ok ==> row[..] == Assign(old(row[..]), NumColSlots, transform(Select(old(row[..]), NumColSlots)))
    ensures !ok ==> row[..] == old(row[..])
    ensures forall i :: 0 <= i < row.Length && i !in NumColSlots ==> row[i] == old(row[i])
  {
    NumColsPositions();
    var idx := ColumnIndices(FeatureNames, NumCols).value;
    assert idx == NumColSlots;
    var out := transform(Select(row[..], idx));
    if |out| != |idx| {
      return false;
    }
    var k := 0;
    while k < |idx|
      invariant 0 <= k <= |idx|
      invariant row[..] == Assign(old(row[..]), idx[..k], out[..k])
    {
      AssignExtend(old(row[..]), idx, out, k);
      row[idx[k]] := out[k];
      k := k + 1;
    }
    assert idx[..k] == idx && out[..k] == out;
    ok := true;
  }
}
