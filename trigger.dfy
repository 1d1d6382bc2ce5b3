/** The advisory trigger of simulate_genai_trigger.py.

    The script cleans the headers and the `Fault_Type` values of the batch
    data and of the SOP knowledge table in place, picks one batch, unfolds
    its process-parameter (CPP) channels into one row of (channel, minute)
    features, asks the trained predictor for the final height, and then
    either reports a Normal batch or looks up the batch's fault in the
    knowledge table and classifies the batch as SCRAP or SALVAGEABLE.

    Loading files and the trained models is left out: the two frames arrive
    as values, and the scaler and PLS model together are the parameter
    `predict`, which yields None where they raise. */
module Trigger {
  import opened Tabular

  /** The batch the script inspects. */
  const FaultyBatchId: string := "C-1085"

  /** The final height (cm) below which a faulty batch is scrap. */
  const ScrapThreshold: real := 7.5

  // ---------------------------------------------------------------------
  // Whitespace stripping

  /** The characters Python's `str.strip()` removes (`str.isspace`). */
  predicate IsSpace(c: char)
  {
    c == ' ' || '\U{09}' <= c <= '\U{0D}' || '\U{1C}' <= c <= '\U{1F}' ||
    c == '\U{85}' || c == '\U{A0}' || c == '\U{1680}' || '\U{2000}' <= c <= '\U{200A}' ||
    c == '\U{2028}' || c == '\U{2029}' || c == '\U{202F}' || c == '\U{205F}' || c == '\U{3000}'
  }

  /** Neither starts nor ends with whitespace. */
  predicate Trimmed(s: string)
  {
    s == [] || (!IsSpace(s[0]) && !IsSpace(s[|s| - 1]))
  }

  /** The rest of `s` after its leading whitespace. */
  function StripLeft(s: string): (r: string)
    ensures |r| <= |s| && r == s[|s| - |r|..]
  {
    if s != [] && IsSpace(s[0]) then StripLeft(s[1..]) else s
  }

  /** s[lo..hi] is all whitespace. */
  predicate Blank(s: string, lo: int, hi: int)
  {
    0 <= lo && hi <= |s| && forall i :: lo <= i < hi ==> IsSpace(s[i])
  }

  /** StripLeft drops only whitespace. */
  lemma {:induction false} StripLeftSpaces(s: string)
    ensures Blank(s, 0, |s| - |StripLeft(s)|)
  {
    if s != [] && IsSpace(s[0]) {
      var t := s[1..];
      StripLeftSpaces(t);
      assert StripLeft(s) == StripLeft(t);
      forall i | 0 <= i < |s| - |StripLeft(s)|
        ensures IsSpace(s[i])
      {
        if i > 0 {
          assert s[i] == t[i - 1];
        }
      }
    }
  }

  /** The part of `s` before its trailing whitespace. */
  function StripRight(s: string): (r: string)
    ensures |r| <= |s| && r == s[..|r|]
  {
    if s != [] && IsSpace(s[|s| - 1]) then StripRight(s[..|s| - 1]) else s
  }

  /** StripRight drops only whitespace. */
  lemma {:induction false} StripRightSpaces(s: string)
    ensures Blank(s, |StripRight(s)|, |s|)
  {
    if s != [] && IsSpace(s[|s| - 1]) {
      var t := s[..|s| - 1];
      StripRightSpaces(t);
      assert StripRight(s) == StripRight(t);
      forall i | |StripRight(s)| <= i < |s|
        ensures IsSpace(s[i])
      {
        if i < |s| - 1 {
          assert s[i] == t[i];
        }
      }
    }
  }

  /** How many whitespace characters `str.strip()` removes at the front. */
  function Lead(s: string): nat
  {
    |s| - |StripLeft(s)|
  }

  /** `str.strip()`: the part of `s` left after dropping the whitespace at
      both ends. */
  function Strip(s: string): string
  {
    StripRight(StripLeft(s))
  }

  /** Stripping keeps the slice of `s` between its leading and its
      trailing whitespace. */
  lemma StripSpec(s: string)
    ensures var r := Strip(s);
      Lead(s) + |r| <= |s| && r == s[Lead(s)..Lead(s) + |r|] &&
      Blank(s, 0, Lead(s)) && Blank(s, Lead(s) + |r|, |s|)
  {
    assert Strip(s) == StripRight(StripLeft(s));
    StripSlice(s);
    StripLeftSpaces(s);
    StripTrailing(s);
  }

  /** What stripping keeps is a slice of `s`. */
  lemma StripSlice(s: string)
    ensures var r := StripRight(StripLeft(s));
      Lead(s) + |r| <= |s| && r == s[Lead(s)..Lead(s) + |r|]
  {
    var left := StripLeft(s);
    PrefixOfSuffix(s, left, StripRight(left));
  }

  /** A prefix of a suffix of `s` is a slice of `s`. */
  lemma PrefixOfSuffix(s: string, suffix: string, prefix: string)
    requires |suffix| <= |s| && suffix == s[|s| - |suffix|..]
    requires |prefix| <= |suffix| && prefix == suffix[..|prefix|]
    ensures prefix == s[|s| - |suffix|..|s| - |suffix| + |prefix|]
  {
  }

  /** What stripping keeps has no whitespace at its ends. */
  lemma StripEnds(s: string)
    ensures Trimmed(Strip(s))
  {
    var left := StripLeft(s);
    var r := StripRight(left);
    StripLeftStops(s);
    StripRightStops(left);
    if r != [] {
      TrimmedOf(r, left[0]);
    }
  }

  /** A non-empty string whose first character is `first` and whose ends
      are not whitespace is trimmed. */
  lemma TrimmedOf(r: string, first: char)
    requires r != [] && r[0] == first && !IsSpace(first) && !IsSpace(r[|r| - 1])
    ensures Trimmed(r)
  {
  }

  /** StripLeft stops at a character that is not whitespace. */
  lemma {:induction false} StripLeftStops(s: string)
    ensures StripLeft(s) != [] ==> !IsSpace(StripLeft(s)[0])
  {
    if s != [] && IsSpace(s[0]) {
      StripLeftStops(s[1..]);
    }
  }

  /** StripRight stops at a character that is not whitespace. */
  lemma {:induction false} StripRightStops(s: string)
    ensures StripRight(s) != [] ==> !IsSpace(StripRight(s)[|StripRight(s)| - 1])
  {
    if s != [] && IsSpace(s[|s| - 1]) {
      StripRightStops(s[..|s| - 1]);
    }
  }

  /** Everything stripping drops at the back is whitespace. */
  lemma StripTrailing(s: string)
    ensures Blank(s, Lead(s) + |StripRight(StripLeft(s))|, |s|)
  {
    var left := StripLeft(s);
    var r := StripRight(left);
    var n := Lead(s);
    StripRightSpaces(left);
    forall i | n + |r| <= i < |s|
      ensures IsSpace(s[i])
    {
      SuffixAt(s, left, i);
      assert IsSpace(left[i - n]);
    }
  }

  /** Position i of `s` is position i - (|s| - |suffix|) of its suffix. */
  lemma SuffixAt(s: string, suffix: string, i: int)
    requires |suffix| <= |s| && suffix == s[|s| - |suffix|..] && |s| - |suffix| <= i < |s|
    ensures s[i] == suffix[i - (|s| - |suffix|)]
  {
  }

  /** A string with nothing to strip is left as it is. */
  lemma StripTrimmed(s: string)
    requires Trimmed(s)
    ensures Strip(s) == s
  {
    assert StripLeft(s) == s;
    assert StripRight(s) == s;
  }

  lemma StripIdempotent(s: string)
    ensures Strip(Strip(s)) == Strip(s)
  {
    StripEnds(s);
    StripTrimmed(Strip(s));
  }

  /** `columns.str.strip()`. */
  function StripAll(names: seq<string>): (r: seq<string>)
    ensures |r| == |names|
    ensures forall i :: 0 <= i < |names| ==> r[i] == Strip(names[i]) && Trimmed(r[i])
  {
    assert forall i :: 0 <= i < |names| ==> Trimmed(Strip(names[i])) by {
      forall i | 0 <= i < |names| {
        StripEnds(names[i]);
      }
    }
    seq(|names|, i requires 0 <= i < |names| => Strip(names[i]))
  }

  lemma StripAllIdempotent(names: seq<string>)
    ensures StripAll(StripAll(names)) == StripAll(names)
  {
    forall i | 0 <= i < |names|
      ensures StripAll(StripAll(names))[i] == StripAll(names)[i]
    {
      StripIdempotent(names[i]);
    }
  }

  /** `astype(str).str.strip()` on one cell: a missing value reads "nan". */
  function CleanCell(c: Cell): (r: Cell)
    ensures c.Text? ==> r == Text(Strip(c.s))
    ensures c.Missing? ==> r == Text("nan")
    ensures c.Num? ==> r == c
    ensures r.Text? ==> Trimmed(r.s)
  {
    match c
    case Missing => Text("nan")
    case Text(s) => StripEnds(s); Text(Strip(s))
    case Num(_) => c
  }

  datatype Error =
    | KeyError(key: string)
    | DuplicateColumn(name: string)
    | DuplicateEntries
    | IndexError
    | PredictorFailed

  /** `df[name]` must find exactly one column. */
  function Col(t: Table, name: string): (r: Result<nat, Error>)
    ensures r.Ok? <==> FindColumn(t.columns, name).Column?
    ensures r.Ok? ==> r.value < |t.columns| && t.columns[r.value] == name
  {
    match FindColumn(t.columns, name)
    case NoColumn => Err(KeyError(name))
    case SeveralColumns => Err(DuplicateColumn(name))
    case Column(i) => Ok(i)
  }

  /** `df[name] = df[name].astype(str).str.strip()`. */
  function CleanColumn(t: Table, name: string): (r: Result<Table, Error>)
    requires Rectangular(t)
    ensures r.Ok? <==> Col(t, name).Ok?
    ensures r.Err? ==> r.error == Col(t, name).error
    ensures r.Ok? ==> Rectangular(r.value) && r.value.columns == t.columns && |r.value.rows| == |t.rows|
    ensures r.Ok? ==> forall k :: 0 <= k < |t.rows| ==>
              r.value.rows[k] == t.rows[k][Col(t, name).value := CleanCell(t.rows[k][Col(t, name).value])]
  {
    match Col(t, name)
    case Err(e) => Err(e)
    case Ok(i) =>
      Ok(t.(rows := seq(|t.rows|, k requires 0 <= k < |t.rows| => t.rows[k][i := CleanCell(t.rows[k][i])])))
  }

  /** A data frame loaded from a file, cleaned in place. */
  class Frame {
    var columns: seq<string>
    var rows: seq<seq<Cell>>

    ghost predicate Valid()
      reads this
    {
      Rectangular(Table(columns, rows))
    }

    function Contents(): Table
      reads this
    {
      Table(columns, rows)
    }

    constructor (t: Table)
      requires Rectangular(t)
      ensures Valid() && Contents() == t
    {
      columns := t.columns;
      rows := t.rows;
    }

    /** `df.columns = df.columns.str.strip()`. */
    method StripHeaders()
      requires Valid()
      modifies this
      ensures Valid() && columns == StripAll(old(columns)) && rows == old(rows)
    {
      columns := StripAll(columns);
    }

    /** `df[name] = df[name].astype(str).str.strip()`; a missing or
        duplicated column raises and leaves the frame as it was. */
    method CleanTextColumn(name: string) returns (err: Option<Error>)
      requires Valid()
      modifies this
      ensures Valid()
      ensures CleanColumn(old(Contents()), name).Ok? ==>
                err.None? && Contents() == CleanColumn(old(Contents()), name).value
      ensures CleanColumn(old(Contents()), name).Err? ==>
                err == Some(CleanColumn(old(Contents()), name).error) && Contents() == old(Contents())
    {
      var r := CleanColumn(Contents(), name);
      if r.Err? {
        return Some(r.error);
      }
      rows := r.value.rows;
      err := None;
    }
  }

  // ---------------------------------------------------------------------
  // Selecting the batch and its process parameters

  /** `df[df[col] == v]`: the rows whose cell in column `col` equals `v`,
      in their order. */
  function Matching(rows: seq<seq<Cell>>, col: nat, v: Cell): (r: seq<seq<Cell>>)
    requires forall k :: 0 <= k < |rows| ==> col < |rows[k]|
    ensures |r| <= |rows|
    ensures forall k :: 0 <= k < |r| ==> r[k] in rows && r[k][col] == v
  {
    if rows == [] then []
    else (if rows[0][col] == v then [rows[0]] else []) + Matching(rows[1..], col, v)
  }

  /** Every matching row is selected, so nothing is selected exactly when no
      row matches. */
  lemma {:induction false} MatchingSpec(rows: seq<seq<Cell>>, col: nat, v: Cell)
    requires forall k :: 0 <= k < |rows| ==> col < |rows[k]|
    ensures forall k :: 0 <= k < |rows| && rows[k][col] == v ==> rows[k] in Matching(rows, col, v)
    ensures Matching(rows, col, v) == [] <==> forall k :: 0 <= k < |rows| ==> rows[k][col] != v
  {
    if rows != [] {
      MatchingSpec(rows[1..], col, v);
      var r := Matching(rows, col, v);
      var tail := Matching(rows[1..], col, v);
      assert r == (if rows[0][col] == v then [rows[0]] else []) + tail;
      forall k | 0 <= k < |rows| && rows[k][col] == v
        ensures rows[k] in r
      {
        if k > 0 {
          assert rows[k] == rows[1..][k - 1];
          assert rows[k] in tail;
        }
      }
      if r == [] {
        forall k | 0 <= k < |rows|
          ensures rows[k][col] != v
        {
          if k > 0 {
            assert rows[k] == rows[1..][k - 1];
          }
        }
      }
    }
  }

  /** The first selected row is the first matching row of the frame. */
  lemma {:induction false} MatchingFirst(rows: seq<seq<Cell>>, col: nat, v: Cell, k: nat)
    requires forall i :: 0 <= i < |rows| ==> col < |rows[i]|
    requires k < |rows| && rows[k][col] == v
    requires forall j :: 0 <= j < k ==> rows[j][col] != v
    ensures Matching(rows, col, v) != [] && Matching(rows, col, v)[0] == rows[k]
  {
    if k > 0 {
      MatchingFirst(rows[1..], col, v, k - 1);
    }
  }

  lemma {:induction false} MatchingAppend(a: seq<seq<Cell>>, b: seq<seq<Cell>>, col: nat, v: Cell)
    requires forall k :: 0 <= k < |a| ==> col < |a[k]|
    requires forall k :: 0 <= k < |b| ==> col < |b[k]|
    ensures Matching(a + b, col, v) == Matching(a, col, v) + Matching(b, col, v)
  {
    if a == [] {
      assert a + b == b;
    } else {
      assert (a + b)[0] == a[0];
      assert (a + b)[1..] == a[1..] + b;
      MatchingAppend(a[1..], b, col, v);
    }
  }

  /** `part` occurs in `s` starting at position i. */
  predicate OccursAt(s: string, part: string, i: nat)
  {
    i + |part| <= |s| && s[i..i + |part|] == part
  }

  /** Python's `part in s` on strings. */
  predicate Contains(s: string, part: string)
  {
    exists i: nat | i <= |s| :: OccursAt(s, part, i)
  }

  /** A process parameter: a column whose name mentions Temp or Power. */
  predicate IsCpp(name: string)
  {
    Contains(name, "Temp") || Contains(name, "Power")
  }

  /** The comprehension over the header that picks the CPP columns. */
  function CppColumns(columns: seq<string>): (r: seq<string>)
    ensures |r| <= |columns|
  {
    if columns == [] then []
    else (if IsCpp(columns[0]) then [columns[0]] else []) + CppColumns(columns[1..])
  }

  /** A column is selected exactly when it is in the header and is a
      process parameter. */
  lemma {:induction false} CppColumnsMembers(columns: seq<string>)
    ensures forall c :: c in CppColumns(columns) <==> c in columns && IsCpp(c)
  {
    if columns != [] {
      CppColumnsMembers(columns[1..]);
      assert columns == [columns[0]] + columns[1..];
    }
  }

  /** The selection keeps the header's order: selecting from two pieces of a
      header is selecting from each in turn. */
  lemma {:induction false} CppColumnsAppend(a: seq<string>, b: seq<string>)
    ensures CppColumns(a + b) == CppColumns(a) + CppColumns(b)
  {
    if a == [] {
      assert a + b == b;
    } else {
      var head := if IsCpp(a[0]) then [a[0]] else [];
      assert (a + b)[0] == a[0];
      assert (a + b)[1..] == a[1..] + b;
      CppColumnsAppend(a[1..], b);
      assert CppColumns(a + b) == head + (CppColumns(a[1..]) + CppColumns(b));
    }
  }

  // ---------------------------------------------------------------------
  // Unfolding: pivot, dropna, fillna

  /** One feature column of the unfolded frame: a channel at a minute. */
  datatype FeatureKey = FeatureKey(channel: string, time: Cell)

  /** The unfolded input: its index (the batch identifier, once, unless the
      batch has no rows) and one value per feature column. The column order
      pandas gives these (channel in CPP order, then minute ascending) is
      not represented. */
  datatype Unfolded = Unfolded(index: seq<Cell>, features: map<FeatureKey, Cell>)

  /** Each CPP name must name exactly one column: resolving succeeds
      exactly when every name is found, and then gives each name's column. */
  function ResolveAll(t: Table, names: seq<string>): (r: Result<seq<nat>, Error>)
    ensures r.Ok? <==> forall j :: 0 <= j < |names| ==> Col(t, names[j]).Ok?
    ensures r.Ok? ==> |r.value| == |names|
    ensures r.Ok? ==> forall j :: 0 <= j < |names| ==> r.value[j] == Col(t, names[j]).value
    ensures r.Ok? ==> forall j :: 0 <= j < |names| ==> r.value[j] < |t.columns| && t.columns[r.value[j]] == names[j]
  {
    if names == [] then Ok([])
    else
      var tail := names[1..];
      var head := Col(t, names[0]);
      var rest := ResolveAll(t, tail);
      assert forall j :: 1 <= j < |names| ==> names[j] == tail[j - 1];
      if head.Err? then Err(head.error)
      else if rest.Err? then Err(rest.error)
      else Ok([head.value] + rest.value)
  }

  /** The time column and every channel column exist in `row`. */
  predicate RowFits(row: seq<Cell>, idx: seq<nat>, ti: nat)
  {
    ti < |row| && forall j :: 0 <= j < |idx| ==> idx[j] < |row|
  }

  predicate RowsFit(rows: seq<seq<Cell>>, idx: seq<nat>, ti: nat)
  {
    forall k :: 0 <= k < |rows| ==> RowFits(rows[k], idx, ti)
  }

  /** The minutes the selected rows carry. */
  function Times(rows: seq<seq<Cell>>, ti: nat): set<Cell>
    requires forall k :: 0 <= k < |rows| ==> ti < |rows[k]|
  {
    set k | 0 <= k < |rows| :: rows[k][ti]
  }

  /** One row's features: each channel at the row's minute. */
  function RowFeatures(row: seq<Cell>, names: seq<string>, idx: seq<nat>, ti: nat): (m: map<FeatureKey, Cell>)
    requires |names| == |idx| && RowFits(row, idx, ti)
    ensures forall c, t :: FeatureKey(c, t) in m <==> c in names && t == row[ti]
  {
    if names == [] then map[]
    else
      var n := |names| - 1;
      assert names == names[..n] + [names[n]];
      RowFeatures(row, names[..n], idx[..n], ti)[FeatureKey(names[n], row[ti]) := row[idx[n]]]
  }

  /** `pivot(index='Batch_ID', columns='Time_Min', values=cpp_cols)` of the
      selected rows, as one row of features. */
  function Pivot(rows: seq<seq<Cell>>, names: seq<string>, idx: seq<nat>, ti: nat): (m: map<FeatureKey, Cell>)
    requires |names| == |idx| && RowsFit(rows, idx, ti)
    ensures forall c, t :: FeatureKey(c, t) in m <==> c in names && t in Times(rows, ti)
  {
    if rows == [] then map[]
    else
      var n := |rows| - 1;
      assert rows == rows[..n] + [rows[n]];
      assert Times(rows, ti) == Times(rows[..n], ti) + {rows[n][ti]};
      Pivot(rows[..n], names, idx, ti) + RowFeatures(rows[n], names, idx, ti)
  }

  /** No two selected rows share a minute (pivot raises otherwise). */
  predicate DistinctTimes(rows: seq<seq<Cell>>, ti: nat)
    requires forall k :: 0 <= k < |rows| ==> ti < |rows[k]|
  {
    forall i, j :: 0 <= i < j < |rows| ==> rows[i][ti] != rows[j][ti]
  }

  /** With distinct channel names, each row's channel value stands under
      that channel and the row's minute. */
  lemma {:induction false} RowFeaturesAt(row: seq<Cell>, names: seq<string>, idx: seq<nat>, ti: nat, j: nat)
    requires |names| == |idx| && RowFits(row, idx, ti)
    requires Distinct(names) && j < |names|
    ensures RowFeatures(row, names, idx, ti)[FeatureKey(names[j], row[ti])] == row[idx[j]]
  {
    var n := |names| - 1;
    if j < n {
      RowFeaturesAt(row, names[..n], idx[..n], ti, j);
    }
  }

  /** With distinct minutes and distinct channel names, the pivot holds
      every selected row's value of every channel under (channel, minute). */
  lemma {:induction false} PivotAt(rows: seq<seq<Cell>>, names: seq<string>, idx: seq<nat>, ti: nat, k: nat, j: nat)
    requires |names| == |idx| && RowsFit(rows, idx, ti)
    requires DistinctTimes(rows, ti) && Distinct(names)
    requires k < |rows| && j < |names|
    ensures Pivot(rows, names, idx, ti)[FeatureKey(names[j], rows[k][ti])] == rows[k][idx[j]]
  {
    var n := |rows| - 1;
    if k == n {
      RowFeaturesAt(rows[n], names, idx, ti, j);
    } else {
      assert rows[..n][k] == rows[k];
      assert FeatureKey(names[j], rows[k][ti]) !in RowFeatures(rows[n], names, idx, ti);
      PivotAt(rows[..n], names, idx, ti, k, j);
    }
  }

  /** `dropna(axis=1, how='all')` on a frame of at most one row: a feature
      column whose only value is missing goes. */
  function DropAllMissing(m: map<FeatureKey, Cell>): (r: map<FeatureKey, Cell>)
    ensures forall k :: k in r <==> k in m && m[k] != Missing
    ensures forall k :: k in r ==> r[k] == m[k]
  {
    map k | k in m && m[k] != Missing :: m[k]
  }

  /** `fillna(0)`. */
  function FillZero(m: map<FeatureKey, Cell>): (r: map<FeatureKey, Cell>)
    ensures r.Keys == m.Keys
    ensures forall k :: k in r ==> r[k] != Missing
    ensures forall k :: k in m && m[k] != Missing ==> r[k] == m[k]
  {
    map k | k in m :: if m[k] == Missing then Num(0.0) else m[k]
  }

  /** After dropping the empty columns of a one-row frame, zero-filling
      changes nothing: every remaining feature is an observed value. */
  lemma FillAfterDropKeepsValues(m: map<FeatureKey, Cell>)
    ensures FillZero(DropAllMissing(m)) == DropAllMissing(m)
  {
  }

  /** The features of one batch: the pivot, then dropna and fillna. */
  function BatchFeatures(rows: seq<seq<Cell>>, names: seq<string>, idx: seq<nat>, ti: nat): map<FeatureKey, Cell>
    requires |names| == |idx| && RowsFit(rows, idx, ti)
  {
    FillZero(DropAllMissing(Pivot(rows, names, idx, ti)))
  }

  /** What the unfolded batch holds: a feature (c, t) exactly when c is a
      process parameter and the batch's row at minute t has a value in
      column c, and then that value; no feature is missing. */
  lemma BatchFeaturesExact(rows: seq<seq<Cell>>, names: seq<string>, idx: seq<nat>, ti: nat)
    requires |names| == |idx| && RowsFit(rows, idx, ti)
    requires DistinctTimes(rows, ti) && Distinct(names)
    ensures var f := BatchFeatures(rows, names, idx, ti);
      (forall key :: key in f ==> f[key] != Missing) &&
      (forall key :: key in f ==> key.channel in names && key.time in Times(rows, ti)) &&
      (forall k, j :: 0 <= k < |rows| && 0 <= j < |names| ==>
         (FeatureKey(names[j], rows[k][ti]) in f <==> rows[k][idx[j]] != Missing))
      && (forall k, j :: 0 <= k < |rows| && 0 <= j < |names| && rows[k][idx[j]] != Missing ==>
         f[FeatureKey(names[j], rows[k][ti])] == rows[k][idx[j]])
  {
    var p := Pivot(rows, names, idx, ti);
    forall key | key in BatchFeatures(rows, names, idx, ti)
      ensures key.channel in names && key.time in Times(rows, ti)
    {
      assert FeatureKey(key.channel, key.time) in p;
    }
    forall k, j | 0 <= k < |rows| && 0 <= j < |names|
      ensures FeatureKey(names[j], rows[k][ti]) in p && p[FeatureKey(names[j], rows[k][ti])] == rows[k][idx[j]]
    {
      assert rows[k][ti] in Times(rows, ti);
      PivotAt(rows, names, idx, ti, k, j);
    }
  }

  /** The pivot, dropna and fillna of the selected batch; a missing column
      or a repeated minute raises. */
  function Unfold(t: Table, selected: seq<seq<Cell>>, cpp: seq<string>, id: string): (r: Result<Unfolded, Error>)
    requires forall k :: 0 <= k < |selected| ==> |selected[k]| == |t.columns|
    ensures r.Ok? <==>
              Col(t, "Time_Min").Ok? && ResolveAll(t, cpp).Ok? &&
              DistinctTimes(selected, Col(t, "Time_Min").value)
    ensures (Col(t, "Time_Min").Ok? && ResolveAll(t, cpp).Ok? &&
             !DistinctTimes(selected, Col(t, "Time_Min").value)) ==> r == Err(DuplicateEntries)
    ensures r.Ok? ==> r.value.index == (if selected == [] then [] else [Text(id)])
    ensures r.Ok? ==>
              r.value.features == BatchFeatures(selected, cpp, ResolveAll(t, cpp).value, Col(t, "Time_Min").value)
  {
    match Col(t, "Time_Min")
    case Err(e) => Err(e)
    case Ok(ti) =>
      match ResolveAll(t, cpp)
      case Err(e) => Err(e)
      case Ok(idx) =>
        if !DistinctTimes(selected, ti) then Err(DuplicateEntries)
        else
          var index := if selected == [] then [] else [Text(id)];
          Ok(Unfolded(index, BatchFeatures(selected, cpp, idx, ti)))
  }

  // ---------------------------------------------------------------------
  // Knowledge lookup, status and the advisory

  /** The fields of the knowledge-table row the script reads. */
  datatype SopInfo = SopInfo(faultCode: Cell, rootCause: Cell, prescription: Cell, sopReference: Cell)

  /** `sop_kb[sop_kb['Fault_Type'] == fault].iloc[0]`, then its four fields:
      the first row whose key equals `fault`; no such row raises. */
  function LookupSop(sop: Table, fault: Cell): (r: Result<SopInfo, Error>)
    requires Rectangular(sop)
  {
    match Col(sop, "Fault_Type")
    case Err(e) => Err(e)
    case Ok(fi) =>
      var hits := Matching(sop.rows, fi, fault);
      if hits == [] then Err(IndexError)
      else
        var row := hits[0];
        assert |row| == |sop.columns| by {
          assert row in sop.rows;
        }
        match ResolveAll(sop, ["Fault_Code", "Root_Cause", "Prescription_Action", "SOP_Reference"])
        case Err(e) => Err(e)
        case Ok(f) => Ok(SopInfo(row[f[0]], row[f[1]], row[f[2]], row[f[3]]))
  }

  /** The lookup uses the first row with the fault's key, and fails exactly
      when no row has it (given the columns it reads). */
  lemma LookupFirstMatch(sop: Table, fault: Cell)
    requires Rectangular(sop)
    requires Col(sop, "Fault_Type").Ok?
    requires ResolveAll(sop, ["Fault_Code", "Root_Cause", "Prescription_Action", "SOP_Reference"]).Ok?
    ensures var fi := Col(sop, "Fault_Type").value;
      (LookupSop(sop, fault) == Err(IndexError) <==> forall k :: 0 <= k < |sop.rows| ==> sop.rows[k][fi] != fault) &&
      forall k :: 0 <= k < |sop.rows| && sop.rows[k][fi] == fault &&
                  (forall j :: 0 <= j < k ==> sop.rows[j][fi] != fault) ==>
        var f := ResolveAll(sop, ["Fault_Code", "Root_Cause", "Prescription_Action", "SOP_Reference"]).value;
        LookupSop(sop, fault) == Ok(SopInfo(sop.rows[k][f[0]], sop.rows[k][f[1]], sop.rows[k][f[2]], sop.rows[k][f[3]]))
  {
    var fi := Col(sop, "Fault_Type").value;
    var f := ResolveAll(sop, ["Fault_Code", "Root_Cause", "Prescription_Action", "SOP_Reference"]).value;
    assert forall k :: 0 <= k < |sop.rows| ==> fi < |sop.rows[k]|;
    LookupSopHits(sop, fault);
    assert LookupSop(sop, fault) == Err(IndexError) <==> forall k :: 0 <= k < |sop.rows| ==> sop.rows[k][fi] != fault by {
      MatchingSpec(sop.rows, fi, fault);
    }
    forall k | 0 <= k < |sop.rows| && sop.rows[k][fi] == fault && (forall j :: 0 <= j < k ==> sop.rows[j][fi] != fault)
      ensures LookupSop(sop, fault) == Ok(SopInfo(sop.rows[k][f[0]], sop.rows[k][f[1]], sop.rows[k][f[2]], sop.rows[k][f[3]]))
    {
      LookupAt(sop, fault, fi, f, k);
    }
  }

  /** The lookup of a key whose first row is k reads row k. */
  lemma LookupAt(sop: Table, fault: Cell, fi: nat, f: seq<nat>, k: nat)
    requires Rectangular(sop)
    requires Col(sop, "Fault_Type") == Ok(fi)
    requires ResolveAll(sop, ["Fault_Code", "Root_Cause", "Prescription_Action", "SOP_Reference"]) == Ok(f)
    requires k < |sop.rows| && sop.rows[k][fi] == fault && forall j :: 0 <= j < k ==> sop.rows[j][fi] != fault
    requires |f| == 4 && f[0] < |sop.columns| && f[1] < |sop.columns| && f[2] < |sop.columns| && f[3] < |sop.columns|
    ensures LookupSop(sop, fault) == Ok(SopInfo(sop.rows[k][f[0]], sop.rows[k][f[1]], sop.rows[k][f[2]], sop.rows[k][f[3]]))
  {
    assert forall i :: 0 <= i < |sop.rows| ==> fi < |sop.rows[i]|;
    MatchingFirst(sop.rows, fi, fault, k);
    var hits := Matching(sop.rows, fi, fault);
    assert hits != [] && hits[0] == sop.rows[k];
    LookupSopHits(sop, fault);
  }

  /** LookupSop, once both of its column lookups succeed: the first hit's
      fields, or IndexError when there is no hit. */
  lemma LookupSopHits(sop: Table, fault: Cell)
    requires Rectangular(sop)
    requires Col(sop, "Fault_Type").Ok?
    requires ResolveAll(sop, ["Fault_Code", "Root_Cause", "Prescription_Action", "SOP_Reference"]).Ok?
    ensures var hits := Matching(sop.rows, Col(sop, "Fault_Type").value, fault);
      var f := ResolveAll(sop, ["Fault_Code", "Root_Cause", "Prescription_Action", "SOP_Reference"]).value;
      LookupSop(sop, fault) ==
        if hits == [] then Err(IndexError)
        else Ok(SopInfo(hits[0][f[0]], hits[0][f[1]], hits[0][f[2]], hits[0][f[3]]))
  {
    var hits := Matching(sop.rows, Col(sop, "Fault_Type").value, fault);
    assert hits != [] ==> hits[0] in sop.rows;
  }

  datatype Status = Scrap | Salvageable

  /** SCRAP when the predicted height is below the 7.5 cm target. */
  function StatusOf(predicted: real): Status
  {
    if predicted < ScrapThreshold then Scrap else Salvageable
  }

  lemma StatusThreshold(predicted: real)
    ensures StatusOf(predicted) == Scrap <==> predicted < 7.5
    ensures StatusOf(7.5) == Salvageable && StatusOf(6.8) == Scrap && StatusOf(7.6) == Salvageable
  {
  }

  /** What the script ends with: an alert for a faulty batch, a status line
      for a Normal one, or the top-level handler's report (no advisory). */
  datatype Advisory =
    | FaultAlert(batchId: string, faultCode: Cell, predicted: real, status: Status,
                 rootCause: Cell, prescription: Cell, sopReference: Cell)
    | NormalReport(batchId: string, predicted: real)
    | Fatal(error: Error)

  /** `fault_data['Fault_Type'].iloc[0]`: the label on the batch's first row. */
  function FirstLabel(full: Table, selected: seq<seq<Cell>>): (r: Result<Cell, Error>)
    requires forall k :: 0 <= k < |selected| ==> |selected[k]| == |full.columns|
    ensures r.Ok? ==>
              (Col(full, "Fault_Type").Ok? && selected != [] &&
               r.value == selected[0][Col(full, "Fault_Type").value])
    ensures r.Ok? <==> Col(full, "Fault_Type").Ok? && selected != []
    ensures selected == [] && Col(full, "Fault_Type").Ok? ==> r == Err(IndexError)
  {
    match Col(full, "Fault_Type")
    case Err(e) => Err(e)
    case Ok(fi) => if selected == [] then Err(IndexError) else Ok(selected[0][fi])
  }

  /** The branch on the label: a fault is looked up and classified, Normal
      is reported as it is. */
  function Act(fault: Cell, sop: Table, id: string, predicted: real): (a: Advisory)
    requires Rectangular(sop)
    ensures a.NormalReport? <==> fault == Text("Normal")
    ensures a.NormalReport? ==> a == NormalReport(id, predicted)
    ensures a.FaultAlert? ==>
              (a.batchId == id && a.predicted == predicted &&
               (a.status == Scrap <==> predicted < ScrapThreshold) &&
               LookupSop(sop, fault) == Ok(SopInfo(a.faultCode, a.rootCause, a.prescription, a.sopReference)))
    ensures a.Fatal? ==> fault != Text("Normal") && LookupSop(sop, fault) == Err(a.error)
  {
    if fault != Text("Normal") then
      match LookupSop(sop, fault)
      case Err(e) => Fatal(e)
      case Ok(info) =>
        FaultAlert(id, info.faultCode, predicted, StatusOf(predicted),
                   info.rootCause, info.prescription, info.sopReference)
    else NormalReport(id, predicted)
  }

  /** The rows of batch `id`, once its column is found. */
  function SelectBatch(full: Table, id: string): (r: Result<seq<seq<Cell>>, Error>)
    requires Rectangular(full)
    ensures r.Ok? ==> forall k :: 0 <= k < |r.value| ==> |r.value[k]| == |full.columns|
    ensures r.Ok? ==>
              (Col(full, "Batch_ID").Ok? &&
               r.value == Matching(full.rows, Col(full, "Batch_ID").value, Text(id)))
    ensures r.Err? <==> Col(full, "Batch_ID").Err?
    ensures r.Err? ==> r.error == Col(full, "Batch_ID").error
  {
    match Col(full, "Batch_ID")
    case Err(e) => Err(e)
    case Ok(bi) =>
      var selected := Matching(full.rows, bi, Text(id));
      assert forall k :: 0 <= k < |selected| ==> |selected[k]| == |full.columns| by {
        forall k | 0 <= k < |selected| ensures |selected[k]| == |full.columns| {
          assert selected[k] in full.rows;
        }
      }
      Ok(selected)
  }

  /** Everything after the cleaning: select, unfold, predict, read the label
      off the batch's first row, and act on it. */
  function Advise(full: Table, sop: Table, id: string, predict: Unfolded -> Option<real>): Advisory
    requires Rectangular(full) && Rectangular(sop)
  {
    match SelectBatch(full, id)
    case Err(e) => Fatal(e)
    case Ok(selected) =>
      match Unfold(full, selected, CppColumns(full.columns), id)
      case Err(e) => Fatal(e)
      case Ok(u) =>
        match predict(u)
        case None => Fatal(PredictorFailed)
        case Some(predicted) =>
          match FirstLabel(full, selected)
          case Err(e) => Fatal(e)
          case Ok(fault) => Act(fault, sop, id, predicted)
  }

  /** The label of batch `id`: the `Fault_Type` cell of its first row. */
  function BatchLabel(full: Table, id: string): Option<Cell>
    requires Rectangular(full)
  {
    match SelectBatch(full, id)
    case Err(_) => None
    case Ok(selected) =>
      match FirstLabel(full, selected)
      case Err(_) => None
      case Ok(fault) => Some(fault)
  }

  /** Whatever the script advises, other than an error, is the branch on
      the batch's first-row label: an alert only for a label other than
      Normal, carrying the first matching knowledge row and the threshold
      status; a Normal report only for a Normal batch. Either one comes
      only from a selection and an unfolding that succeeded, and reports
      the predictor's own answer for the unfolded batch. */
  lemma AdviseByLabel(full: Table, sop: Table, id: string, predict: Unfolded -> Option<real>)
    requires Rectangular(full) && Rectangular(sop)
    ensures var a := Advise(full, sop, id, predict);
      (a.FaultAlert? ==>
         BatchLabel(full, id).Some? && BatchLabel(full, id).value != Text("Normal") &&
         a.status == StatusOf(a.predicted) && a.batchId == id &&
         LookupSop(sop, BatchLabel(full, id).value) ==
           Ok(SopInfo(a.faultCode, a.rootCause, a.prescription, a.sopReference))) &&
      (a.NormalReport? ==> BatchLabel(full, id) == Some(Text("Normal")) && a.batchId == id) &&
      (!a.Fatal? ==>
         SelectBatch(full, id).Ok? &&
         Unfold(full, SelectBatch(full, id).value, CppColumns(full.columns), id).Ok? &&
         predict(Unfold(full, SelectBatch(full, id).value, CppColumns(full.columns), id).value) == Some(a.predicted))
  {
    var a := Advise(full, sop, id, predict);
    if !a.Fatal? {
      var selected := SelectBatch(full, id).value;
      var u := Unfold(full, selected, CppColumns(full.columns), id).value;
      var predicted := predict(u).value;
      var fault := FirstLabel(full, selected).value;
      assert a == Act(fault, sop, id, predicted);
      assert BatchLabel(full, id) == Some(fault);
    }
  }

  /** Conversely, once selection, unfolding and prediction succeed on a
      batch with a label: a Normal batch gets the Normal report of the
      predicted value, and a faulty batch whose label has a knowledge row
      gets an alert for that predicted value. */
  lemma AdviseOutcome(full: Table, sop: Table, id: string, predict: Unfolded -> Option<real>,
                      selected: seq<seq<Cell>>, u: Unfolded, v: real)
    requires Rectangular(full) && Rectangular(sop)
    requires SelectBatch(full, id) == Ok(selected)
    requires Unfold(full, selected, CppColumns(full.columns), id) == Ok(u)
    requires predict(u) == Some(v)
    requires BatchLabel(full, id).Some?
    ensures BatchLabel(full, id) == Some(Text("Normal")) ==> Advise(full, sop, id, predict) == NormalReport(id, v)
    ensures BatchLabel(full, id).value != Text("Normal") && LookupSop(sop, BatchLabel(full, id).value).Ok? ==>
              Advise(full, sop, id, predict).FaultAlert? && Advise(full, sop, id, predict).predicted == v &&
              Advise(full, sop, id, predict).status == StatusOf(v)
  {
    assert FirstLabel(full, selected) == Ok(BatchLabel(full, id).value);
  }

  /** For a Normal batch the knowledge table is not consulted: the outcome
      is the same whatever the knowledge table holds, and never an alert. */
  lemma NormalIgnoresKnowledge(full: Table, sop1: Table, sop2: Table, id: string, predict: Unfolded -> Option<real>)
    requires Rectangular(full) && Rectangular(sop1) && Rectangular(sop2)
    requires BatchLabel(full, id) == Some(Text("Normal"))
    ensures Advise(full, sop1, id, predict) == Advise(full, sop2, id, predict)
    ensures !Advise(full, sop1, id, predict).FaultAlert?
  {
    var selected := SelectBatch(full, id).value;
    assert FirstLabel(full, selected) == Ok(Text("Normal"));
    var u := Unfold(full, selected, CppColumns(full.columns), id);
    if u.Ok? && predict(u.value).Some? {
      var predicted := predict(u.value).value;
      assert Act(Text("Normal"), sop1, id, predicted) == NormalReport(id, predicted);
      assert Act(Text("Normal"), sop2, id, predicted) == NormalReport(id, predicted);
    }
  }

  /** A faulty batch whose label has no knowledge row gets no advisory. */
  lemma UnknownFaultNoAdvisory(full: Table, sop: Table, id: string, predict: Unfolded -> Option<real>)
    requires Rectangular(full) && Rectangular(sop)
    requires BatchLabel(full, id).Some? && BatchLabel(full, id).value != Text("Normal")
    requires Col(sop, "Fault_Type").Ok?
    requires forall k :: 0 <= k < |sop.rows| ==> sop.rows[k][Col(sop, "Fault_Type").value] != BatchLabel(full, id).value
    ensures Advise(full, sop, id, predict).Fatal?
  {
    var selected := SelectBatch(full, id).value;
    var fault := FirstLabel(full, selected).value;
    MatchingSpec(sop.rows, Col(sop, "Fault_Type").value, fault);
    assert LookupSop(sop, fault) == Err(IndexError);
  }

  // ---------------------------------------------------------------------
  // The whole script

  /** The cleaning of both frames' headers and `Fault_Type` columns,
      followed by the advisory, on the frames as loaded. */
  function Run(full: Table, sop: Table, id: string, predict: Unfolded -> Option<real>): Advisory
    requires Rectangular(full) && Rectangular(sop)
  {
    var full1 := full.(columns := StripAll(full.columns));
    var sop1 := sop.(columns := StripAll(sop.columns));
    match CleanColumn(full1, "Fault_Type")
    case Err(e) => Fatal(e)
    case Ok(full2) =>
      match CleanColumn(sop1, "Fault_Type")
      case Err(e) => Fatal(e)
      case Ok(sop2) => Advise(full2, sop2, id, predict)
  }

  /** The script: clean both frames in place, then advise. Both frames end
      with stripped headers; each `Fault_Type` column is cleaned when its
      cleaning is reached and succeeds, and the frame keeps its stripped
      headers and old rows otherwise (the knowledge frame is not cleaned
      when the dataset's cleaning raises). */
  method Simulate(full: Frame, sop: Frame, id: string, predict: Unfolded -> Option<real>) returns (a: Advisory)
    requires full.Valid() && sop.Valid() && full != sop
    modifies full, sop
    ensures a == Run(old(full.Contents()), old(sop.Contents()), id, predict)
    ensures full.Valid() && sop.Valid()
    ensures full.columns == StripAll(old(full.columns)) && sop.columns == StripAll(old(sop.columns))
    ensures var full1 := old(full.Contents()).(columns := StripAll(old(full.columns)));
      var sop1 := old(sop.Contents()).(columns := StripAll(old(sop.columns)));
      (CleanColumn(full1, "Fault_Type").Ok? ==> full.Contents() == CleanColumn(full1, "Fault_Type").value) &&
      (CleanColumn(full1, "Fault_Type").Err? ==> full.Contents() == full1 && sop.Contents() == sop1) &&
      (CleanColumn(full1, "Fault_Type").Ok? && CleanColumn(sop1, "Fault_Type").Ok? ==>
         sop.Contents() == CleanColumn(sop1, "Fault_Type").value) &&
      (CleanColumn(full1, "Fault_Type").Ok? && CleanColumn(sop1, "Fault_Type").Err? ==> sop.Contents() == sop1)
  {
    full.StripHeaders();
    sop.StripHeaders();
    var err := full.CleanTextColumn("Fault_Type");
    if err.Some? {
      return Fatal(err.value);
    }
    err := sop.CleanTextColumn("Fault_Type");
    if err.Some? {
      return Fatal(err.value);
    }
    a := Advise(full.Contents(), sop.Contents(), id, predict);
  }

  /** Cleaning a cell twice is cleaning it once. */
  lemma CleanCellIdempotent(c: Cell)
    ensures CleanCell(CleanCell(c)) == CleanCell(c)
  {
    if c.Text? {
      StripIdempotent(c.s);
    }
  }

  /** Cleaning a column twice is cleaning it once. */
  lemma CleanColumnIdempotent(t: Table, name: string)
    requires Rectangular(t) && CleanColumn(t, name).Ok?
    ensures CleanColumn(CleanColumn(t, name).value, name) == CleanColumn(t, name)
  {
    var c := CleanColumn(t, name).value;
    var i := Col(t, name).value;
    assert Col(c, name) == Col(t, name);
    var again := CleanColumn(c, name).value;
    forall k | 0 <= k < |c.rows|
      ensures again.rows[k] == c.rows[k]
    {
      CleanCellIdempotent(t.rows[k][i]);
    }
    assert again.rows == c.rows;
    assert again == c;
  }

  /** After the script's cleaning every header is trimmed, and cleaning
      again would change nothing (its `Fault_Type` texts are trimmed too,
      by CleanedCellsTrimmed). */
  lemma CleaningTrims(t: Table)
    requires Rectangular(t)
    requires CleanColumn(t.(columns := StripAll(t.columns)), "Fault_Type").Ok?
    ensures var c := CleanColumn(t.(columns := StripAll(t.columns)), "Fault_Type").value;
      (forall j :: 0 <= j < |c.columns| ==> Trimmed(c.columns[j])) &&
      StripAll(c.columns) == c.columns &&
      CleanColumn(c, "Fault_Type") == Ok(c)
  {
    var t1 := t.(columns := StripAll(t.columns));
    var c := CleanColumn(t1, "Fault_Type").value;
    assert c.columns == StripAll(t.columns);
    StripAllIdempotent(t.columns);
    CleanColumnIdempotent(t1, "Fault_Type");
  }

  /** Every text left in a cleaned column is trimmed. */
  lemma CleanedCellsTrimmed(t: Table, name: string)
    requires Rectangular(t) && CleanColumn(t, name).Ok?
    ensures var c := CleanColumn(t, name).value;
      Col(c, name).Ok? &&
      forall k :: 0 <= k < |c.rows| && c.rows[k][Col(c, name).value].Text? ==> Trimmed(c.rows[k][Col(c, name).value].s)
  {
    var c := CleanColumn(t, name).value;
    var i := Col(t, name).value;
    assert Col(c, name) == Col(t, name);
    forall k | 0 <= k < |c.rows| && c.rows[k][i].Text?
      ensures Trimmed(c.rows[k][i].s)
    {
      assert c.rows[k][i] == CleanCell(t.rows[k][i]);
    }
  }
}
