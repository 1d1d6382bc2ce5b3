/** Values shared by the generator and the trigger: the cells and tables of a
    pandas data frame as it is after a CSV round trip, and the column lookup
    both scripts rely on. */
module Tabular {

  datatype Option<+T> = None | Some(value: T)

  datatype Result<+T, +E> = Ok(value: T) | Err(error: E)

  /** One cell of a loaded frame: NaN, a number, or text. */
  datatype Cell = Missing | Num(x: real) | Text(s: string)

  /** A frame: its header and its rows, each row one cell per column. */
  datatype Table = Table(columns: seq<string>, rows: seq<seq<Cell>>)

  predicate Rectangular(t: Table)
  {
    forall i :: 0 <= i < |t.rows| ==> |t.rows[i]| == |t.columns|
  }

  /** What `df[name]` finds: no such column, exactly one, or several. */
  datatype ColumnLookup = NoColumn | Column(index: nat) | SeveralColumns

  /** The first position of `name` in `cols`, if any. */
  function IndexOf(cols: seq<string>, name: string): (r: Option<nat>)
    ensures r.Some? ==> r.value < |cols| && cols[r.value] == name
  {
    if cols == [] then None
    else if cols[0] == name then Some(0)
    else match IndexOf(cols[1..], name)
      case None => None
      case Some(i) => Some(i + 1)
  }

  /** IndexOf finds the first occurrence, and fails only when there is none. */
  lemma {:induction false} IndexOfSpec(cols: seq<string>, name: string)
    ensures IndexOf(cols, name).None? <==> name !in cols
    ensures IndexOf(cols, name).Some? ==> forall j :: 0 <= j < IndexOf(cols, name).value ==> cols[j] != name
  {
    if cols != [] && cols[0] != name {
      IndexOfSpec(cols[1..], name);
      assert cols == [cols[0]] + cols[1..];
    }
  }

  function FindColumn(cols: seq<string>, name: string): (r: ColumnLookup)
    ensures r.Column? ==> r.index < |cols| && cols[r.index] == name
  {
    match IndexOf(cols, name)
    case None => NoColumn
    case Some(i) => if name in cols[i + 1..] then SeveralColumns else Column(i)
  }

  /** `df[name]` finds nothing exactly when the name is absent, one column
      exactly when it occurs once, and several exactly when it repeats. */
  lemma FindColumnSpec(cols: seq<string>, name: string)
    ensures FindColumn(cols, name) == NoColumn <==> name !in cols
    ensures FindColumn(cols, name).Column? ==>
              forall j :: 0 <= j < |cols| && j != FindColumn(cols, name).index ==> cols[j] != name
    ensures FindColumn(cols, name) == SeveralColumns <==>
              exists i, j :: 0 <= i < j < |cols| && cols[i] == name && cols[j] == name
  {
    IndexOfSpec(cols, name);
    match IndexOf(cols, name)
    case None =>
    case Some(i) =>
      if name in cols[i + 1..] {
        var j := IndexOf(cols[i + 1..], name);
        IndexOfSpec(cols[i + 1..], name);
        assert cols[i + 1 + j.value] == name;
      } else {
        assert forall j :: i < j < |cols| ==> cols[j] == cols[i + 1..][j - i - 1];
      }
  }

  /** True when no name occurs twice. */
  predicate Distinct<T(==)>(s: seq<T>)
  {
    forall i, j :: 0 <= i < j < |s| ==> s[i] != s[j]
  }
}
