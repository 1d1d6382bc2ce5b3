/** How the three scripts fit together: the labels the generator writes are
    the knowledge table's keys, and the trigger, run on the exported dataset
    and the exported knowledge table, raises the Door_Open advisory for
    batch C-1085. */
module Pipeline {
  import opened Tabular
  import G = BatchGenerator
  import K = SopKnowledge
  import T = Trigger

  /** The labels the generator writes. */
  predicate KnownLabel(fault: string)
  {
    fault == "Normal" || fault == "Door_Open" || fault == "Under_Mixed_Batter"
  }

  /** The generator writes only the three known labels. */
  lemma ScenarioLabels()
    ensures forall k :: 0 <= k < |G.FaultScenarios()| ==> KnownLabel(G.FaultScenarios()[k])
  {
    G.ScenarioBlocks();
  }

  /** Every label the generator writes has an entry in the knowledge base. */
  lemma ScenarioLabelsKnown()
    ensures forall fault :: KnownLabel(fault) ==> K.FindEntry(K.KnowledgeBase(), fault).Some?
  {
    K.KnownFaultEntries();
  }

  /** The trigger's lookup of every label the generator writes succeeds on
      the exported knowledge table. */
  lemma KnownLabelsFound(fault: string)
    requires KnownLabel(fault)
    ensures T.LookupSop(K.AsTable(K.KnowledgeBase()), Text(fault)).Ok?
  {
    K.KnownFaultEntries();
    FindEntryAgrees(K.KnowledgeBase(), fault);
  }

  /** The batch the trigger inspects is the 85th generated one, numbered
      1085, and it is a Door_Open batch; no other batch carries its
      identifier. */
  lemma FaultyBatchIsDoorOpen()
    ensures G.BatchId(G.FirstBatchNumber + 84) == T.FaultyBatchId
    ensures G.FaultScenarios()[84] == "Door_Open"
    ensures forall n: nat :: G.BatchId(n) == T.FaultyBatchId ==> n == 1085
  {
    G.ScenarioBlocks();
    assert G.DecimalString(1085) == "1085" by {
      assert G.DecimalString(1) == "1";
      assert G.DecimalString(10) == "10";
      assert G.DecimalString(108) == "108";
    }
    forall n: nat | G.BatchId(n) == T.FaultyBatchId
      ensures n == 1085
    {
      G.BatchIdsUnique(n, 1085);
    }
  }

  /** The trigger's process parameters in the exported dataset are the
      three channels, in header order. */
  lemma ExportedCppColumns()
    ensures T.CppColumns(G.ExportColumns) == ["Oven_Temp_Actual", "Batter_Center_Temp", "Stirrer_Power_Online"]
  {
    ExportedNamesClassified();
    var c := G.ExportColumns;
    assert !T.IsCpp(c[4]) && !T.IsCpp(c[5]) && !T.IsCpp(c[6]) && !T.IsCpp(c[7]) && !T.IsCpp(c[8]);
    CppNone(c[4..]);
    CppCons(c[3..]);
    CppCons(c[2..]);
    CppCons(c[1..]);
    CppCons(c);
  }

  lemma CppCons(s: seq<string>)
    requires s != []
    ensures T.CppColumns(s) == (if T.IsCpp(s[0]) then [s[0]] else []) + T.CppColumns(s[1..])
  {
  }

  lemma {:induction false} CppNone(s: seq<string>)
    requires forall i :: 0 <= i < |s| ==> !T.IsCpp(s[i])
    ensures T.CppColumns(s) == []
  {
    if s != [] {
      CppNone(s[1..]);
    }
  }

  /** Which exported column names mention Temp or Power. */
  lemma ExportedNamesClassified()
    ensures T.IsCpp("Oven_Temp_Actual") && T.IsCpp("Batter_Center_Temp") && T.IsCpp("Stirrer_Power_Online")
    ensures !T.IsCpp("Time_Min") && !T.IsCpp("Final_Height") && !T.IsCpp("Final_Moisture")
    ensures !T.IsCpp("Internal_Doneness") && !T.IsCpp("Fault_Type") && !T.IsCpp("Batch_ID")
  {
    assert T.OccursAt("Oven_Temp_Actual", "Temp", 5);
    assert T.OccursAt("Batter_Center_Temp", "Temp", 14);
    assert T.OccursAt("Stirrer_Power_Online", "Power", 8);
    LacksChar("Time_Min", "Temp", 3);
    LacksChar("Time_Min", "Power", 0);
    LacksChar("Final_Height", "Temp", 0);
    LacksChar("Final_Height", "Power", 0);
    LacksChar("Final_Moisture", "Temp", 0);
    LacksChar("Final_Moisture", "Power", 0);
    LacksChar("Internal_Doneness", "Temp", 0);
    LacksChar("Internal_Doneness", "Power", 0);
    LacksChar("Fault_Type", "Temp", 2);
    LacksChar("Fault_Type", "Power", 0);
    LacksChar("Batch_ID", "Temp", 0);
    LacksChar("Batch_ID", "Power", 0);
  }

  /** `part in s` fails when some character of `part` never occurs in s. */
  lemma LacksChar(s: string, part: string, j: nat)
    requires j < |part| && forall i :: 0 <= i < |s| ==> s[i] != part[j]
    ensures !T.Contains(s, part)
  {
    forall i: nat | i <= |s|
      ensures !T.OccursAt(s, part, i)
    {
      if i + |part| <= |s| {
        assert s[i..i + |part|][j] == s[i + j];
      }
    }
  }

  // ---------------------------------------------------------------------
  // The trigger on the generated dataset

  /** The exported rows, cell by cell. */
  function Cells(rows: seq<G.Row>): (r: seq<seq<Cell>>)
    ensures |r| == |rows|
    ensures forall i :: 0 <= i < |rows| ==> r[i] == G.RowCells(rows[i])
  {
    seq(|rows|, i requires 0 <= i < |rows| => G.RowCells(rows[i]))
  }

  lemma CellsAppend(a: seq<G.Row>, b: seq<G.Row>)
    ensures Cells(a + b) == Cells(a) + Cells(b)
  {
  }

  /** The batches the driver returns for the given draws. */
  predicate Generated(batches: seq<seq<G.Row>>, draws: seq<G.BatchDraws>)
  {
    |draws| == |G.FaultScenarios()| && |batches| == |draws| &&
    forall i :: 0 <= i < |draws| ==>
      G.DrawsFor(draws[i], G.TimeSteps) && batches[i] == G.GeneratedBatch(i, G.FaultScenarios()[i], draws[i])
  }

  /** What the rows of batch i carry: its minute, its identifier, its label. */
  predicate BatchRows(b: seq<G.Row>, i: nat)
  {
    i < |G.FaultScenarios()| && |b| == G.TimeSteps &&
    forall k :: 0 <= k < |b| ==>
      b[k].timeMin == k && b[k].batchId == Some(IdOf(i)) &&
      b[k].faultType == Some(G.FaultScenarios()[i])
  }

  /** One batch per scenario, each carrying what `BatchRows` says. */
  predicate Described(batches: seq<seq<G.Row>>)
  {
    |batches| == |G.FaultScenarios()| && forall i :: 0 <= i < |batches| ==> BatchRows(batches[i], i)
  }

  lemma GeneratedDescribed(batches: seq<seq<G.Row>>, draws: seq<G.BatchDraws>)
    requires Generated(batches, draws)
    ensures Described(batches)
  {
    forall i | 0 <= i < |batches|
      ensures BatchRows(batches[i], i)
    {
      G.GeneratedBatchShape(i, G.FaultScenarios()[i], draws[i]);
    }
  }

  /** No column name occurs twice in either exported header. */
  lemma HeadersDistinct()
    ensures Distinct(G.ExportColumns) && Distinct(K.SopHeader)
  {
    var c := G.ExportColumns;
    assert |c[0]| == 8 && |c[1]| == 16 && |c[2]| == 18 && |c[3]| == 20 && |c[4]| == 12;
    assert |c[5]| == 14 && |c[6]| == 17 && |c[7]| == 10 && |c[8]| == 8;
    assert c[0][0] != c[8][0];
    var h := K.SopHeader;
    assert |h[0]| == 10 && |h[1]| == 10 && |h[2]| == 10 && |h[3]| == 19 && |h[4]| == 13;
    assert h[0][6] != h[1][6] && h[0][0] != h[2][0] && h[1][0] != h[2][0];
  }

  /** In a header without repeats, each name is found at its own position. */
  lemma ColAt(t: Table, name: string, k: nat)
    requires Distinct(t.columns) && k < |t.columns| && t.columns[k] == name
    ensures T.Col(t, name) == Ok(k)
  {
    FindColumnSpec(t.columns, name);
  }

  /** Neither exported header carries whitespace to strip. */
  lemma HeadersTrimmed()
    ensures T.StripAll(G.ExportColumns) == G.ExportColumns
    ensures T.StripAll(K.SopHeader) == K.SopHeader
  {
    ExportHeaderTrimmed();
    SopHeaderTrimmed();
  }

  /** A name that starts and ends with a letter has nothing to strip. */
  lemma LetterEnds(s: string)
    requires LetterName(s)
    ensures T.Strip(s) == s
  {
    LetterTrimmed(s);
    T.StripTrimmed(s);
  }

  /** A name that starts and ends with a letter is trimmed. */
  lemma LetterTrimmed(s: string)
    requires LetterName(s)
    ensures T.Trimmed(s)
  {
    LetterNotSpace(s[0]);
    LetterNotSpace(s[|s| - 1]);
  }

  lemma LetterNotSpace(c: char)
    requires IsLetter(c)
    ensures !T.IsSpace(c)
  {
  }

  predicate IsLetter(c: char)
  {
    'A' <= c <= 'Z' || 'a' <= c <= 'z'
  }

  predicate LetterName(s: string)
  {
    s != [] && IsLetter(s[0]) && IsLetter(s[|s| - 1])
  }

  /** Every name starts and ends with a letter. */
  predicate LetterNames(names: seq<string>)
  {
    names == [] || (LetterName(names[0]) && LetterNames(names[1..]))
  }

  /** Names that all start and end with letters are kept by StripAll. */
  lemma {:induction false} StripAllKeeps(names: seq<string>)
    requires LetterNames(names)
    ensures T.StripAll(names) == names
  {
    if names != [] {
      var rest := names[1..];
      StripAllKeeps(rest);
      forall k | 0 <= k < |names|
        ensures T.StripAll(names)[k] == names[k]
      {
        if k == 0 {
          LetterEnds(names[0]);
        } else {
          assert names[k] == rest[k - 1];
          assert T.StripAll(rest)[k - 1] == rest[k - 1];
        }
      }
    }
  }

  lemma ExportHeaderTrimmed()
    ensures T.StripAll(G.ExportColumns) == G.ExportColumns
  {
    StripAllKeeps(G.ExportColumns);
  }

  lemma SopHeaderTrimmed()
    ensures T.StripAll(K.SopHeader) == K.SopHeader
  {
    StripAllKeeps(K.SopHeader);
  }

  /** The labels the generator writes have nothing to strip. */
  lemma KnownLabelTrimmed(fault: string)
    requires KnownLabel(fault)
    ensures T.Trimmed(fault)
  {
    assert LetterName(fault);
    LetterTrimmed(fault);
  }

  /** Cleaning a column whose cells are already clean changes nothing. */
  lemma CleanColumnUnchanged(t: Table, name: string)
    requires Rectangular(t) && T.Col(t, name).Ok?
    requires forall k :: 0 <= k < |t.rows| ==>
               T.CleanCell(t.rows[k][T.Col(t, name).value]) == t.rows[k][T.Col(t, name).value]
    ensures T.CleanColumn(t, name) == Ok(t)
  {
    var i := T.Col(t, name).value;
    var c := T.CleanColumn(t, name).value;
    forall k | 0 <= k < |t.rows|
      ensures c.rows[k] == t.rows[k]
    {
      assert t.rows[k][i := t.rows[k][i]] == t.rows[k];
    }
    assert c.rows == t.rows;
  }

  /** Every row carries a label with nothing to strip. */
  predicate TrimmedLabels(rows: seq<G.Row>)
  {
    forall k :: 0 <= k < |rows| ==> rows[k].faultType.Some? && T.Trimmed(rows[k].faultType.value)
  }

  lemma TrimmedLabelsAppend(a: seq<G.Row>, b: seq<G.Row>)
    requires TrimmedLabels(a) && TrimmedLabels(b)
    ensures TrimmedLabels(a + b)
  {
    forall k | |a| <= k < |a + b|
      ensures (a + b)[k] == b[k - |a|]
    {
    }
  }

  /** The first n generated batches, concatenated, carry trimmed labels. */
  lemma {:induction false} ConcatLabels(batches: seq<seq<G.Row>>, n: nat)
    requires Described(batches) && n <= |batches|
    ensures TrimmedLabels(G.Concat(batches[..n]))
  {
    if n > 0 {
      var prefix := batches[..n - 1];
      ConcatLabels(batches, n - 1);
      assert batches[..n][..n - 1] == prefix;
      assert G.Concat(batches[..n]) == G.Concat(prefix) + batches[n - 1];
      var fault := G.FaultScenarios()[n - 1];
      assert BatchRows(batches[n - 1], n - 1);
      ScenarioLabels();
      KnownLabelTrimmed(fault);
      TrimmedLabelsAppend(G.Concat(prefix), batches[n - 1]);
    }
  }

  /** The exported dataset is its rows' cells. */
  lemma ExportRows(batches: seq<seq<G.Row>>)
    ensures G.ExportTable(batches).rows == Cells(G.Concat(batches))
  {
  }

  /** A trimmed text cell is already clean. */
  lemma CleanTrimmedText(s: string)
    requires T.Trimmed(s)
    ensures T.CleanCell(Text(s)) == Text(s)
  {
    T.StripTrimmed(s);
  }

  /** Each name of the exported header is found at its own position. */
  lemma DatasetColAt(t: Table, k: nat)
    requires t.columns == G.ExportColumns && k < |G.ExportColumns|
    ensures T.Col(t, G.ExportColumns[k]) == Ok(k)
  {
    HeadersDistinct();
    ColAt(t, G.ExportColumns[k], k);
  }

  /** Where the trigger finds the columns of a frame with the exported
      dataset's header. */
  lemma DatasetColumns(t: Table)
    requires t.columns == G.ExportColumns
    ensures T.Col(t, "Time_Min") == Ok(0) && T.Col(t, "Fault_Type") == Ok(7) && T.Col(t, "Batch_ID") == Ok(8)
    ensures T.Col(t, "Oven_Temp_Actual") == Ok(1) && T.Col(t, "Batter_Center_Temp") == Ok(2)
    ensures T.Col(t, "Stirrer_Power_Online") == Ok(3)
  {
    DatasetColAt(t, 0);
    DatasetColAt(t, 1);
    DatasetColAt(t, 2);
    DatasetColAt(t, 3);
    DatasetColAt(t, 7);
    DatasetColAt(t, 8);
  }

  /** Where the trigger finds the columns of a frame with the knowledge
      table's header. */
  lemma KnowledgeColumns(t: Table)
    requires t.columns == K.SopHeader
    ensures T.Col(t, "Fault_Type") == Ok(0) && T.Col(t, "Fault_Code") == Ok(1)
    ensures T.Col(t, "Root_Cause") == Ok(2) && T.Col(t, "Prescription_Action") == Ok(3)
    ensures T.Col(t, "SOP_Reference") == Ok(4)
  {
    HeadersDistinct();
    ColAt(t, "Fault_Type", 0);
    ColAt(t, "Fault_Code", 1);
    ColAt(t, "Root_Cause", 2);
    ColAt(t, "Prescription_Action", 3);
    ColAt(t, "SOP_Reference", 4);
  }

  /** Every row of the generated dataset carries a trimmed label. */
  lemma DatasetLabelsTrimmed(batches: seq<seq<G.Row>>)
    requires Described(batches)
    ensures TrimmedLabels(G.Concat(batches))
  {
    assert batches[..|batches|] == batches;
    ConcatLabels(batches, |batches|);
  }

  /** A row with a trimmed label exports a clean label cell. */
  lemma RowLabelClean(r: G.Row)
    requires r.faultType.Some? && T.Trimmed(r.faultType.value)
    ensures T.CleanCell(G.RowCells(r)[7]) == G.RowCells(r)[7]
  {
    assert G.RowCells(r)[7] == Text(r.faultType.value);
    CleanTrimmedText(r.faultType.value);
  }

  /** Every label cell of the exported dataset is clean. */
  lemma DatasetCellsClean(batches: seq<seq<G.Row>>)
    requires TrimmedLabels(G.Concat(batches))
    ensures var t := G.ExportTable(batches);
      forall k :: 0 <= k < |t.rows| ==> T.CleanCell(t.rows[k][7]) == t.rows[k][7]
  {
    var t := G.ExportTable(batches);
    var rows := G.Concat(batches);
    ExportRows(batches);
    forall k | 0 <= k < |t.rows|
      ensures T.CleanCell(t.rows[k][7]) == t.rows[k][7]
    {
      RowLabelClean(rows[k]);
    }
  }

  /** Cleaning the exported dataset's labels changes nothing. */
  lemma DatasetLabelsClean(batches: seq<seq<G.Row>>)
    requires Described(batches)
    ensures T.CleanColumn(G.ExportTable(batches), "Fault_Type") == Ok(G.ExportTable(batches))
  {
    DatasetColumns(G.ExportTable(batches));
    DatasetLabelsTrimmed(batches);
    DatasetCellsClean(batches);
    CleanColumnUnchanged(G.ExportTable(batches), "Fault_Type");
  }

  /** The cleaning the trigger applies leaves the exported dataset as it is. */
  lemma DatasetSurvivesCleaning(batches: seq<seq<G.Row>>)
    requires Described(batches)
    ensures var t := G.ExportTable(batches);
      T.CleanColumn(t.(columns := T.StripAll(t.columns)), "Fault_Type") == Ok(t)
  {
    HeadersTrimmed();
    var t := G.ExportTable(batches);
    assert t.(columns := T.StripAll(t.columns)) == t;
    DatasetLabelsClean(batches);
  }

  /** Every key cell of the knowledge table is clean. */
  lemma KnowledgeCellsClean()
    ensures var sop := K.AsTable(K.KnowledgeBase());
      forall k :: 0 <= k < |sop.rows| ==> T.CleanCell(sop.rows[k][0]) == sop.rows[k][0]
  {
    var kb := K.KnowledgeBase();
    K.KnowledgeBaseShape();
    K.KnownFaultEntries();
    forall i | 0 <= i < |kb|
      ensures KnownLabel(kb[i].faultType)
    {
    }
    KeyCellsClean(kb);
  }

  /** A knowledge table whose keys are all generator labels has clean key
      cells. */
  lemma KeyCellsClean(kb: seq<K.SopEntry>)
    requires forall i :: 0 <= i < |kb| ==> KnownLabel(kb[i].faultType)
    ensures var sop := K.AsTable(kb);
      forall k :: 0 <= k < |sop.rows| ==> T.CleanCell(sop.rows[k][0]) == sop.rows[k][0]
  {
    var sop := K.AsTable(kb);
    forall k | 0 <= k < |sop.rows|
      ensures T.CleanCell(sop.rows[k][0]) == sop.rows[k][0]
    {
      KnownLabelTrimmed(kb[k].faultType);
      CleanTrimmedText(kb[k].faultType);
    }
  }

  /** The cleaning the trigger applies leaves the knowledge table as it is. */
  lemma KnowledgeSurvivesCleaning()
    ensures var sop := K.AsTable(K.KnowledgeBase());
      T.CleanColumn(sop.(columns := T.StripAll(sop.columns)), "Fault_Type") == Ok(sop)
  {
    HeadersTrimmed();
    var sop := K.AsTable(K.KnowledgeBase());
    assert sop.(columns := T.StripAll(sop.columns)) == sop;
    KnowledgeColumns(sop);
    KnowledgeCellsClean();
    CleanColumnUnchanged(sop, "Fault_Type");
  }

  /** A selection every row passes keeps every row. */
  lemma {:induction false} MatchingAll(rows: seq<seq<Cell>>, col: nat, v: Cell)
    requires forall k :: 0 <= k < |rows| ==> col < |rows[k]| && rows[k][col] == v
    ensures T.Matching(rows, col, v) == rows
  {
    if rows != [] {
      MatchingAll(rows[1..], col, v);
    }
  }

  /** The identifier the generator stamps on batch j. */
  function IdOf(j: nat): string
  {
    G.BatchId(G.FirstBatchNumber + j)
  }

  /** Batch i's rows all carry ids[i]. */
  predicate Labelled(batches: seq<seq<G.Row>>, ids: seq<string>)
  {
    |ids| == |batches| &&
    forall i, k :: 0 <= i < |batches| && 0 <= k < |batches[i]| ==> batches[i][k].batchId == Some(ids[i])
  }

  /** Every row of every part reaches the identifier column. */
  predicate Wide(parts: seq<seq<seq<Cell>>>)
  {
    forall i, k :: 0 <= i < |parts| && 0 <= k < |parts[i]| ==> 8 < |parts[i][k]|
  }

  /** Every row of part i carries keys[i] in the identifier column. */
  predicate Keyed(parts: seq<seq<seq<Cell>>>, keys: seq<Cell>)
  {
    Wide(parts) && |keys| == |parts| &&
    forall i, k :: 0 <= i < |parts| && 0 <= k < |parts[i]| ==> parts[i][k][8] == keys[i]
  }

  /** The rows of the first n parts, in order. */
  function Join(parts: seq<seq<seq<Cell>>>, n: nat): (r: seq<seq<Cell>>)
    requires Wide(parts) && n <= |parts|
    ensures forall k :: 0 <= k < |r| ==> 8 < |r[k]|
  {
    if n == 0 then [] else Join(parts, n - 1) + parts[n - 1]
  }

  /** Selecting part i's rows by keys[j]: all of them when i is j, none when
      the keys differ. */
  lemma PartSelection(parts: seq<seq<seq<Cell>>>, keys: seq<Cell>, i: nat, j: nat)
    requires Keyed(parts, keys) && i < |parts| && j < |parts| && (i != j ==> keys[i] != keys[j])
    ensures T.Matching(parts[i], 8, keys[j]) == if i == j then parts[i] else []
  {
    assert forall k :: 0 <= k < |parts[i]| ==> 8 < |parts[i][k]| && parts[i][k][8] == keys[i];
    if i == j {
      MatchingAll(parts[i], 8, keys[j]);
    } else {
      T.MatchingSpec(parts[i], 8, keys[j]);
    }
  }

  /** Every row of a part of wide parts reaches the identifier column. */
  lemma PartWide(parts: seq<seq<seq<Cell>>>, i: nat)
    requires Wide(parts) && i < |parts|
    ensures forall k :: 0 <= k < |parts[i]| ==> 8 < |parts[i][k]|
  {
  }

  /** Among the first n parts, only part j carries keys[j] when no other
      part's key equals it. */
  lemma {:induction false} SelectPart(parts: seq<seq<seq<Cell>>>, keys: seq<Cell>, n: nat, j: nat)
    requires Keyed(parts, keys) && n <= |parts| && j < |parts|
    requires forall i :: 0 <= i < |keys| && i != j ==> keys[i] != keys[j]
    ensures T.Matching(Join(parts, n), 8, keys[j]) == if n > j then parts[j] else []
  {
    if n > 0 {
      SelectPart(parts, keys, n - 1, j);
      PartSelection(parts, keys, n - 1, j);
      PartWide(parts, n - 1);
      SelectStep(Join(parts, n - 1), parts[n - 1], parts[j], keys[j], n - 1, j);
    }
  }

  /** The exported cells of each batch. */
  function BatchParts(batches: seq<seq<G.Row>>): (parts: seq<seq<seq<Cell>>>)
    ensures |parts| == |batches| && forall i :: 0 <= i < |batches| ==> parts[i] == Cells(batches[i])
  {
    seq(|batches|, i requires 0 <= i < |batches| => Cells(batches[i]))
  }

  /** The identifier cell of each batch. */
  function IdCells(ids: seq<string>): (keys: seq<Cell>)
    ensures |keys| == |ids| && forall i :: 0 <= i < |ids| ==> keys[i] == Text(ids[i])
  {
    seq(|ids|, i requires 0 <= i < |ids| => Text(ids[i]))
  }

  /** Labelled batches export parts keyed by their identifiers. */
  lemma PartsKeyed(batches: seq<seq<G.Row>>, ids: seq<string>)
    requires Labelled(batches, ids)
    ensures Keyed(BatchParts(batches), IdCells(ids))
  {
    var parts, keys := BatchParts(batches), IdCells(ids);
    forall i, k | 0 <= i < |parts| && 0 <= k < |parts[i]|
      ensures 8 < |parts[i][k]| && parts[i][k][8] == keys[i]
    {
      assert parts[i][k] == G.RowCells(batches[i][k]);
    }
  }

  /** Joining the first n parts gives the cells of the first n batches'
      rows. */
  lemma {:induction false} JoinCells(batches: seq<seq<G.Row>>, n: nat)
    requires Wide(BatchParts(batches)) && n <= |batches|
    ensures Join(BatchParts(batches), n) == Cells(G.Concat(batches[..n]))
  {
    if n > 0 {
      JoinCells(batches, n - 1);
      ConcatCellsStep(batches, n);
    }
  }

  /** Selecting from the rows of batches 0..m, given the selections from
      those of 0..m-1 and of m. */
  lemma SelectStep(pre: seq<seq<Cell>>, last: seq<seq<Cell>>, x: seq<seq<Cell>>, id: Cell, m: nat, j: nat)
    requires (forall k :: 0 <= k < |pre| ==> 8 < |pre[k]|) && (forall k :: 0 <= k < |last| ==> 8 < |last[k]|)
    requires T.Matching(pre, 8, id) == (if m > j then x else [])
    requires T.Matching(last, 8, id) == (if m == j then x else [])
    ensures T.Matching(pre + last, 8, id) == if m + 1 > j then x else []
  {
    T.MatchingAppend(pre, last, 8, id);
    JoinSelections(T.Matching(pre, 8, id), T.Matching(last, 8, id), x, m, j);
  }

  /** The selection from batches 0..m, given those from 0..m-1 and from m. */
  lemma JoinSelections(a: seq<seq<Cell>>, b: seq<seq<Cell>>, x: seq<seq<Cell>>, m: nat, j: nat)
    requires a == (if m > j then x else []) && b == (if m == j then x else [])
    ensures a + b == if m + 1 > j then x else []
  {
    if m > j {
      assert a + b == x + [];
    } else if m == j {
      assert a + b == [] + x;
    }
  }

  /** The cells of the first n batches: those of the first n - 1, then
      those of batch n - 1. */
  lemma ConcatCellsStep(batches: seq<seq<G.Row>>, n: nat)
    requires 0 < n <= |batches|
    ensures Cells(G.Concat(batches[..n])) == Cells(G.Concat(batches[..n - 1])) + Cells(batches[n - 1])
  {
    assert batches[..n][..n - 1] == batches[..n - 1];
    assert G.Concat(batches[..n]) == G.Concat(batches[..n - 1]) + batches[n - 1];
    CellsAppend(G.Concat(batches[..n - 1]), batches[n - 1]);
  }

  /** Distinct batches carry distinct identifiers. */
  lemma IdsUnique(i: nat, j: nat)
    ensures IdOf(i) == IdOf(j) <==> i == j
  {
    G.BatchIdsUnique(G.FirstBatchNumber + i, G.FirstBatchNumber + j);
  }

  /** The identifiers of the first n batches. */
  function Ids(n: nat): (ids: seq<string>)
    ensures |ids| == n && forall i :: 0 <= i < n ==> ids[i] == IdOf(i)
  {
    seq(n, i requires 0 <= i < n => IdOf(i))
  }

  lemma IdsDistinct(n: nat)
    ensures Distinct(Ids(n))
  {
    forall i, j | 0 <= i < j < n
      ensures Ids(n)[i] != Ids(n)[j]
    {
      IdsUnique(i, j);
    }
  }

  /** The trigger's selection of batch j's identifier from the exported
      dataset is exactly batch j's rows. */
  lemma SelectGeneratedBatch(batches: seq<seq<G.Row>>, j: nat)
    requires Described(batches) && j < |batches|
    ensures T.SelectBatch(G.ExportTable(batches), IdOf(j)) == Ok(Cells(batches[j]))
  {
    DescribedLabelled(batches);
    IdsDistinct(|batches|);
    SelectLabelled(batches, Ids(|batches|), j);
  }

  /** The same, for any batches labelled with distinct identifiers. */
  lemma SelectLabelled(batches: seq<seq<G.Row>>, ids: seq<string>, j: nat)
    requires Labelled(batches, ids) && Distinct(ids) && j < |batches|
    ensures T.SelectBatch(G.ExportTable(batches), ids[j]) == Ok(Cells(batches[j]))
  {
    var t := G.ExportTable(batches);
    DatasetColAt(t, 8);
    ExportRows(batches);
    var parts, keys := BatchParts(batches), IdCells(ids);
    PartsKeyed(batches, ids);
    forall i | 0 <= i < |keys| && i != j
      ensures keys[i] != keys[j]
    {
      if i < j { assert ids[i] != ids[j]; } else { assert ids[j] != ids[i]; }
    }
    assert batches[..|batches|] == batches;
    JoinCells(batches, |batches|);
    SelectPart(parts, keys, |batches|, j);
  }

  lemma DescribedLabelled(batches: seq<seq<G.Row>>)
    requires Described(batches)
    ensures Labelled(batches, Ids(|batches|))
  {
    var ids := Ids(|batches|);
    forall i, k | 0 <= i < |batches| && 0 <= k < |batches[i]|
      ensures batches[i][k].batchId == Some(ids[i])
    {
      assert BatchRows(batches[i], i);
    }
  }

  /** The process parameters the trigger selects from the exported dataset. */
  const Channels: seq<string> := ["Oven_Temp_Actual", "Batter_Center_Temp", "Stirrer_Power_Online"]

  /** The unfolded input the trigger builds from one batch's rows. */
  function UnfoldedBatch(rows: seq<G.Row>, id: string): T.Unfolded
  {
    var cells := Cells(rows);
    assert T.RowsFit(cells, [1, 2, 3], 0);
    T.Unfolded(if rows == [] then [] else [Text(id)], T.BatchFeatures(cells, Channels, [1, 2, 3], 0))
  }

  /** Names that each name exactly one column resolve to those columns. */
  lemma ResolvePositions(t: Table, names: seq<string>, positions: seq<nat>)
    requires |positions| == |names|
    requires forall j :: 0 <= j < |names| ==> T.Col(t, names[j]) == Ok(positions[j])
    ensures T.ResolveAll(t, names) == Ok(positions)
  {
    var r := T.ResolveAll(t, names);
    assert r.Ok?;
    assert forall j :: 0 <= j < |names| ==> r.value[j] == positions[j];
    assert r.value == positions;
  }

  /** The channel columns of the exported header resolve to positions 1-3. */
  lemma ResolveChannels(t: Table)
    requires t.columns == G.ExportColumns
    ensures T.ResolveAll(t, Channels) == Ok([1, 2, 3])
  {
    var positions: seq<nat> := [1, 2, 3];
    assert Channels == G.ExportColumns[1..4];
    forall j | 0 <= j < |Channels|
      ensures T.Col(t, Channels[j]) == Ok(positions[j])
    {
      assert Channels[j] == G.ExportColumns[j + 1] && positions[j] == j + 1;
      DatasetColAt(t, j + 1);
    }
    ResolvePositions(t, Channels, positions);
  }

  /** A batch's rows stand at distinct minutes. */
  lemma BatchTimesDistinct(b: seq<G.Row>, i: nat)
    requires BatchRows(b, i)
    ensures T.DistinctTimes(Cells(b), 0)
  {
    var cells := Cells(b);
    assert forall k :: 0 <= k < |cells| ==> cells[k][0] == Num(k as real);
  }

  /** Batch j unfolds without error into its channels by minute. */
  lemma UnfoldGeneratedBatch(batches: seq<seq<G.Row>>, j: nat)
    requires Described(batches) && j < |batches|
    ensures T.Unfold(G.ExportTable(batches), Cells(batches[j]), T.CppColumns(G.ExportColumns), IdOf(j)) ==
              Ok(UnfoldedBatch(batches[j], IdOf(j)))
  {
    var t := G.ExportTable(batches);
    DatasetColAt(t, 0);
    ResolveChannels(t);
    ExportedCppColumns();
    assert T.CppColumns(G.ExportColumns) == Channels;
    assert BatchRows(batches[j], j);
    BatchTimesDistinct(batches[j], j);
  }

  /** The label the trigger reads off batch j is the scenario it was
      generated for. */
  lemma GeneratedLabel(batches: seq<seq<G.Row>>, j: nat)
    requires Described(batches) && j < |batches|
    ensures T.FirstLabel(G.ExportTable(batches), Cells(batches[j])) == Ok(Text(G.FaultScenarios()[j]))
  {
    DatasetColAt(G.ExportTable(batches), 7);
    assert BatchRows(batches[j], j);
  }

  /** The four fields of a knowledge-base entry, as the trigger reads them. */
  function EntryInfo(e: K.SopEntry): T.SopInfo
  {
    T.SopInfo(Text(e.faultCode), Text(e.rootCause), Text(e.prescriptionAction), Text(e.sopReference))
  }

  /** The four fields the lookup reads stand at positions 1-4 of the
      knowledge table. */
  lemma ResolveSopFields(t: Table)
    requires t.columns == K.SopHeader
    ensures T.ResolveAll(t, ["Fault_Code", "Root_Cause", "Prescription_Action", "SOP_Reference"]) == Ok([1, 2, 3, 4])
  {
    KnowledgeColumns(t);
    ResolvePositions(t, ["Fault_Code", "Root_Cause", "Prescription_Action", "SOP_Reference"], [1, 2, 3, 4]);
  }

  /** Looking up any entry's fault type in the exported knowledge table
      yields that entry's fields. */
  lemma KnowledgeLookup(r: nat)
    requires r < |K.KnowledgeBase()|
    ensures T.LookupSop(K.AsTable(K.KnowledgeBase()), Text(K.KnowledgeBase()[r].faultType)) ==
              Ok(EntryInfo(K.KnowledgeBase()[r]))
  {
    K.FaultTypesDistinct();
    LookupEntry(K.KnowledgeBase(), r);
  }

  /** In a knowledge table without repeated keys, looking up an entry's key
      yields that entry's fields. */
  lemma LookupEntry(kb: seq<K.SopEntry>, r: nat)
    requires r < |kb| && Distinct(K.Keys(kb))
    ensures T.LookupSop(K.AsTable(kb), Text(kb[r].faultType)) == Ok(EntryInfo(kb[r]))
  {
    var sop := K.AsTable(kb);
    KnowledgeColumns(sop);
    ResolveSopFields(sop);
    forall j | 0 <= j < r
      ensures sop.rows[j][0] != sop.rows[r][0]
    {
      assert K.Keys(kb)[j] != K.Keys(kb)[r];
    }
    LookupRow(sop, r);
  }

  /** The lookup of a row's key whose key no earlier row has yields that
      row's fields. */
  lemma LookupRow(sop: Table, k: nat)
    requires Rectangular(sop) && k < |sop.rows| && |sop.columns| == 5
    requires T.Col(sop, "Fault_Type") == Ok(0)
    requires T.ResolveAll(sop, ["Fault_Code", "Root_Cause", "Prescription_Action", "SOP_Reference"]) == Ok([1, 2, 3, 4])
    requires forall j :: 0 <= j < k ==> sop.rows[j][0] != sop.rows[k][0]
    ensures T.LookupSop(sop, sop.rows[k][0]) ==
              Ok(T.SopInfo(sop.rows[k][1], sop.rows[k][2], sop.rows[k][3], sop.rows[k][4]))
  {
    T.LookupFirstMatch(sop, sop.rows[k][0]);
  }

  /** The first-match lookup on the entries is the lookup the trigger
      performs on the exported table: it fails exactly when FindEntry finds
      nothing, and otherwise yields the fields of the entry FindEntry finds,
      whether or not keys repeat. */
  lemma FindEntryAgrees(kb: seq<K.SopEntry>, fault: string)
    ensures K.FindEntry(kb, fault).None? <==>
              T.LookupSop(K.AsTable(kb), Text(fault)) == Err(T.IndexError)
    ensures K.FindEntry(kb, fault).Some? ==>
              T.LookupSop(K.AsTable(kb), Text(fault)) == Ok(EntryInfo(kb[K.FindEntry(kb, fault).value]))
  {
    match K.FindEntry(kb, fault)
    case None =>
      FindEntryNone(kb, fault);
    case Some(r) =>
      FindEntrySome(kb, fault, r);
  }

  /** The entry FindEntry finds is the row the exported lookup reads. */
  lemma FindEntrySome(kb: seq<K.SopEntry>, fault: string, r: nat)
    requires r < |kb| && kb[r].faultType == fault
    requires forall j :: 0 <= j < r ==> kb[j].faultType != fault
    ensures T.LookupSop(K.AsTable(kb), Text(fault)) == Ok(EntryInfo(kb[r]))
  {
    var sop := K.AsTable(kb);
    KnowledgeColumns(sop);
    ResolveSopFields(sop);
    var row := sop.rows[r];
    assert row == [Text(fault), Text(kb[r].faultCode), Text(kb[r].rootCause),
                   Text(kb[r].prescriptionAction), Text(kb[r].sopReference)];
    forall j | 0 <= j < r
      ensures sop.rows[j][0] != row[0]
    {
      assert sop.rows[j][0] == Text(kb[j].faultType);
    }
    LookupRow(sop, r);
  }

  /** A key no entry has is not found in the exported table either. */
  lemma FindEntryNone(kb: seq<K.SopEntry>, fault: string)
    requires forall i :: 0 <= i < |kb| ==> kb[i].faultType != fault
    ensures T.LookupSop(K.AsTable(kb), Text(fault)) == Err(T.IndexError)
  {
    var sop := K.AsTable(kb);
    KnowledgeColumns(sop);
    ResolveSopFields(sop);
    forall k | 0 <= k < |sop.rows|
      ensures sop.rows[k][0] != Text(fault)
    {
      assert sop.rows[k][0] == Text(kb[k].faultType);
    }
    T.LookupFirstMatch(sop, Text(fault));
  }

  /** The knowledge-base row holding a label the generator writes. */
  function EntryOf(fault: string): (r: nat)
    ensures r < 3
  {
    if fault == "Normal" then 0 else if fault == "Door_Open" then 1 else 2
  }

  /** EntryOf finds the row whose key is the label. */
  lemma EntryOfKey(fault: string)
    requires KnownLabel(fault)
    ensures |K.KnowledgeBase()| == 3 && K.KnowledgeBase()[EntryOf(fault)].faultType == fault
  {
    K.KnowledgeBaseShape();
    K.KnownFaultEntries();
  }

  /** What the trigger reports for batch j of a generated dataset: a
      predictor failure, a normal report for a Normal batch, or otherwise
      an alert carrying the knowledge-base entry of the batch's label and
      the status of the predicted value. */
  function ExpectedAdvisory(batches: seq<seq<G.Row>>, j: nat, predict: T.Unfolded -> Option<real>): T.Advisory
    requires j < |batches| && j < |G.FaultScenarios()|
  {
    var id := IdOf(j);
    K.KnowledgeBaseShape();
    match predict(UnfoldedBatch(batches[j], id))
    case None => T.Fatal(T.PredictorFailed)
    case Some(v) =>
      if G.FaultScenarios()[j] == "Normal" then T.NormalReport(id, v)
      else
        var info := EntryInfo(K.KnowledgeBase()[EntryOf(G.FaultScenarios()[j])]);
        T.FaultAlert(id, info.faultCode, v, T.StatusOf(v), info.rootCause, info.prescription, info.sopReference)
  }

  /** Advise, once the selection, the unfolding and the label are known. */
  lemma AdviseSteps(full: Table, sop: Table, id: string, predict: T.Unfolded -> Option<real>,
                    selected: seq<seq<Cell>>, u: T.Unfolded, fault: Cell)
    requires Rectangular(full) && Rectangular(sop)
    requires T.SelectBatch(full, id) == Ok(selected)
    requires T.Unfold(full, selected, T.CppColumns(full.columns), id) == Ok(u)
    requires T.FirstLabel(full, selected) == Ok(fault)
    ensures T.Advise(full, sop, id, predict) ==
            match predict(u)
            case None => T.Fatal(T.PredictorFailed)
            case Some(v) => T.Act(fault, sop, id, v)
  {
  }

  /** A fault label found in the knowledge table raises an alert built
      from the row found. */
  lemma ActOnFault(fault: Cell, sop: Table, id: string, v: real, info: T.SopInfo)
    requires Rectangular(sop) && fault != Text("Normal") && T.LookupSop(sop, fault) == Ok(info)
    ensures T.Act(fault, sop, id, v) ==
            T.FaultAlert(id, info.faultCode, v, T.StatusOf(v), info.rootCause, info.prescription, info.sopReference)
  {
  }

  /** Advising on batch j of the exported dataset against the exported
      knowledge base. */
  lemma AdviseGeneratedBatch(batches: seq<seq<G.Row>>, j: nat, predict: T.Unfolded -> Option<real>)
    requires Described(batches) && j < |batches|
    ensures Rectangular(G.ExportTable(batches)) && Rectangular(K.AsTable(K.KnowledgeBase()))
    ensures T.Advise(G.ExportTable(batches), K.AsTable(K.KnowledgeBase()), IdOf(j), predict) ==
            ExpectedAdvisory(batches, j, predict)
  {
    var full := G.ExportTable(batches);
    var sop := K.AsTable(K.KnowledgeBase());
    var id := IdOf(j);
    var scenario := G.FaultScenarios()[j];
    SelectGeneratedBatch(batches, j);
    UnfoldGeneratedBatch(batches, j);
    GeneratedLabel(batches, j);
    AdviseSteps(full, sop, id, predict, Cells(batches[j]), UnfoldedBatch(batches[j], id), Text(scenario));
    match predict(UnfoldedBatch(batches[j], id))
    case None =>
    case Some(v) =>
      if scenario != "Normal" {
        ScenarioLabels();
        EntryOfKey(scenario);
        KnowledgeLookup(EntryOf(scenario));
        ActOnFault(Text(scenario), sop, id, v, EntryInfo(K.KnowledgeBase()[EntryOf(scenario)]));
      }
  }

  /** End to end: the trigger, run on the generator's dataset and the
      knowledge base's export with the identifier of any generated batch,
      reports on exactly that batch according to its scenario label. */
  lemma GeneratedBatchAdvisory(batches: seq<seq<G.Row>>, draws: seq<G.BatchDraws>, j: nat,
                               predict: T.Unfolded -> Option<real>)
    requires Generated(batches, draws) && j < |batches|
    ensures Rectangular(G.ExportTable(batches)) && Rectangular(K.AsTable(K.KnowledgeBase()))
    ensures T.Run(G.ExportTable(batches), K.AsTable(K.KnowledgeBase()), IdOf(j), predict) ==
            ExpectedAdvisory(batches, j, predict)
  {
    GeneratedDescribed(batches, draws);
    DatasetSurvivesCleaning(batches);
    KnowledgeSurvivesCleaning();
    AdviseGeneratedBatch(batches, j, predict);
  }

  /** The script's own run: batch C-1085 raises the Door_Open alert
      (TEMP_EXCUR_F20, SOP-B-005) whenever the predictor returns a value. */
  lemma FaultyBatchAdvisory(batches: seq<seq<G.Row>>, draws: seq<G.BatchDraws>, predict: T.Unfolded -> Option<real>)
    requires Generated(batches, draws)
    ensures Rectangular(G.ExportTable(batches)) && Rectangular(K.AsTable(K.KnowledgeBase()))
    ensures var a := T.Run(G.ExportTable(batches), K.AsTable(K.KnowledgeBase()), T.FaultyBatchId, predict);
      match predict(UnfoldedBatch(batches[84], T.FaultyBatchId))
      case None => a == T.Fatal(T.PredictorFailed)
      case Some(v) =>
        a == T.FaultAlert(T.FaultyBatchId, Text("TEMP_EXCUR_F20"), v, T.StatusOf(v),
                          Text(K.KnowledgeBase()[1].rootCause), Text(K.KnowledgeBase()[1].prescriptionAction),
                          Text("SOP-B-005"))
  {
    GeneratedBatchAdvisory(batches, draws, 84, predict);
    FaultyBatchExpected(batches, predict);
  }

  /** The expected advisory of batch 84, spelled out. */
  lemma FaultyBatchExpected(batches: seq<seq<G.Row>>, predict: T.Unfolded -> Option<real>)
    requires 84 < |batches| == |G.FaultScenarios()|
    ensures IdOf(84) == T.FaultyBatchId
    ensures var a := ExpectedAdvisory(batches, 84, predict);
      match predict(UnfoldedBatch(batches[84], T.FaultyBatchId))
      case None => a == T.Fatal(T.PredictorFailed)
      case Some(v) =>
        a == T.FaultAlert(T.FaultyBatchId, Text("TEMP_EXCUR_F20"), v, T.StatusOf(v),
                          Text(K.KnowledgeBase()[1].rootCause), Text(K.KnowledgeBase()[1].prescriptionAction),
                          Text("SOP-B-005"))
  {
    FaultyBatchIsDoorOpen();
    G.ScenarioBlocks();
    assert EntryOf(G.FaultScenarios()[84]) == 1;
    K.KnownFaultEntries();
  }
}
