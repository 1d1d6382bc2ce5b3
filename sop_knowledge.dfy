/** The SOP knowledge base of create_sop_kb.py: a literal table of five
    columns, one row per fault type, turned into a frame and exported. */
module SopKnowledge {
  import opened Tabular

  /** The literal column dictionary handed to the frame constructor. */
  datatype SopColumns = SopColumns(
    faultType: seq<string>,
    faultCode: seq<string>,
    rootCause: seq<string>,
    prescriptionAction: seq<string>,
    sopReference: seq<string>)

  /** One row of the knowledge base. */
  datatype SopEntry = SopEntry(
    faultType: string,
    faultCode: string,
    rootCause: string,
    prescriptionAction: string,
    sopReference: string)

  /** The header of the exported knowledge table, in dictionary order. */
  const SopHeader: seq<string> :=
    ["Fault_Type", "Fault_Code", "Root_Cause", "Prescription_Action", "SOP_Reference"]

  const Data: SopColumns := SopColumns(
    ["Normal", "Door_Open", "Under_Mixed_Batter"],
    ["STATUS_OK", "TEMP_EXCUR_F20", "MECH_FAILURE_M03"],
    [ "Process running within Golden Batch specifications.",
      "Significant heat loss due to process interruption (Oven Door opened/failed seal). Batter core temperature is critically delayed.",
      "Mechanical issue in the mixing sequence caused heterogeneous material density, resulting in inconsistent heat transfer and uneven curing."],
    [ "Continue monitoring process parameters. Log successful batch completion at T=60 minutes.",
      "Initiate emergency bake time extension (SOP-B1) and manually recalibrate oven temp to 185\U{00C2}\U{00B0}C for remaining 15 minutes to attempt salvage.",
      "Immediately isolate the batch for inspection. If purity prediction remains below 96.0%, abort the batch and initiate cleaning cycle per SOP-C-010."],
    ["SOP-QA-001", "SOP-B-005", "SOP-QA-003"])

  predicate SameLengths(c: SopColumns)
  {
    |c.faultCode| == |c.faultType| && |c.rootCause| == |c.faultType| &&
    |c.prescriptionAction| == |c.faultType| && |c.sopReference| == |c.faultType|
  }

  /** Building a frame from a column dictionary: row i gathers the i-th entry
      of every column; columns of different lengths are refused. */
  function ToEntries(c: SopColumns): (r: Option<seq<SopEntry>>)
    ensures r.Some? <==> SameLengths(c)
    ensures r.Some? ==> |r.value| == |c.faultType|
    ensures r.Some? ==> forall i :: 0 <= i < |r.value| ==>
              r.value[i].faultType == c.faultType[i] && r.value[i].faultCode == c.faultCode[i] &&
              r.value[i].rootCause == c.rootCause[i] &&
              r.value[i].prescriptionAction == c.prescriptionAction[i] &&
              r.value[i].sopReference == c.sopReference[i]
  {
    if !SameLengths(c) then None
    else Some(seq(|c.faultType|, i requires 0 <= i < |c.faultType| =>
      SopEntry(c.faultType[i], c.faultCode[i], c.rootCause[i], c.prescriptionAction[i], c.sopReference[i])))
  }

  /** The knowledge base the script writes out. */
  function KnowledgeBase(): (kb: seq<SopEntry>)
    ensures Some(kb) == ToEntries(Data)
  {
    ToEntries(Data).value
  }

  function Keys(entries: seq<SopEntry>): (keys: seq<string>)
    ensures |keys| == |entries|
    ensures forall i :: 0 <= i < |entries| ==> keys[i] == entries[i].faultType
  {
    seq(|entries|, i requires 0 <= i < |entries| => entries[i].faultType)
  }

  /** First-match lookup by fault type: the position of the first entry
      whose key equals `fault`, or None when no entry has that key. */
  function FindEntry(entries: seq<SopEntry>, fault: string): (r: Option<nat>)
    ensures r.None? <==> forall i :: 0 <= i < |entries| ==> entries[i].faultType != fault
    ensures r.Some? ==> r.value < |entries| && entries[r.value].faultType == fault
    ensures r.Some? ==> forall j :: 0 <= j < r.value ==> entries[j].faultType != fault
  {
    if entries == [] then None
    else if entries[0].faultType == fault then Some(0)
    else match FindEntry(entries[1..], fault)
      case None => None
      case Some(i) => Some(i + 1)
  }

  /** The exported frame, as it reads back: the header, then one row of text
      cells per entry. */
  function AsTable(entries: seq<SopEntry>): (t: Table)
    ensures t.columns == SopHeader && |t.rows| == |entries|
    ensures Rectangular(t)
    ensures forall i :: 0 <= i < |entries| ==>
              t.rows[i] == [Text(entries[i].faultType), Text(entries[i].faultCode),
                            Text(entries[i].rootCause), Text(entries[i].prescriptionAction),
                            Text(entries[i].sopReference)]
  {
    Table(SopHeader, seq(|entries|, i requires 0 <= i < |entries| =>
      [Text(entries[i].faultType), Text(entries[i].faultCode), Text(entries[i].rootCause),
       Text(entries[i].prescriptionAction), Text(entries[i].sopReference)]))
  }

  /** The literal table is well formed: five columns of three entries, hence
      three rows. */
  lemma KnowledgeBaseShape()
    ensures SameLengths(Data) && |Data.faultType| == 3
    ensures |KnowledgeBase()| == 3
  {
  }

  /** No fault type occurs twice, so a first-match lookup is the only match. */
  lemma FaultTypesDistinct()
    ensures Distinct(Keys(KnowledgeBase()))
    ensures forall i, j ::
              (0 <= i < |KnowledgeBase()| && 0 <= j < |KnowledgeBase()| &&
               KnowledgeBase()[i].faultType == KnowledgeBase()[j].faultType) ==> i == j
  {
    var kb := KnowledgeBase();
    assert kb[0].faultType == "Normal";
    assert kb[1].faultType == "Door_Open";
    assert kb[2].faultType == "Under_Mixed_Batter";
  }

  /** The rows each known fault type resolves to. */
  lemma KnownFaultEntries()
    ensures FindEntry(KnowledgeBase(), "Normal") == Some(0)
    ensures FindEntry(KnowledgeBase(), "Door_Open") == Some(1)
    ensures FindEntry(KnowledgeBase(), "Under_Mixed_Batter") == Some(2)
    ensures KnowledgeBase()[0].faultCode == "STATUS_OK" && KnowledgeBase()[0].sopReference == "SOP-QA-001"
    ensures KnowledgeBase()[1].faultCode == "TEMP_EXCUR_F20" && KnowledgeBase()[1].sopReference == "SOP-B-005"
    ensures KnowledgeBase()[2].faultCode == "MECH_FAILURE_M03" && KnowledgeBase()[2].sopReference == "SOP-QA-003"
  {
    var kb := KnowledgeBase();
    assert kb[0].faultType == "Normal";
    assert kb[1].faultType == "Door_Open";
    assert kb[2].faultType == "Under_Mixed_Batter";
  }
}
