# Predictive batch AI: generator, knowledge base and advisory trigger

This project models three small scripts of a baking-line monitoring demo in
Dafny and proves the rules that govern their output.

- **The batch generator** (`generate_synthetic_data.py`) builds 100 batches of
  60 one-minute rows. Each row has a time index and three process channels:
  oven temperature, batter centre temperature and stirrer power.
  - Door_Open and Under_Mixed_Batter batches get deviations inside fixed time
    windows.
  - The three quality values (final height, moisture and doneness) are written
    on the last row only.
  - Every row carries its fault label and its batch identifier `C-1001`,
    `C-1002`, and so on.
- **The SOP knowledge base** (`create_sop_kb.py`) is a literal three-row table.
  It maps each fault type to a fault code, a root cause, a prescribed action
  and an SOP reference.
- **The advisory trigger** (`simulate_genai_trigger.py`) works in these steps:
  1. It strips the headers and the `Fault_Type` values of both tables.
  2. It selects one batch and keeps the columns whose name mentions `Temp` or
     `Power`.
  3. It unfolds them into one (channel, minute) feature row, then drops the
     empty features and fills the rest with 0.
  4. It asks the trained predictor for the final height.
  5. It reads the batch label from the batch's first row. A Normal batch gets
     a status line. For any other label it looks up the first knowledge row
     with that label and classifies the batch as SCRAP (below 7.5 cm) or
     SALVAGEABLE.

## Files

- `tabular.dfy` (module `Tabular`): cells, tables, `Option`/`Result`, and
  what `df[name]` finds in a header.
- `sop_knowledge.dfy` (module `SopKnowledge`): the literal knowledge table,
  the frame built from it, and the table as it is written out.
- `batch_generator.dfy` (module `BatchGenerator`):
  - the golden profile and the quality dictionary, as functions;
  - `inject_fault`, as methods over an `array<Row>` with loops;
  - the driver loop, as a method.
- `trigger.dfy` (module `Trigger`):
  - the in-place cleaning of both frames, as a `Frame` class with methods;
  - selection, unfolding, label, lookup and status, as functions;
  - the script itself, as the method `Simulate`.
- `pipeline.dfy` (module `Pipeline`): lemmas that connect the three scripts.
  The generator's labels are exactly the knowledge table's keys. On the
  exported data, the trigger selects exactly the requested batch and reports
  on its scenario. Batch C-1085 is the 85th batch: a Door_Open batch, as the
  comment at `simulate_genai_trigger.py:16` says, and it raises the
  TEMP_EXCUR_F20 / SOP-B-005 alert.

Random draws are inputs:
- A uniform draw is a unit draw `u` with `0 <= u < 1`, so `uniform(a, b)` is
  `a + (b - a) * u`, a value in `[a, b)`.
- Gaussian noise is any real.

The trained scaler and PLS model together are the parameter
`predict: Unfolded -> Option<real>`, where `None` means they raised.

## Model

| member | source | states |
|---|---|---|
| Tabular.IndexOf | simulate_genai_trigger.py:36 | a found position holds the name |
| Tabular.IndexOfSpec | simulate_genai_trigger.py:36 | the search fails exactly when the name is absent, and finds its first occurrence |
| Tabular.FindColumn | simulate_genai_trigger.py:36 | a single found column holds the name |
| Tabular.FindColumnSpec | simulate_genai_trigger.py:36 | `df[name]` finds nothing iff the name is absent, several columns iff it occurs twice, otherwise the only column with that name |
| SopKnowledge.ToEntries | create_sop_kb.py:29 | the frame exists iff all five columns have the same length; row i holds the i-th entry of every column |
| SopKnowledge.KnowledgeBase | create_sop_kb.py:11-29 | the knowledge base is the frame built from the literal dictionary |
| SopKnowledge.Keys | create_sop_kb.py:12 | the key column lists each row's fault type |
| SopKnowledge.FindEntry | simulate_genai_trigger.py:71 | first-match lookup on the entries: None iff no row has the key, otherwise the first row that does |
| SopKnowledge.AsTable | create_sop_kb.py:33 | the exported table has the five-column header and one row of five text cells per entry |
| SopKnowledge.KnowledgeBaseShape | create_sop_kb.py:11-25 | five columns of equal length 3, so three rows |
| SopKnowledge.FaultTypesDistinct | create_sop_kb.py:12 | no fault type occurs twice |
| SopKnowledge.KnownFaultEntries | create_sop_kb.py:12-24 | Normal, Door_Open and Under_Mixed_Batter are rows 0, 1 and 2, with codes STATUS_OK, TEMP_EXCUR_F20 and MECH_FAILURE_M03 and references SOP-QA-001, SOP-B-005 and SOP-QA-003 |
| BatchGenerator.Uniform | 1_Data_Generation/generate_synthetic_data.py:55-56 | `uniform(low, high)` lies in `[low, high)` |
| BatchGenerator.Linspace | 1_Data_Generation/generate_synthetic_data.py:36-40 | n values: the first is start, the last is stop, and value i is `start + i * (stop - start) / (n - 1)` |
| BatchGenerator.GoldenProfile | 1_Data_Generation/generate_synthetic_data.py:28-48 | time_steps rows with Time_Min = i and no quality, label or identifier; without its noise, the oven is at 175.0 and batter and stirrer follow their ramps |
| BatchGenerator.GoldenRamps | 1_Data_Generation/generate_synthetic_data.py:36-40 | the batter ramp runs from 25.0 to 95.0 and the stirrer ramp from 5.0 to 20.0, in equal steps over 60 rows |
| BatchGenerator.DictKeys | 1_Data_Generation/generate_synthetic_data.py:54-58 | the keys in insertion order |
| BatchGenerator.DictValues | 1_Data_Generation/generate_synthetic_data.py:98 | `dict.values()`: the values in key order |
| BatchGenerator.DictGet | 1_Data_Generation/generate_synthetic_data.py:63-71 | a key has no value iff it is not among the keys |
| BatchGenerator.DictSet | 1_Data_Generation/generate_synthetic_data.py:63-71 | `d[k] = v` keeps the key order, and appends k only when it is new |
| BatchGenerator.DictSetValues | 1_Data_Generation/generate_synthetic_data.py:63-71 | after `d[k] = v`, k holds v and every other key keeps its value |
| BatchGenerator.CalculateCqa | 1_Data_Generation/generate_synthetic_data.py:50-73 | the dictionary's keys are always Final_Height, Final_Moisture, Internal_Doneness, in that order |
| BatchGenerator.ValuesFollowColumns | 1_Data_Generation/generate_synthetic_data.py:98 | the j-th value is the one stored under the j-th quality column, whatever order the branch assigned them in |
| BatchGenerator.CqaRanges | 1_Data_Generation/generate_synthetic_data.py:54-71 | each label's three values lie in its ranges: Door_Open, Under_Mixed_Batter, or otherwise the high-quality base case with doneness exactly 1.0 |
| BatchGenerator.ThreeSets | 1_Data_Generation/generate_synthetic_data.py:61-71 | three assignments to distinct keys leave each key with its own value |
| BatchGenerator.Deviate | 1_Data_Generation/generate_synthetic_data.py:79-92 | row i of the deviated frame is row i with its label's deviation and its own draw |
| BatchGenerator.StampLast | 1_Data_Generation/generate_synthetic_data.py:98 | only the last row changes |
| BatchGenerator.StampLabel | 1_Data_Generation/generate_synthetic_data.py:99 | every row gets the label and nothing else changes |
| BatchGenerator.LowerOvenInPlace | 1_Data_Generation/generate_synthetic_data.py:83 | every row of the array gets the oven deviation, in place |
| BatchGenerator.DrawBatterInPlace | 1_Data_Generation/generate_synthetic_data.py:86 | every row of the array gets the batter deviation with its own draw, in place |
| BatchGenerator.LowerStirrerInPlace | 1_Data_Generation/generate_synthetic_data.py:92 | every row of the array gets the stirrer deviation, in place |
| BatchGenerator.StampLabelInPlace | 1_Data_Generation/generate_synthetic_data.py:99 | the array becomes the labelled frame |
| BatchGenerator.InjectFault | 1_Data_Generation/generate_synthetic_data.py:75-101 | fails iff the frame is empty; otherwise the array becomes the deviated frame with quality values on the last row and the label on every row |
| BatchGenerator.LowerOven | 1_Data_Generation/generate_synthetic_data.py:83 | the Door_Open oven step on one row; DoorOpenRow states it |
| BatchGenerator.DrawBatter | 1_Data_Generation/generate_synthetic_data.py:86 | the Door_Open batter step on one row with its own draw; DoorOpenRow states it |
| BatchGenerator.LowerStirrer | 1_Data_Generation/generate_synthetic_data.py:92 | the Under_Mixed_Batter stirrer step on one row; UnderMixedRow states it |
| BatchGenerator.DeviateRow | 1_Data_Generation/generate_synthetic_data.py:79-92 | the if/elif on the label for one row; DoorOpenRow, UnderMixedRow and OtherLabelsKeepChannels state its three branches |
| BatchGenerator.Injected | 1_Data_Generation/generate_synthetic_data.py:75-101 | what inject_fault leaves; InjectFault is proved to produce it, and DoorOpenDeviation, UnderMixedDeviation, InjectedQualityAndLabel and InjectedShape state what it holds |
| BatchGenerator.DoorOpenDeviation | 1_Data_Generation/generate_synthetic_data.py:79-86 | Door_Open: oven minus exactly 35.0 on 20 <= Time_Min <= 30 and unchanged elsewhere; batter lowered by a draw in [10, 15) after minute 20 and unchanged up to it; stirrer and time kept |
| BatchGenerator.DoorOpenRow | 1_Data_Generation/generate_synthetic_data.py:79-86 | the same for one row |
| BatchGenerator.UnderMixedDeviation | 1_Data_Generation/generate_synthetic_data.py:88-92 | Under_Mixed_Batter: stirrer minus exactly 7.0 on 5 <= Time_Min <= 15 and unchanged elsewhere; oven, batter and time kept |
| BatchGenerator.UnderMixedRow | 1_Data_Generation/generate_synthetic_data.py:88-92 | the same for one row |
| BatchGenerator.OtherLabelsKeepChannels | 1_Data_Generation/generate_synthetic_data.py:79-92 | any other label, Normal included, leaves every channel and the time unchanged |
| BatchGenerator.ChannelsSurviveStamps | 1_Data_Generation/generate_synthetic_data.py:98-99 | writing the quality values and the label leaves time, channels and identifier alone |
| BatchGenerator.InjectedQualityAndLabel | 1_Data_Generation/generate_synthetic_data.py:95-99 | every row carries the label; rows before the last keep their quality columns; the last row holds each dictionary value in its own column, inside the label's ranges |
| BatchGenerator.DeviateKeepsRest | 1_Data_Generation/generate_synthetic_data.py:79-92 | the deviations touch the channels only |
| BatchGenerator.StampedRows | 1_Data_Generation/generate_synthetic_data.py:98-99 | after stamping, every row is labelled and identifiers and earlier quality columns are unchanged |
| BatchGenerator.LastRowQuality | 1_Data_Generation/generate_synthetic_data.py:98 | the last row holds the dictionary's value for each quality column |
| BatchGenerator.Repeat | 1_Data_Generation/generate_synthetic_data.py:110-112 | `[x] * n`: n copies of x |
| BatchGenerator.FaultScenarios | 1_Data_Generation/generate_synthetic_data.py:109-113 | the scenario list; ScenarioBlocks states its length and blocks |
| BatchGenerator.ScenarioBlocks | 1_Data_Generation/generate_synthetic_data.py:109-113 | 100 scenarios: Normal iff i < 80, Door_Open iff 80 <= i < 90, Under_Mixed_Batter iff i >= 90 |
| BatchGenerator.DecimalString | 1_Data_Generation/generate_synthetic_data.py:123 | a non-empty string of decimal digits, with a leading 0 only for 0 itself |
| BatchGenerator.DecimalStringValue | 1_Data_Generation/generate_synthetic_data.py:123 | the digits read back, most significant first, give the number rendered |
| BatchGenerator.DecimalStringInjective | 1_Data_Generation/generate_synthetic_data.py:123 | different numbers render differently |
| BatchGenerator.BatchId | 1_Data_Generation/generate_synthetic_data.py:123 | the identifier `C-<n>`; BatchIdsUnique states it is injective and DecimalStringValue that n is written in decimal |
| BatchGenerator.BatchIdsUnique | 1_Data_Generation/generate_synthetic_data.py:123 | `C-<m>` equals `C-<n>` iff m equals n |
| BatchGenerator.WithBatchId | 1_Data_Generation/generate_synthetic_data.py:123 | every row gets the identifier and nothing else changes |
| BatchGenerator.AssignBatchId | 1_Data_Generation/generate_synthetic_data.py:123 | the array becomes the identified frame |
| BatchGenerator.GeneratedBatch | 1_Data_Generation/generate_synthetic_data.py:115-125 | batch k of the driver; GenerateBatch and GenerateBatches are proved to produce it and GeneratedBatchShape states its shape |
| BatchGenerator.GenerateBatch | 1_Data_Generation/generate_synthetic_data.py:115-125 | one loop pass yields the injected copy of a fresh baseline, stamped with `C-<counter>` |
| BatchGenerator.GenerateBatches | 1_Data_Generation/generate_synthetic_data.py:105-125 | batch i is generated for scenario i with identifier `C-(1001 + i)`, and the counter ends at 1001 + 100 |
| BatchGenerator.GeneratedBatchShape | 1_Data_Generation/generate_synthetic_data.py:115-125 | each batch has 60 rows at minutes 0..59; each row carries the batch's own identifier and label; quality values are on the last row and only there |
| BatchGenerator.InjectedShape | 1_Data_Generation/generate_synthetic_data.py:95-99 | injection into a fresh profile keeps the minutes, labels every row and sets quality values on the last row only |
| BatchGenerator.StampShape | 1_Data_Generation/generate_synthetic_data.py:98-99 | the same, for the two stamps on a frame without quality values |
| BatchGenerator.StampedShape | 1_Data_Generation/generate_synthetic_data.py:123 | stamping the identifier keeps what injection produced |
| BatchGenerator.RowCells | 1_Data_Generation/generate_synthetic_data.py:132 | an exported row has one cell per column |
| BatchGenerator.ExportTable | 1_Data_Generation/generate_synthetic_data.py:128-132 | the export has the nine-column header and one row per generated row |
| BatchGenerator.Concat | 1_Data_Generation/generate_synthetic_data.py:128 | `pd.concat`: the batches' rows one after another; ConcatLength and Pipeline.JoinCells state it |
| BatchGenerator.ConcatLength | 1_Data_Generation/generate_synthetic_data.py:128 | concatenating batches of n rows each gives batches * n rows |
| Trigger.StripLeft | simulate_genai_trigger.py:32 | the result is a suffix of the input |
| Trigger.StripLeftSpaces | simulate_genai_trigger.py:32 | only whitespace is removed at the front |
| Trigger.StripLeftStops | simulate_genai_trigger.py:32 | the kept part starts with a non-whitespace character |
| Trigger.StripRight | simulate_genai_trigger.py:32 | the result is a prefix of the input |
| Trigger.StripRightSpaces | simulate_genai_trigger.py:32 | only whitespace is removed at the back |
| Trigger.StripRightStops | simulate_genai_trigger.py:32 | the kept part ends with a non-whitespace character |
| Trigger.StripSpec | simulate_genai_trigger.py:32 | `str.strip()` keeps the slice between the leading and the trailing whitespace, and everything it drops is whitespace |
| Trigger.StripSlice | simulate_genai_trigger.py:32 | what stripping keeps is a slice of the input |
| Trigger.StripTrailing | simulate_genai_trigger.py:32 | everything dropped at the back is whitespace |
| Trigger.StripEnds | simulate_genai_trigger.py:32 | the stripped string neither starts nor ends with whitespace |
| Trigger.StripTrimmed | simulate_genai_trigger.py:32 | a string without whitespace at its ends is left unchanged |
| Trigger.StripIdempotent | simulate_genai_trigger.py:32 | stripping twice is stripping once |
| Trigger.Strip | simulate_genai_trigger.py:32-37 | `str.strip()`; StripSpec, StripEnds and StripIdempotent state what it keeps and drops |
| Trigger.StripAll | simulate_genai_trigger.py:32-33 | every header is stripped and trimmed, and the count is kept |
| Trigger.StripAllIdempotent | simulate_genai_trigger.py:32-33 | stripping the headers twice is stripping them once |
| Trigger.CleanCell | simulate_genai_trigger.py:36-37 | text is stripped, a missing value becomes "nan", numbers stay, and any resulting text is trimmed |
| Trigger.Col | simulate_genai_trigger.py:36 | succeeds iff exactly one column has the name, and then points at it |
| Trigger.CleanColumn | simulate_genai_trigger.py:36-37 | fails iff the column lookup fails (with its error); otherwise only that column's cells are cleaned, row by row |
| Trigger.Frame.constructor | simulate_genai_trigger.py:28-29 | a loaded frame holds the table |
| Trigger.Frame.StripHeaders | simulate_genai_trigger.py:32-33 | the headers are replaced by their stripped forms and the rows are kept |
| Trigger.Frame.CleanTextColumn | simulate_genai_trigger.py:36-37 | the frame becomes the cleaned table; an error leaves it unchanged and is reported |
| Trigger.Matching | simulate_genai_trigger.py:42 | every selected row comes from the frame and has the value |
| Trigger.MatchingSpec | simulate_genai_trigger.py:42 | every row with the value is selected, and the selection is empty iff no row has the value |
| Trigger.MatchingFirst | simulate_genai_trigger.py:71 | the first selected row is the first row with the value |
| Trigger.MatchingAppend | simulate_genai_trigger.py:42 | selecting from a concatenation is concatenating the selections |
| Trigger.CppColumns | simulate_genai_trigger.py:45 | selects at most as many columns as the header has |
| Trigger.CppColumnsMembers | simulate_genai_trigger.py:45 | a name is selected iff it is a header name that mentions Temp or Power |
| Trigger.CppColumnsAppend | simulate_genai_trigger.py:45 | the selection keeps header order |
| Trigger.ResolveAll | simulate_genai_trigger.py:48 | succeeds iff every CPP name names exactly one column, and then gives each name that column's position |
| Trigger.RowFeatures | simulate_genai_trigger.py:48 | one row gives one feature per channel, at the row's minute |
| Trigger.Pivot | simulate_genai_trigger.py:48 | the features are exactly (CPP channel, minute of some selected row) |
| Trigger.RowFeaturesAt | simulate_genai_trigger.py:48 | each channel's value stands under (channel, minute) |
| Trigger.PivotAt | simulate_genai_trigger.py:48 | with distinct minutes, the pivot holds every selected row's value of every channel |
| Trigger.DropAllMissing | simulate_genai_trigger.py:51 | `dropna(axis=1, how='all')` on one row keeps exactly the features with a value |
| Trigger.FillZero | simulate_genai_trigger.py:51 | `fillna(0)` keeps the features, leaves none missing and keeps every present value |
| Trigger.FillAfterDropKeepsValues | simulate_genai_trigger.py:51 | after the drop, the fill changes nothing |
| Trigger.BatchFeatures | simulate_genai_trigger.py:48-51 | pivot, dropna and fillna of one batch; BatchFeaturesExact states which features it has and their values |
| Trigger.BatchFeaturesExact | simulate_genai_trigger.py:48-51 | the unfolded batch has feature (c, t) iff c is a CPP channel and the row at minute t has a value in c, and then holds that value; no feature is missing |
| Trigger.Unfold | simulate_genai_trigger.py:48-51 | succeeds iff Time_Min and every CPP column are found and no minute repeats (a repeat raises); the index is `[Batch_ID]` for a non-empty batch and empty otherwise; the features are the dropna/fillna of the pivot, which BatchFeaturesExact characterises |
| Trigger.LookupSop | simulate_genai_trigger.py:71-76 | the knowledge lookup; LookupFirstMatch and Pipeline.FindEntryAgrees state its result |
| Trigger.LookupFirstMatch | simulate_genai_trigger.py:71-76 | the lookup fails with IndexError iff no knowledge row has the label; otherwise it returns the four fields of the first such row |
| Trigger.LookupAt | simulate_genai_trigger.py:71-76 | a label whose first row is k yields row k's fields |
| Trigger.StatusOf | simulate_genai_trigger.py:79 | the SCRAP/SALVAGEABLE split; StatusThreshold states it |
| Trigger.StatusThreshold | simulate_genai_trigger.py:79 | SCRAP iff the prediction is below 7.5; exactly 7.5 is SALVAGEABLE |
| Trigger.FirstLabel | simulate_genai_trigger.py:63 | succeeds iff the Fault_Type column is found and the batch has rows, and then is the Fault_Type cell of its first row; an empty batch raises IndexError |
| Trigger.Act | simulate_genai_trigger.py:67-103 | a Normal report iff the label is Normal; an alert carries the first matching row's fields and the threshold status; a failed lookup is fatal |
| Trigger.SelectBatch | simulate_genai_trigger.py:42 | fails iff the Batch_ID column lookup fails; otherwise returns the rows carrying the identifier, in order |
| Trigger.BatchLabel | simulate_genai_trigger.py:42-63 | the first-row label of the selected batch; AdviseByLabel, NormalIgnoresKnowledge and UnknownFaultNoAdvisory state the advisory in terms of it |
| Trigger.Advise | simulate_genai_trigger.py:41-103 | everything after the cleaning; AdviseByLabel states what each outcome implies (an alert or report only after selection and unfolding succeed, carrying the predictor's answer), AdviseOutcome which outcome each labelled batch gets once its steps succeed, and NormalIgnoresKnowledge and UnknownFaultNoAdvisory the two special cases |
| Trigger.Run | simulate_genai_trigger.py:31-103 | cleaning then advising on values; Simulate is proved to compute it and Pipeline.GeneratedBatchAdvisory states its result on the exports |
| Trigger.AdviseByLabel | simulate_genai_trigger.py:41-103 | an alert arises only for a non-Normal first-row label and carries its first knowledge row and the status; a Normal report arises only for a Normal label; either comes only after selection and unfolding succeed and carries the predictor's answer for the unfolded batch |
| Trigger.AdviseOutcome | simulate_genai_trigger.py:41-103 | once selection, unfolding and prediction succeed on a labelled batch: a Normal batch gets the Normal report of the predicted value; a faulty batch whose label has a knowledge row gets an alert for that value with its threshold status |
| Trigger.NormalIgnoresKnowledge | simulate_genai_trigger.py:100-103 | for a Normal batch the outcome does not depend on the knowledge table and is never an alert |
| Trigger.UnknownFaultNoAdvisory | simulate_genai_trigger.py:71-111 | a faulty label that has no knowledge row ends in the error handler |
| Trigger.Simulate | simulate_genai_trigger.py:31-103 | the advisory is `Run` on the loaded tables; both frames end with stripped headers, and each frame's Fault_Type column is cleaned when its cleaning is reached and succeeds, the frame otherwise keeping its stripped headers and old rows |
| Trigger.CleanCellIdempotent | simulate_genai_trigger.py:36-37 | cleaning a cell twice is cleaning it once |
| Trigger.CleanColumnIdempotent | simulate_genai_trigger.py:36-37 | cleaning a column twice is cleaning it once |
| Trigger.CleaningTrims | simulate_genai_trigger.py:32-37 | after cleaning, every header is trimmed and cleaning again changes nothing |
| Trigger.CleanedCellsTrimmed | simulate_genai_trigger.py:36-37 | every text in a cleaned column is trimmed |
| Pipeline.ScenarioLabels | 1_Data_Generation/generate_synthetic_data.py:109-113 | the scenario list emits only Normal, Door_Open and Under_Mixed_Batter |
| Pipeline.ScenarioLabelsKnown | create_sop_kb.py:12 | each of the generator's three labels has a knowledge-base entry (ScenarioLabels states the generator emits only those) |
| Pipeline.KnownLabelsFound | simulate_genai_trigger.py:71 | the trigger's lookup of each generator label in the exported knowledge table succeeds |
| Pipeline.FaultyBatchIsDoorOpen | simulate_genai_trigger.py:16-17 | C-1085 is batch 84 and only batch 84, and that batch is Door_Open |
| Pipeline.ExportedCppColumns | simulate_genai_trigger.py:45 | on the generator's header the CPP columns are Oven_Temp_Actual, Batter_Center_Temp and Stirrer_Power_Online |
| Pipeline.ExportedNamesClassified | simulate_genai_trigger.py:45 | which exported names mention Temp or Power |
| Pipeline.GeneratedDescribed | 1_Data_Generation/generate_synthetic_data.py:115-125 | every generated batch has its minutes, identifier and label on each row |
| Pipeline.HeadersDistinct | 1_Data_Generation/generate_synthetic_data.py:43-123 | neither the exported dataset header (the four profile columns of lines 43-48, the quality columns of line 98, Fault_Type of line 99 and Batch_ID of line 123) nor the knowledge header of create_sop_kb.py:11-24 repeats a name |
| Pipeline.ColAt | simulate_genai_trigger.py:36 | in a header without repeats each name is found at its position |
| Pipeline.HeadersTrimmed | simulate_genai_trigger.py:32-33 | stripping leaves both exported headers unchanged |
| Pipeline.StripAllKeeps | simulate_genai_trigger.py:32-33 | names that start and end with letters survive stripping |
| Pipeline.ExportHeaderTrimmed | simulate_genai_trigger.py:32 | the dataset header survives stripping |
| Pipeline.SopHeaderTrimmed | simulate_genai_trigger.py:33 | the knowledge header survives stripping |
| Pipeline.KnownLabelTrimmed | simulate_genai_trigger.py:36-37 | the generator's labels have nothing to strip |
| Pipeline.CleanColumnUnchanged | simulate_genai_trigger.py:36-37 | cleaning a column of clean cells changes nothing |
| Pipeline.ConcatLabels | 1_Data_Generation/generate_synthetic_data.py:128 | every row of the concatenated batches carries a trimmed label |
| Pipeline.CleanTrimmedText | simulate_genai_trigger.py:36-37 | a trimmed text cell is already clean |
| Pipeline.DatasetColAt | simulate_genai_trigger.py:36-48 | each exported column is found at its position |
| Pipeline.DatasetColumns | simulate_genai_trigger.py:36-48 | Time_Min, the channels, Fault_Type and Batch_ID are at 0, 1-3, 7 and 8 |
| Pipeline.KnowledgeColumns | simulate_genai_trigger.py:71-76 | the knowledge columns are at positions 0 to 4 |
| Pipeline.DatasetLabelsTrimmed | 1_Data_Generation/generate_synthetic_data.py:128 | every exported row's label is trimmed |
| Pipeline.RowLabelClean | simulate_genai_trigger.py:36 | a trimmed label exports as a clean cell |
| Pipeline.DatasetCellsClean | simulate_genai_trigger.py:36 | every exported label cell is clean |
| Pipeline.DatasetLabelsClean | simulate_genai_trigger.py:36 | cleaning the dataset's labels changes nothing |
| Pipeline.DatasetSurvivesCleaning | simulate_genai_trigger.py:32-36 | the trigger's cleaning leaves the exported dataset as it is |
| Pipeline.KnowledgeCellsClean | simulate_genai_trigger.py:37 | every key cell of the knowledge table is clean |
| Pipeline.KeyCellsClean | simulate_genai_trigger.py:37 | a knowledge table keyed by generator labels has clean key cells |
| Pipeline.KnowledgeSurvivesCleaning | simulate_genai_trigger.py:33-37 | the trigger's cleaning leaves the exported knowledge table as it is |
| Pipeline.MatchingAll | simulate_genai_trigger.py:42 | a selection that every row passes keeps every row |
| Pipeline.Join | 1_Data_Generation/generate_synthetic_data.py:128 | joined rows reach the identifier column |
| Pipeline.PartSelection | simulate_genai_trigger.py:42 | selecting one batch's rows by an identifier gives all of them for its own identifier and none for another |
| Pipeline.SelectPart | simulate_genai_trigger.py:42 | among batches with distinct identifiers, selecting by one identifier gives exactly that batch's rows |
| Pipeline.PartsKeyed | 1_Data_Generation/generate_synthetic_data.py:123 | each batch's exported rows carry its identifier in column 8 |
| Pipeline.JoinCells | 1_Data_Generation/generate_synthetic_data.py:128 | joining the batches' cells gives the cells of the concatenated rows |
| Pipeline.ConcatCellsStep | 1_Data_Generation/generate_synthetic_data.py:128 | concatenation adds one batch at a time |
| Pipeline.IdsUnique | 1_Data_Generation/generate_synthetic_data.py:123 | batches i and j have the same identifier iff i = j |
| Pipeline.IdsDistinct | 1_Data_Generation/generate_synthetic_data.py:123 | no identifier occurs twice |
| Pipeline.SelectGeneratedBatch | simulate_genai_trigger.py:42 | selecting batch j's identifier from the exported data gives exactly batch j's rows |
| Pipeline.SelectLabelled | simulate_genai_trigger.py:42 | the same, for any batches with distinct identifiers |
| Pipeline.DescribedLabelled | 1_Data_Generation/generate_synthetic_data.py:123 | batch i's rows carry `C-(1001 + i)` |
| Pipeline.ResolvePositions | simulate_genai_trigger.py:48 | names that each name exactly one column resolve to those columns' positions |
| Pipeline.ResolveChannels | simulate_genai_trigger.py:48 | the channels resolve to columns 1, 2 and 3 |
| Pipeline.BatchTimesDistinct | 1_Data_Generation/generate_synthetic_data.py:30 | a batch's rows stand at distinct minutes, so the pivot does not raise |
| Pipeline.UnfoldGeneratedBatch | simulate_genai_trigger.py:48-51 | every generated batch unfolds without error |
| Pipeline.GeneratedLabel | simulate_genai_trigger.py:63 | the label read from batch j is its scenario |
| Pipeline.ResolveSopFields | simulate_genai_trigger.py:73-76 | the four fields the lookup reads are columns 1 to 4 |
| Pipeline.KnowledgeLookup | simulate_genai_trigger.py:71-76 | looking up any entry's key in the exported knowledge table yields that entry's fields |
| Pipeline.LookupEntry | simulate_genai_trigger.py:71-76 | the same, for any knowledge table whose keys do not repeat |
| Pipeline.LookupRow | simulate_genai_trigger.py:71-76 | a key that no earlier row has yields its own row |
| Pipeline.FindEntryAgrees | simulate_genai_trigger.py:71-76 | the lookup on the exported knowledge table fails iff FindEntry finds nothing, and otherwise yields the fields of the entry FindEntry finds, repeated keys included |
| Pipeline.FindEntryNone | simulate_genai_trigger.py:71 | a key no entry has raises IndexError in the exported lookup |
| Pipeline.FindEntrySome | simulate_genai_trigger.py:71-76 | the first entry with the key is the row the exported lookup reads |
| Pipeline.EntryOf | create_sop_kb.py:12 | the row of a generator label |
| Pipeline.EntryOfKey | create_sop_kb.py:12 | that row's key is the label |
| Pipeline.AdviseGeneratedBatch | simulate_genai_trigger.py:41-103 | on the exported data, batch j's advisory is its scenario's: a Normal report, or an alert with its knowledge entry and status |
| Pipeline.GeneratedBatchAdvisory | simulate_genai_trigger.py:28-103 | end to end: the trigger on the generator's and the knowledge base's exports reports on exactly the requested batch according to its scenario |
| Pipeline.FaultyBatchAdvisory | simulate_genai_trigger.py:16-103 | the script's own run raises the Door_Open alert (TEMP_EXCUR_F20, SOP-B-005) whenever the predictor answers |
| Pipeline.FaultyBatchExpected | simulate_genai_trigger.py:67-79 | the expected advisory of batch 84, spelled out |

## Left out

- Random number generation is not modelled. Uniform draws are unit draws in
  `[0, 1)`. This matches numpy's half-open `uniform`, so quality ranges such
  as `[7.8, 8.2)` exclude their upper end. Gaussian noise is any real;
  distributions are not modelled.
- Channel values are `real`, so floating-point rounding is not modelled. The
  `round(..., 2)` of the prediction (simulate_genai_trigger.py:60) is left
  out: the status is computed on the predicted value itself.
- The loading of the trained models (`joblib.load`), `scaler.transform` and
  `pls.predict` are opaque library code. They are the parameter `predict`,
  and the PCA model, which is loaded but never used, is left out.
- CSV writing and reading, file encodings and `os.path` plumbing are I/O.
  Writing a table and reading it back is taken as the identity on cells,
  with NaN read back as `Missing`. For the knowledge table this is not
  exact. create_sop_kb.py:33 writes it as UTF-8, but
  simulate_genai_trigger.py:28-29 reads it back as latin1. Each non-ASCII
  character therefore reads back as the latin1 characters of its UTF-8
  bytes. The Door_Open prescription (create_sop_kb.py:21) contains such
  characters. The keys, fault codes and SOP references are ASCII and read
  back exactly.
- Pipeline.FaultyBatchAdvisory: its prescription field is the Door_Open
  prescription as written, not the latin1 re-reading the script prints. Its
  fault code, SOP reference, status and batch identifier are exact.
- `pd.concat(...).fillna(np.nan)` is modelled as plain concatenation, since
  filling NaN with NaN changes nothing.
- The f-string advisory text and the `print` calls are presentation. The
  outcome is the `Advisory` datatype: an alert, a Normal report, or the error
  the top-level handler catches.
- Trigger.CleanCell: `astype(str)` on a numeric `Fault_Type` cell is not
  modelled. The number is kept as it is, instead of becoming its decimal
  text.
- Trigger.Unfold: the column order pandas gives the pivot (channel, then
  minute) is not represented. The unfolded features are a map from
  (channel, minute) to value.
- Trigger.Col: duplicated column names raise one error kind, DuplicateColumn.
  pandas' behaviour there differs by operation.
- BatchGenerator.GenerateBatch: the `.copy()` of the baseline is implicit.
  The baseline is a sequence value, and injection works on a new array built
  from it, so it cannot change the baseline.
- Trigger.Simulate: requires the two frames to be distinct objects. The
  script loads them from two files.
- Trigger.Matching: its contract gives only that selected rows come from the
  frame and match. That every matching row is selected is proved separately
  in Trigger.MatchingSpec.
- Trigger.Strip: it has no contract of its own. Trigger.StripSpec,
  Trigger.StripEnds and Trigger.StripIdempotent state what it keeps and
  drops.
