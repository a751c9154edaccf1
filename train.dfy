/**
 * The training script scripts/train.py, run top to bottom: encode the crop
 * labels, separate features from the target, split 80/20, fit the min-max
 * scaler and then the standard scaler on the training rows, fit the forest,
 * evaluate on the test rows, and pickle five artifacts. Printing, the
 * feature-importance table and the report's numbers are not modelled.
 */
module Training {
  import opened Wrappers
  import opened Frames
  import opened Sklearn
  import opened LabelMaps
  import opened Artifacts

  /** `crop_dict`: the fixed crop-name to id table, ids ascending from 1. */
  const CropDict: LabelMap := (var t := [
    ("rice", 1), ("maize", 2), ("jute", 3), ("cotton", 4), ("coconut", 5),
    ("papaya", 6), ("orange", 7), ("apple", 8), ("muskmelon", 9), ("watermelon", 10),
    ("grapes", 11), ("mango", 12), ("banana", 13), ("pomegranate", 14), ("lentil", 15),
    ("blackgram", 16), ("mungbean", 17), ("mothbeans", 18), ("pigeonpeas", 19),
    ("kidneybeans", 20), ("chickpea", 21), ("coffee", 22)];
    DistinctByKey(t); t)

  const LabelColumn: string := "label"

  /** `train_test_split(..., test_size=0.2, random_state=42)`. */
  const SplitSettings: SplitParams := SplitParams(0.2, 42)

  /** `RandomForestClassifier(n_estimators=100, max_depth=20, random_state=42, n_jobs=-1)`. */
  const ForestSettings: ForestParams := ForestParams(100, 20, 42, -1)

  /** The table holds 22 crops numbered 1..22 in order, so ids are distinct and ascend. */
  lemma CropDictNumbering()
    ensures |CropDict| == 22
    ensures forall i :: 0 <= i < |CropDict| ==> CropDict[i].1 == i + 1
    ensures IdsDistinct(CropDict) && IdsAscending(CropDict)
  {
  }

  /**
   * `crop['label'].map(crop_dict)` on one cell: a crop name becomes its id,
   * anything else becomes NaN (`None`). Decoding the id gives the name back.
   */
  function EncodeLabel(cell: Cell): (r: Option<int>)
    ensures r.Some? <==> cell.Text? && cell.s in Names(CropDict)
    ensures r.Some? ==> 1 <= r.value <= |CropDict|
    ensures r.Some? ==> r.value in Reverse(CropDict) && Reverse(CropDict)[r.value] == cell.s
  {
    if cell.Text? then
      var id := Get(CropDict, cell.s);
      CropDictNumbering();
      ReverseRoundTrip(CropDict);
      id
    else None
  }

  /** `sorted` insertion of `x` into a strictly increasing list, dropping a duplicate. */
  function InsertSorted(x: int, s: seq<int>): (r: seq<int>)
    requires StrictlyIncreasing(s)
    ensures StrictlyIncreasing(r)
    ensures forall y :: y in r <==> y == x || y in s
  {
    if |s| == 0 then [x]
    else if x < s[0] then [x] + s
    else if x == s[0] then s
    else
      var rest := InsertSorted(x, s[1..]);
      assert forall y :: y in rest ==> y > s[0];
      var r := [s[0]] + rest;
      assert StrictlyIncreasing(r) by {
        forall i, j | 0 <= i < j < |r| ensures r[i] < r[j] {
          assert r[j] == rest[j - 1] && rest[j - 1] in rest;
          if i > 0 {
            assert r[i] == rest[i - 1];
          }
        }
      }
      r
  }

  /** `sorted(set(xs))`. */
  function SortedDistinct(xs: seq<int>): (r: seq<int>)
    ensures StrictlyIncreasing(r)
    ensures forall y :: y in r <==> y in xs
  {
    if |xs| == 0 then [] else InsertSorted(xs[0], SortedDistinct(xs[1..]))
  }

  /** `unique_labels = sorted(set(y_test) | set(y_pred))`: only the ids that occur. */
  function ReportLabels(yTest: seq<int>, yPred: seq<int>): (r: seq<int>)
    ensures StrictlyIncreasing(r)
    ensures forall y :: y in r <==> y in yTest || y in yPred
  {
    SortedDistinct(yTest + yPred)
  }

  /**
   * `crop_names` is taken in `crop_dict` order; since those ids ascend, the
   * i-th name is the crop whose id is the i-th report label, as long as every
   * id that occurs is one of the table's.
   */
  lemma ReportNamesAligned(yTest: seq<int>, yPred: seq<int>)
    requires CropIds(yTest) && CropIds(yPred)
    ensures |NamesWithIds(CropDict, ReportLabels(yTest, yPred))| == |ReportLabels(yTest, yPred)|
    ensures forall i :: 0 <= i < |ReportLabels(yTest, yPred)| ==>
      Get(CropDict, NamesWithIds(CropDict, ReportLabels(yTest, yPred))[i]) == Some(ReportLabels(yTest, yPred)[i])
  {
    var labels := ReportLabels(yTest, yPred);
    CropDictNumbering();
    forall j | 0 <= j < |labels| ensures labels[j] in Ids(CropDict) {
      assert labels[j] in yTest + yPred;
      assert Ids(CropDict)[labels[j] - 1] == labels[j];
    }
    NamesWithIdsAligned(CropDict, labels);
  }

  /** The files the save block writes before `failure` (if any) interrupts it. */
  function SavedPrefix(failure: Option<ArtifactName>): (r: seq<ArtifactName>)
    ensures failure.None? ==> r == ArtifactOrder
    ensures failure.Some? ==> r == ArtifactOrder[..Position(failure.value)]
  {
    match failure
    case None => ArtifactOrder
    case Some(a) => ArtifactOrder[..Position(a)]
  }

  /** The directory after writing `names` in order. */
  function WriteAll(s: ArtifactStore, t: Trained, names: seq<ArtifactName>): (r: ArtifactStore)
    ensures forall a :: a in names ==> Holds(r, a, t)
    ensures forall a :: a !in names ==> SameFile(r, s, a)
  {
    if |names| == 0 then s
    else
      var init, last := names[..|names| - 1], names[|names| - 1];
      var prev := WriteAll(s, t, init);
      var r := Write(prev, last, t);
      assert names == init + [last];
      assert forall a :: a in names ==> Holds(r, a, t) by {
        forall a | a in names ensures Holds(r, a, t) {
          if a != last {
            SameFileKeepsHolds(prev, r, a, t);
          }
        }
      }
      assert forall a :: a !in names ==> SameFile(r, s, a) by {
        forall a | a !in names ensures SameFile(r, s, a) {
          SameFileTransitive(s, prev, r, a);
        }
      }
      r
  }

  lemma WriteAllPrefixes(s: ArtifactStore, t: Trained)
    ensures WriteAll(s, t, ArtifactOrder[..0]) == s
    ensures WriteAll(s, t, ArtifactOrder[..1]) == s.(model := Present(t.model))
    ensures WriteAll(s, t, ArtifactOrder[..2]) == s.(model := Present(t.model), minmax := Present(t.minmax))
    ensures WriteAll(s, t, ArtifactOrder[..3]) ==
      s.(model := Present(t.model), minmax := Present(t.minmax), standard := Present(t.standard))
    ensures WriteAll(s, t, ArtifactOrder[..4]) ==
      s.(model := Present(t.model), minmax := Present(t.minmax), standard := Present(t.standard),
         mapping := Present(t.mapping))
    ensures WriteAll(s, t, ArtifactOrder) ==
      ArtifactStore(Present(t.model), Present(t.minmax), Present(t.standard), Present(t.mapping), Present(t.features))
  {
    assert ArtifactOrder[..1][..0] == ArtifactOrder[..0];
    assert ArtifactOrder[..2][..1] == ArtifactOrder[..1];
    assert ArtifactOrder[..3][..2] == ArtifactOrder[..2];
    assert ArtifactOrder[..4][..3] == ArtifactOrder[..3];
    assert ArtifactOrder[..4] == ArtifactOrder[..|ArtifactOrder| - 1];
  }

  /** A complete save leaves exactly the five trained values in the directory. */
  lemma CompleteSaveStoresAll(s: ArtifactStore, t: Trained)
    ensures WriteAll(s, t, SavedPrefix(None)) ==
      ArtifactStore(Present(t.model), Present(t.minmax), Present(t.standard), Present(t.mapping), Present(t.features))
  {
    WriteAllPrefixes(s, t);
  }

  /**
   * An interrupted save leaves the files from the failing one on exactly as
   * they were, and the earlier ones holding the new values.
   */
  lemma InterruptedSaveKeepsLaterFiles(s: ArtifactStore, t: Trained, a: ArtifactName)
    ensures var r := WriteAll(s, t, SavedPrefix(Some(a)));
      && (if Position(a) <= 0 then r.model == s.model else r.model == Present(t.model))
      && (if Position(a) <= 1 then r.minmax == s.minmax else r.minmax == Present(t.minmax))
      && (if Position(a) <= 2 then r.standard == s.standard else r.standard == Present(t.standard))
      && (if Position(a) <= 3 then r.mapping == s.mapping else r.mapping == Present(t.mapping))
      && r.features == s.features
  {
    WriteAllPrefixes(s, t);
  }

  /**
   * The `try` block at the end of the script: pickle the five artifacts in
   * order; a failing write stops the block, is printed, and is not re-raised.
   */
  method SaveArtifacts(dir: ModelsDir, t: Trained, failure: Option<ArtifactName>) returns (saved: seq<ArtifactName>)
    modifies dir
    ensures saved == SavedPrefix(failure)
    ensures dir.store == WriteAll(old(dir.store), t, saved)
  {
    WriteAllPrefixes(dir.store, t);
    saved := [];
    if failure == Some(ModelFile) { return; }
    dir.Save(ModelFile, t);
    saved := saved + [ModelFile];
    assert saved == ArtifactOrder[..1];
    if failure == Some(MinMaxFile) { return; }
    dir.Save(MinMaxFile, t);
    saved := saved + [MinMaxFile];
    assert saved == ArtifactOrder[..2];
    if failure == Some(StandardFile) { return; }
    dir.Save(StandardFile, t);
    saved := saved + [StandardFile];
    assert saved == ArtifactOrder[..3];
    if failure == Some(MappingFile) { return; }
    dir.Save(MappingFile, t);
    saved := saved + [MappingFile];
    assert saved == ArtifactOrder[..4];
    if failure == Some(FeaturesFile) { return; }
    dir.Save(FeaturesFile, t);
    saved := saved + [FeaturesFile];
  }

  datatype TrainError =
    | MissingLabelColumn   // KeyError on `crop['label']`
    | NonNumericFeature    // ValueError from the min-max scaler
    | UnknownCropLabel     // ValueError on a NaN target, at fitting or at scoring

  /** What the script leaves behind: split data, fitted artifacts, evaluation, saved files. */
  datatype TrainingRun = TrainingRun(
    xTrain: Matrix, xTest: Matrix, yTrain: seq<int>, yTest: seq<int>,
    trained: Trained, testScaled: Matrix, yPred: seq<int>, accuracy: real,
    reportLabels: seq<int>, reportNames: seq<string>, saved: seq<ArtifactName>)

  /** The encoded label column; `None` if any label became NaN. */
  function KnownIds(ys: seq<Option<int>>): (r: Option<seq<int>>)
    ensures r.Some? <==> forall i :: 0 <= i < |ys| ==> ys[i].Some?
    ensures r.Some? ==> |r.value| == |ys| && forall i :: 0 <= i < |ys| ==> ys[i] == Some(r.value[i])
  {
    if |ys| == 0 then Some([])
    else match (ys[0], KnownIds(ys[1..]))
      case (Some(y), Some(rest)) => Some([y] + rest)
      case _ => None
  }

  /** `crop['label'].map(crop_dict)` over the whole column. */
  function EncodeLabels(cells: seq<Cell>): (r: seq<Option<int>>)
    ensures |r| == |cells| && forall i :: 0 <= i < |cells| ==> r[i] == EncodeLabel(cells[i])
  {
    seq(|cells|, i requires 0 <= i < |cells| => EncodeLabel(cells[i]))
  }

  /** A row the script can train on: a crop name in the label column, numbers elsewhere. */
  predicate TrainableRow(row: Row, c: nat)
    requires c < |row|
  {
    && EncodeLabel(row[c]).Some?
    && forall j :: 0 <= j < |row| && j != c ==> row[j].Num?
  }

  /** The data the script can train on: a label column of crop names and numeric features. */
  predicate Trainable(data: Frame)
    requires data.WellShaped()
  {
    match IndexOf(data.columns, LabelColumn)
    case None => false
    case Some(c) => forall i :: 0 <= i < |data.rows| ==> TrainableRow(data.rows[i], c)
  }

  /** Without the label column, a trainable row is all numbers. */
  lemma DroppedRowIsNumeric(row: Row, c: nat)
    requires c < |row| && TrainableRow(row, c)
    ensures forall j :: 0 <= j < |RemoveAt(row, c)| ==> RemoveAt(row, c)[j].Num?
  {
    forall j | 0 <= j < |RemoveAt(row, c)| ensures RemoveAt(row, c)[j].Num? {
      if j >= c {
        assert RemoveAt(row, c)[j] == row[j + 1];
      }
    }
  }

  lemma TrainableRowsConvert(data: Frame, c: nat, idx: seq<nat>)
    requires data.WellShaped() && Trainable(data) && IndexOf(data.columns, LabelColumn) == Some(c)
    requires IndicesBelow(idx, |data.rows|)
    ensures ToMatrix(Select(DropColumn(data, c).rows, idx)).Some?
    ensures KnownIds(Select(EncodeLabels(Column(data, c)), idx)).Some?
  {
    var rows: seq<Row> := Select(DropColumn(data, c).rows, idx);
    forall i | 0 <= i < |rows| ensures forall j :: 0 <= j < |rows[i]| ==> rows[i][j].Num? {
      var row := data.rows[idx[i]];
      assert TrainableRow(row, c);
      assert rows[i] == RemoveAt(row, c);
      DroppedRowIsNumeric(row, c);
    }
  }

  /** `ys` are the encoded labels in column `c` of the rows at `idx`, in that order. */
  ghost predicate LabelsAt(data: Frame, c: nat, idx: seq<nat>, ys: seq<int>)
    requires data.WellShaped() && c < |data.columns| && IndicesBelow(idx, |data.rows|)
  {
    && |ys| == |idx|
    && forall k :: 0 <= k < |idx| ==> EncodeLabel(data.rows[idx[k]][c]) == Some(ys[k])
  }

  /** Labels that came out of encoding are crop ids. */
  lemma LabelsAreCropIds(data: Frame, c: nat, idx: seq<nat>, ys: seq<int>)
    requires data.WellShaped() && c < |data.columns| && IndicesBelow(idx, |data.rows|)
    requires LabelsAt(data, c, idx, ys)
    ensures CropIds(ys)
  {
    forall k | 0 <= k < |ys| ensures 1 <= ys[k] <= |CropDict| {
      assert EncodeLabel(data.rows[idx[k]][c]) == Some(ys[k]);
    }
  }

  lemma SelectedLabels(data: Frame, c: nat, idx: seq<nat>, ys: seq<int>)
    requires data.WellShaped() && c < |data.columns| && IndicesBelow(idx, |data.rows|)
    requires KnownIds(Select(EncodeLabels(Column(data, c)), idx)) == Some(ys)
    ensures LabelsAt(data, c, idx, ys)
  {
    var col := EncodeLabels(Column(data, c));
    forall k | 0 <= k < |idx| ensures EncodeLabel(data.rows[idx[k]][c]) == Some(ys[k]) {
      assert Select(col, idx)[k] == col[idx[k]];
    }
  }

  /**
   * The data side of a run as the script derives it: the features are every
   * column but `label`, in order, split by the library's positions, and the
   * targets are the encoded labels of the same rows.
   */
  ghost predicate SplitAsScript(data: Frame, lib: Toolkit<int>, run: TrainingRun)
    requires data.WellShaped() && lib.SplitsInRange()
  {
    FeaturesAsScript(data, lib, run) && LabelsAsScript(data, lib, run)
  }

  /** The feature side of the split: every column but `label`, rows taken at the library's positions. */
  ghost predicate FeaturesAsScript(data: Frame, lib: Toolkit<int>, run: TrainingRun)
    requires data.WellShaped() && lib.SplitsInRange()
  {
    match IndexOf(data.columns, LabelColumn)
    case None => false
    case Some(c) =>
      var parts := lib.split(|data.rows|, SplitSettings);
      var x := DropColumn(data, c);
      && run.trained.features == x.columns
      && ToMatrix(Select(x.rows, parts.train)) == Some(run.xTrain)
      && ToMatrix(Select(x.rows, parts.test)) == Some(run.xTest)
  }

  /** The target side of the split: the encoded labels of the same rows. */
  ghost predicate LabelsAsScript(data: Frame, lib: Toolkit<int>, run: TrainingRun)
    requires data.WellShaped() && lib.SplitsInRange()
  {
    match IndexOf(data.columns, LabelColumn)
    case None => false
    case Some(c) =>
      var parts := lib.split(|data.rows|, SplitSettings);
      && LabelsAt(data, c, parts.train, run.yTrain)
      && LabelsAt(data, c, parts.test, run.yTest)
  }

  /**
   * The fitted side of a run: the min-max scaler is fitted on the training
   * rows, the standard scaler on their min-max output, the test rows go
   * through the same two frozen transforms, the forest is fitted on the
   * scaled training rows and scored on the scaled test rows, and the
   * mapping saved is `crop_dict`.
   */
  ghost predicate FittedAsScript(lib: Toolkit<int>, run: TrainingRun) {
    var t := run.trained;
    var trainScaled := Transform(t.standard, Transform(t.minmax, run.xTrain));
    && t.minmax == lib.fitMinMax(run.xTrain)
    && t.standard == lib.fitStandard(Transform(t.minmax, run.xTrain))
    && run.testScaled == Transform(t.standard, Transform(t.minmax, run.xTest))
    && t.model == lib.fitForest(ForestSettings, trainScaled, run.yTrain)
    && run.yPred == PredictAll(t.model, run.testScaled)
    && run.accuracy == lib.accuracy(run.yTest, run.yPred)
    && t.mapping == CropDict
  }

  /**
   * A run done as the script does it, with a forest that predicts only
   * labels it was trained on, has a report whose names line up with its
   * labels, so every report row carries the name of its own crop.
   */
  lemma {:induction false} ScriptReportAligned(data: Frame, lib: Toolkit<int>, run: TrainingRun)
    requires data.WellShaped() && lib.SplitsInRange()
    requires LabelsAsScript(data, lib, run) && FittedAsScript(lib, run) && ReportAsScript(run)
    ensures PredictsSeenLabels(lib) && |run.yTrain| > 0 ==> ReportAligned(run)
  {
    ScriptLabelsAreCropIds(data, lib, run);
    FittedReportAligned(lib, run);
  }

  /** Every one of `ys` is an id `crop_dict` gives out. */
  ghost predicate CropIds(ys: seq<int>) {
    forall k :: 0 <= k < |ys| ==> 1 <= ys[k] <= |CropDict|
  }

  /** The labels a run is split into all came out of encoding, so they are crop ids. */
  lemma {:induction false} ScriptLabelsAreCropIds(data: Frame, lib: Toolkit<int>, run: TrainingRun)
    requires data.WellShaped() && lib.SplitsInRange()
    requires LabelsAsScript(data, lib, run)
    ensures CropIds(run.yTrain) && CropIds(run.yTest)
  {
    var c := IndexOf(data.columns, LabelColumn).value;
    var parts := lib.split(|data.rows|, SplitSettings);
    LabelsAreCropIds(data, c, parts.train, run.yTrain);
    LabelsAreCropIds(data, c, parts.test, run.yTest);
  }

  /** The fitted and reported side of the alignment, given crop-id labels. */
  lemma {:induction false} FittedReportAligned(lib: Toolkit<int>, run: TrainingRun)
    requires FittedAsScript(lib, run) && ReportAsScript(run)
    requires CropIds(run.yTrain) && CropIds(run.yTest)
    ensures PredictsSeenLabels(lib) && |run.yTrain| > 0 ==> ReportAligned(run)
  {
    if PredictsSeenLabels(lib) && |run.yTrain| > 0 {
      var t := run.trained;
      PredictionsAreCropIds(lib, Transform(t.standard, Transform(t.minmax, run.xTrain)), run.yTrain, run.testScaled);
      ReportNamesAligned(run.yTest, run.yPred);
    }
  }

  /** With a forest that predicts only labels it was trained on, every prediction is a crop id. */
  lemma PredictionsAreCropIds(lib: Toolkit<int>, xTrain: Matrix, yTrain: seq<int>, xTest: Matrix)
    requires PredictsSeenLabels(lib) && |yTrain| > 0
    requires CropIds(yTrain)
    ensures CropIds(PredictAll(lib.fitForest(ForestSettings, xTrain, yTrain), xTest))
  {
    var model := lib.fitForest(ForestSettings, xTrain, yTrain);
    assert PredictsOnly(model, yTrain);
    forall i | 0 <= i < |xTest| ensures 1 <= model.predict(xTest[i]) <= |CropDict| {
      assert model.predict(xTest[i]) in yTrain;
    }
  }

  /** The report's names line up with its labels: the i-th name is the crop whose id is the i-th label. */
  ghost predicate ReportAligned(run: TrainingRun) {
    && |run.reportNames| == |run.reportLabels|
    && forall i :: 0 <= i < |run.reportLabels| ==> Get(CropDict, run.reportNames[i]) == Some(run.reportLabels[i])
  }

  /** The report of a run: its labels are the ids that occur, and its names are theirs. */
  ghost predicate ReportAsScript(run: TrainingRun) {
    && run.reportLabels == ReportLabels(run.yTest, run.yPred)
    && run.reportNames == NamesWithIds(CropDict, run.reportLabels)
  }

  /**
   * The script from loading on: the label column is encoded in place, the
   * features are every other column, the split is taken by position, both
   * scalers are fitted on training rows only and then applied frozen to the
   * test rows, the forest is fitted and scored, the report's labels and names
   * are chosen, and the artifacts are saved.
   */
  method RunTraining(data: Frame, lib: Toolkit<int>, dir: ModelsDir, saveFailure: Option<ArtifactName>)
    returns (r: Result<TrainingRun, TrainError>)
    requires data.WellShaped() && lib.SplitsInRange()
    modifies dir
    ensures r.Failure? ==> dir.store == old(dir.store)
    ensures r == Failure(MissingLabelColumn) <==> LabelColumn !in data.columns
    ensures Trainable(data) ==> r.Success?
    ensures r.Success? ==> LabelColumn in data.columns
    ensures r.Success? ==> SplitAsScript(data, lib, r.value)
    ensures r.Success? ==> FittedAsScript(lib, r.value)
    ensures r.Success? ==> ReportAsScript(r.value)
    ensures r.Success? ==>
      r.value.saved == SavedPrefix(saveFailure) && dir.store == WriteAll(old(dir.store), r.value.trained, r.value.saved)
  {
    var col := IndexOf(data.columns, LabelColumn);
    if col.None? {
      return Failure(MissingLabelColumn);
    }
    var c := col.value;

    // Encode labels; separate features and target.
    var y := EncodeLabels(Column(data, c));
    var x := DropColumn(data, c);

    // Train-test split.
    var parts := lib.split(|data.rows|, SplitSettings);
    if Trainable(data) {
      TrainableRowsConvert(data, c, parts.train);
      TrainableRowsConvert(data, c, parts.test);
    }
    var trainCells := Select(x.rows, parts.train);
    var testCells := Select(x.rows, parts.test);

    // Feature scaling: both scalers fitted on the training part only.
    var xTrain := ToMatrix(trainCells);
    if xTrain.None? {
      return Failure(NonNumericFeature);
    }
    var minmax := lib.fitMinMax(xTrain.value);
    var xTrainMinmax := Transform(minmax, xTrain.value);
    var xTest := ToMatrix(testCells);
    if xTest.None? {
      return Failure(NonNumericFeature);
    }
    var xTestMinmax := Transform(minmax, xTest.value);
    var standard := lib.fitStandard(xTrainMinmax);
    var xTrainScaled := Transform(standard, xTrainMinmax);
    var xTestScaled := Transform(standard, xTestMinmax);

    // Fit the forest.
    var yTrain := KnownIds(Select(y, parts.train));
    if yTrain.None? {
      return Failure(UnknownCropLabel);
    }
    SelectedLabels(data, c, parts.train, yTrain.value);
    var model := lib.fitForest(ForestSettings, xTrainScaled, yTrain.value);

    // Evaluate.
    var yPred := PredictAll(model, xTestScaled);
    var yTest := KnownIds(Select(y, parts.test));
    if yTest.None? {
      return Failure(UnknownCropLabel);
    }
    SelectedLabels(data, c, parts.test, yTest.value);
    var accuracy := lib.accuracy(yTest.value, yPred);
    var labels := ReportLabels(yTest.value, yPred);
    var names := NamesWithIds(CropDict, labels);

    // Save the artifacts.
    var trained := Trained(model, minmax, standard, CropDict, x.columns);
    var saved := SaveArtifacts(dir, trained, saveFailure);
    var run := TrainingRun(xTrain.value, xTest.value, yTrain.value, yTest.value,
                           trained, xTestScaled, yPred, accuracy, labels, names, saved);
    assert SplitAsScript(data, lib, run) && FittedAsScript(lib, run) && ReportAsScript(run);
    return Success(run);
  }
}
