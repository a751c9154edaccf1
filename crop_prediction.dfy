/**
 * The older single-scaler CropPredictor: a StandardScaler fitted on the
 * training features, a random forest over the raw label cells, the list of
 * distinct labels, and a bundle file holding all three. Printing, reading
 * the CSV and creating the models directory are not modelled.
 */
module CropPrediction {
  import opened Wrappers
  import opened Frames
  import opened Sklearn

  /** The order in which a dictionary's readings become a feature vector. */
  const FeatureKeys: seq<string> := ["N", "P", "K", "temperature", "humidity", "ph", "rainfall"]

  /** The default `target_column` of `prepare_data`. */
  const DefaultTarget: string := "label"

  /** The default `model_path` of `save_model` and `load_model`. */
  const DefaultModelPath: string := "models/crop_predictor.pkl"

  /** `train_test_split(X, y, test_size=0.2, random_state=42)`. */
  const SplitSettings: SplitParams := SplitParams(0.2, 42)

  /** `RandomForestClassifier(n_estimators=100, random_state=42, max_depth=10)`; `n_jobs` keeps its default of one job. */
  const ForestSettings: ForestParams := ForestParams(100, 10, 42, 1)

  /** The `scaler` field: a StandardScaler before or after fitting, with the feature count it was fitted on. */
  datatype ScalerState = Unfitted | Fitted(scaler: Scaler, width: nat)

  /** The `model` field once set: the forest's parameters and, after `fit` succeeded, what it computes. */
  datatype Estimator = Estimator(params: ForestParams, fitted: Option<Classifier<Cell>>)

  /** The argument of `predict_crop`: a dictionary of readings or a plain sequence of numbers. */
  datatype ClimateData = Named(readings: map<string, real>) | Positional(vector: seq<real>)

  datatype CropError =
    | NotFitted                                  // NotFittedError from the scaler or the forest
    | FeatureCountMismatch(expected: nat, given: nat)  // ValueError from `scaler.transform`
    | NonNumericFeature                          // ValueError when scaling text cells
    | NoInput                                    // `None` passed where arrays are expected

  /** The four arrays `prepare_data` returns on success. */
  datatype Prepared = Prepared(xTrain: Matrix, xTest: Matrix, yTrain: seq<Cell>, yTest: seq<Cell>)

  /** The dictionary `save_model` writes: `model`, `scaler`, `crop_labels`. */
  datatype Bundle = Bundle(model: Estimator, scaler: ScalerState, cropLabels: seq<Cell>)

  /** The three fields of a CropPredictor taken together. */
  datatype PredictorState = PredictorState(model: Option<Estimator>, scaler: ScalerState, cropLabels: seq<Cell>)

  /** Position of the first occurrence of `x` in `xs`. */
  function FirstAt<T(==)>(xs: seq<T>, x: T): (r: nat)
    requires x in xs
    ensures r < |xs| && xs[r] == x
    ensures forall k :: 0 <= k < r ==> xs[k] != x
  {
    if xs[0] == x then 0 else 1 + FirstAt(xs[1..], x)
  }

  /** `list(y.unique())`: the distinct values of `xs`, in order of first appearance. */
  function Unique<T(==,!new)>(xs: seq<T>): (r: seq<T>)
    ensures forall x :: x in r <==> x in xs
    ensures forall i, j :: 0 <= i < j < |r| ==> r[i] != r[j]
    ensures forall i, j :: 0 <= i < j < |r| ==> FirstAt(xs, r[i]) < FirstAt(xs, r[j])
  {
    if |xs| == 0 then []
    else
      var init := xs[..|xs| - 1];
      var last := xs[|xs| - 1];
      var u := Unique(init);
      FirstAtInPrefix(xs, u);
      if last in u then u
      else
        assert FirstAt(xs, last) == |xs| - 1 by {
          assert forall k :: 0 <= k < |xs| - 1 ==> xs[k] == init[k];
        }
        u + [last]
  }

  /** A value seen before the last element keeps its first position. */
  lemma FirstAtInit<T>(xs: seq<T>, x: T)
    requires |xs| > 0 && x in xs[..|xs| - 1]
    ensures FirstAt(xs, x) == FirstAt(xs[..|xs| - 1], x) < |xs| - 1
  {
    var init := xs[..|xs| - 1];
    var b := FirstAt(init, x);
    assert xs[b] == init[b];
    assert forall k :: 0 <= k < b ==> xs[k] == init[k];
  }

  lemma FirstAtInPrefix<T(!new)>(xs: seq<T>, u: seq<T>)
    requires |xs| > 0
    requires forall x :: x in u ==> x in xs[..|xs| - 1]
    ensures forall x :: x in u ==> FirstAt(xs, x) == FirstAt(xs[..|xs| - 1], x) < |xs| - 1
  {
    forall x | x in u ensures FirstAt(xs, x) == FirstAt(xs[..|xs| - 1], x) < |xs| - 1 {
      FirstAtInit(xs, x);
    }
  }

  /**
   * `[climate_data[key] for key in FEATURE_KEYS]` for a dictionary, the
   * numbers as given otherwise; `None` when a key is missing.
   */
  function ExtractFeatures(d: ClimateData): (r: Option<Vector>)
    ensures d.Positional? ==> r == Some(d.vector)
    ensures d.Named? ==> (r.Some? <==> forall i :: 0 <= i < |FeatureKeys| ==> FeatureKeys[i] in d.readings)
    ensures d.Named? && r.Some? ==>
      |r.value| == |FeatureKeys| && forall i :: 0 <= i < |FeatureKeys| ==> r.value[i] == d.readings[FeatureKeys[i]]
  {
    match d
    case Positional(v) => Some(v)
    case Named(m) =>
      if forall i :: 0 <= i < |FeatureKeys| ==> FeatureKeys[i] in m
      then Some(seq(|FeatureKeys|, i requires 0 <= i < |FeatureKeys| => m[FeatureKeys[i]]))
      else None
  }

  /** Only the readings under the feature keys matter; any other key is ignored. */
  lemma {:induction false} ExtraKeysIgnored(m1: map<string, real>, m2: map<string, real>)
    requires forall k :: k in FeatureKeys ==> (k in m1 <==> k in m2)
    requires forall k :: k in FeatureKeys && k in m1 ==> m1[k] == m2[k]
    ensures ExtractFeatures(Named(m1)) == ExtractFeatures(Named(m2))
  {
    if ExtractFeatures(Named(m1)).Some? {
      assert forall i :: 0 <= i < |FeatureKeys| ==> FeatureKeys[i] in FeatureKeys;
      assert ExtractFeatures(Named(m2)).Some?;
      assert ExtractFeatures(Named(m1)).value == ExtractFeatures(Named(m2)).value;
    }
  }

  /** `scaler.transform` on one row: refused before fitting and on the wrong number of features. */
  function ScaleRow(s: ScalerState, v: Vector): (r: Result<Vector, CropError>)
    ensures r.Success? <==> s.Fitted? && |v| == s.width
    ensures r.Success? ==> r.value == s.scaler.transform(v)
    ensures s.Unfitted? ==> r == Failure(NotFitted)
  {
    match s
    case Unfitted => Failure(NotFitted)
    case Fitted(scaler, width) =>
      if |v| == width then Success(scaler.transform(v)) else Failure(FeatureCountMismatch(width, |v|))
  }

  /** The file table after `save_model(path)` from state `s`: untrained, nothing is written. */
  function AfterSave(files: map<string, Bundle>, path: string, s: PredictorState): (r: map<string, Bundle>)
    ensures s.model.None? ==> r == files
    ensures s.model.Some? ==> path in r && r[path] == Bundle(s.model.value, s.scaler, s.cropLabels)
    ensures forall p :: p != path ==> (p in r <==> p in files) && (p in r ==> r[p] == files[p])
  {
    match s.model
    case None => files
    case Some(m) => files[path := Bundle(m, s.scaler, s.cropLabels)]
  }

  /** The state after `load_model(path)` from state `s`: all three fields or none. */
  function AfterLoad(s: PredictorState, files: map<string, Bundle>, path: string): (r: PredictorState)
    ensures path !in files ==> r == s
    ensures path in files ==>
      r.model == Some(files[path].model) && r.scaler == files[path].scaler && r.cropLabels == files[path].cropLabels
  {
    if path in files then
      var b := files[path];
      PredictorState(Some(b.model), b.scaler, b.cropLabels)
    else s
  }

  /** Loading what a trained predictor saved restores all three of its fields, whatever the loader held. */
  lemma SaveLoadRoundTrip(files: map<string, Bundle>, path: string, saver: PredictorState, loader: PredictorState)
    requires saver.model.Some?
    ensures AfterLoad(loader, AfterSave(files, path, saver), path) == saver
  {
  }

  /** An untrained predictor writes nothing, so a later load sees the files as they were. */
  lemma UntrainedSaveWritesNothing(files: map<string, Bundle>, path: string, s: PredictorState, loader: PredictorState)
    requires s.model.None?
    ensures AfterSave(files, path, s) == files
    ensures AfterLoad(loader, AfterSave(files, path, s), path) == AfterLoad(loader, files, path)
  {
  }

  /** The file store `save_model` writes to and `load_model` reads from. */
  class ModelFiles {
    var files: map<string, Bundle>

    constructor(initial: map<string, Bundle>)
      ensures files == initial
    {
      files := initial;
    }
  }

  class CropPredictor {
    var model: Option<Estimator>
    var scaler: ScalerState
    var cropLabels: seq<Cell>

    /** A fresh predictor: no model, an unfitted scaler, no labels. */
    constructor()
      ensures model == None && scaler == Unfitted && cropLabels == []
    {
      model := None;
      scaler := Unfitted;
      cropLabels := [];
    }

    function State(): PredictorState
      reads this
    {
      PredictorState(model, scaler, cropLabels)
    }

    /**
     * Splits `data` into features (every column but `target`) and target,
     * records the distinct labels, splits, fits the scaler on the training
     * features and applies it to the test features. Without data or without
     * the target column it returns four Nones and changes nothing.
     */
    method PrepareData(data: Option<Frame>, lib: Toolkit<Cell>, target: string := DefaultTarget)
      returns (r: Result<Option<Prepared>, CropError>)
      requires data.Some? ==> data.value.WellShaped()
      requires lib.SplitsInRange()
      modifies this
      ensures r == Success(None) <==> data.None? || target !in data.value.columns
      ensures r == Success(None) ==> State() == old(State())
      ensures model == old(model)
      ensures data.Some? && target in data.value.columns ==>
        var f := data.value;
        var c := IndexOf(f.columns, target).value;
        var parts := lib.split(|f.rows|, SplitSettings);
        var trainCells := Select(DropColumn(f, c).rows, parts.train);
        var testCells := Select(DropColumn(f, c).rows, parts.test);
        && cropLabels == Unique(Column(f, c))
        && (ToMatrix(trainCells).None? ==> r == Failure(NonNumericFeature) && scaler == Unfitted)
        && (ToMatrix(trainCells).Some? ==>
              && scaler == Fitted(lib.fitStandard(ToMatrix(trainCells).value), |f.columns| - 1)
              && (ToMatrix(testCells).None? ==> r == Failure(NonNumericFeature))
              && (ToMatrix(testCells).Some? ==>
                    r == Success(Some(Prepared(
                      Transform(scaler.scaler, ToMatrix(trainCells).value),
                      Transform(scaler.scaler, ToMatrix(testCells).value),
                      Select(Column(f, c), parts.train),
                      Select(Column(f, c), parts.test))))))
    {
      if data.None? {
        return Success(None);
      }
      var f := data.value;
      var col := IndexOf(f.columns, target);
      if col.None? {
        return Success(None);
      }
      var c := col.value;

      var x := DropColumn(f, c);
      var y := Column(f, c);
      cropLabels := Unique(y);

      var parts := lib.split(|f.rows|, SplitSettings);
      var xTrain := ToMatrix(Select(x.rows, parts.train));
      if xTrain.None? {
        // `fit` resets the scaler before it rejects the text cells.
        scaler := Unfitted;
        return Failure(NonNumericFeature);
      }
      scaler := Fitted(lib.fitStandard(xTrain.value), |x.columns|);
      var xTest := ToMatrix(Select(x.rows, parts.test));
      if xTest.None? {
        return Failure(NonNumericFeature);
      }
      return Success(Some(Prepared(
        Transform(scaler.scaler, xTrain.value), Transform(scaler.scaler, xTest.value),
        Select(y, parts.train), Select(y, parts.test))));
    }

    /**
     * Sets `model` to a new forest with the fixed parameters and fits it; the
     * estimator is stored before fitting, so without input it stays unfitted.
     */
    method TrainModel(xTrain: Option<Matrix>, yTrain: Option<seq<Cell>>, lib: Toolkit<Cell>)
      returns (err: Option<CropError>)
      modifies this
      ensures err.None? <==> xTrain.Some? && yTrain.Some?
      ensures err.Some? ==> err.value == NoInput
      ensures model.Some? && model.value.params == ForestSettings
      ensures err.None? ==> model.value.fitted == Some(lib.fitForest(ForestSettings, xTrain.value, yTrain.value))
      ensures err.Some? ==> model.value.fitted.None?
      ensures scaler == old(scaler) && cropLabels == old(cropLabels)
    {
      model := Some(Estimator(ForestSettings, None));
      if xTrain.None? || yTrain.None? {
        return Some(NoInput);
      }
      model := Some(Estimator(ForestSettings, Some(lib.fitForest(ForestSettings, xTrain.value, yTrain.value))));
      return None;
    }

    /** `model.score(X_test, y_test)`; 0 when there is no model. */
    function EvaluateModel(xTest: Option<Matrix>, yTest: Option<seq<Cell>>, lib: Toolkit<Cell>): (r: Result<real, CropError>)
      reads this
      ensures model.None? ==> r == Success(0.0)
      ensures r.Success? && model.Some? ==>
        && model.value.fitted.Some? && xTest.Some? && yTest.Some?
        && r.value == lib.accuracy(yTest.value, PredictAll(model.value.fitted.value, xTest.value))
      ensures model.Some? && model.value.fitted.None? ==> r == Failure(NotFitted)
      ensures model.Some? && model.value.fitted.Some? ==> (r.Success? <==> xTest.Some? && yTest.Some?)
    {
      match model
      case None => Success(0.0)
      case Some(m) =>
        match m.fitted
        case None => Failure(NotFitted)
        case Some(clf) =>
          if xTest.None? || yTest.None? then Failure(NoInput)
          else Success(lib.accuracy(yTest.value, PredictAll(clf, xTest.value)))
    }

    /**
     * The crop for one set of readings: `None` without a model or when a
     * key is missing; otherwise the forest's label for the scaled features.
     */
    function PredictCrop(d: ClimateData): (r: Result<Option<Cell>, CropError>)
      reads this
      ensures model.None? ==> r == Success(None)
      ensures ExtractFeatures(d).None? ==> r == Success(None)
      ensures r == Success(None) ==> model.None? || ExtractFeatures(d).None?
      ensures r.Success? && r.value.Some? ==>
        && model.Some? && model.value.fitted.Some? && ExtractFeatures(d).Some?
        && ScaleRow(scaler, ExtractFeatures(d).value).Success?
        && r.value.value == model.value.fitted.value.predict(ScaleRow(scaler, ExtractFeatures(d).value).value)
      ensures model.Some? && ExtractFeatures(d).Some? ==>
        (r.Success? <==> ScaleRow(scaler, ExtractFeatures(d).value).Success? && model.value.fitted.Some?)
    {
      if model.None? then Success(None)
      else
        match ExtractFeatures(d)
        case None => Success(None)
        case Some(v) =>
          match ScaleRow(scaler, v)
          case Failure(e) => Failure(e)
          case Success(scaled) =>
            match model.value.fitted
            case None => Failure(NotFitted)
            case Some(clf) => Success(Some(clf.predict(scaled)))
    }

    /** Writes the three fields to `path`; does nothing when there is no model. */
    method SaveModel(dir: ModelFiles, path: string := DefaultModelPath)
      modifies dir
      ensures dir.files == AfterSave(old(dir.files), path, State())
    {
      if model.None? {
        return;
      }
      dir.files := dir.files[path := Bundle(model.value, scaler, cropLabels)];
    }

    /** Replaces all three fields from `path`; a missing file leaves them as they were. */
    method LoadModel(dir: ModelFiles, path: string := DefaultModelPath)
      modifies this
      ensures State() == AfterLoad(old(State()), dir.files, path)
    {
      if path !in dir.files {
        return;
      }
      var b := dir.files[path];
      model := Some(b.model);
      scaler := b.scaler;
      cropLabels := b.cropLabels;
    }
  }

  /** A dictionary and the vector it yields lead to the same prediction. */
  lemma {:induction false} NamedAgreesWithPositional(p: CropPredictor, m: map<string, real>)
    requires ExtractFeatures(Named(m)).Some?
    ensures p.PredictCrop(Named(m)) == p.PredictCrop(Positional(ExtractFeatures(Named(m)).value))
  {
  }
}
