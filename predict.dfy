/**
 * The inference engine of scripts/predict.py: a predictor object that loads
 * the five training artifacts, then answers single and batch predictions by
 * scaling a 7-feature vector with the min-max scaler, then the standard
 * scaler, then asking the forest for a label and its class probabilities.
 */
module Predict {
  import opened Wrappers
  import opened Sklearn
  import opened LabelMaps
  import opened Artifacts

  /** The seven readings `predict` takes, in its parameter order. */
  datatype Conditions = Conditions(
    n: real, p: real, k: real, temperature: real, humidity: real, ph: real, rainfall: real)

  /** The dict `predict` returns. */
  datatype PredictionResult = PredictionResult(crop: string, cropId: int, confidence: real, input: Conditions)

  datatype LoadFailure = NotFound(artifact: ArtifactName) | Unreadable(artifact: ArtifactName)

  datatype PredictFailure = NoProbabilities | UnknownLabel(id: int)

  datatype Error =
    | LoadingFailed(cause: LoadFailure)          // RuntimeError("Error loading models: ...")
    | PredictionFailed(reason: PredictFailure)    // RuntimeError("Error during prediction: ...")
    | MissingKey(key: string)                    // KeyError from a batch row

  /** The keys a batch row is read with, in the order they are read. */
  const RowKeys: seq<string> := ["N", "P", "K", "temperature", "humidity", "ph", "rainfall"]

  /** The reading a feature name stands for. */
  function Reading(c: Conditions, name: string): Option<real> {
    match name
    case "N" => Some(c.n)
    case "P" => Some(c.p)
    case "K" => Some(c.k)
    case "temperature" => Some(c.temperature)
    case "humidity" => Some(c.humidity)
    case "ph" => Some(c.ph)
    case "rainfall" => Some(c.rainfall)
    case _ => None
  }

  /** `np.array([[N, P, K, temperature, humidity, ph, rainfall]])`, one row. */
  function FeatureVector(c: Conditions): (v: Vector)
    ensures |v| == |RowKeys|
    ensures forall i :: 0 <= i < |v| ==> Reading(c, RowKeys[i]) == Some(v[i])
  {
    [c.n, c.p, c.k, c.temperature, c.humidity, c.ph, c.rainfall]
  }

  /** `np.max`: the largest of the class probabilities. */
  function MaxOf(s: seq<real>): (m: real)
    requires |s| > 0
    ensures m in s
    ensures forall i :: 0 <= i < |s| ==> s[i] <= m
  {
    if |s| == 1 then s[0]
    else
      var rest := MaxOf(s[1..]);
      if s[0] >= rest then s[0] else rest
  }

  /** The integer nearest to `x`, halves going to the even neighbour. */
  function RoundHalfEven(x: real): (r: int)
    ensures -0.5 <= r as real - x <= 0.5
  {
    var f := x.Floor;
    var frac := x - f as real;
    if frac < 0.5 then f
    else if frac > 0.5 then f + 1
    else if f % 2 == 0 then f else f + 1
  }

  /** `round(x, 2)`: `x` to the nearest hundredth. */
  function Round2(x: real): (r: real)
    ensures -0.005 <= r - x <= 0.005
  {
    RoundHalfEven(x * 100.0) as real / 100.0
  }

  /** Rounding a percentage keeps it a percentage. */
  lemma Round2KeepsPercentage(x: real)
    requires 0.0 <= x <= 100.0
    ensures 0.0 <= Round2(x) <= 100.0
  {
    var n := RoundHalfEven(x * 100.0);
    assert -0.5 <= n as real && n as real <= 10000.5;
    assert 0 <= n <= 10000;
  }

  /** Every class probability lies in [0, 1]. */
  predicate Probabilities(s: seq<real>) {
    forall i :: 0 <= i < |s| ==> 0.0 <= s[i] <= 1.0
  }

  /** The largest of some probabilities is itself a probability. */
  lemma MaxOfProbabilities(s: seq<real>)
    requires |s| > 0 && Probabilities(s)
    ensures 0.0 <= MaxOf(s) <= 1.0
  {
    var i :| 0 <= i < |s| && s[i] == MaxOf(s);
  }

  /**
   * `round(np.max(proba) * 100, 2)`: the top class probability as a
   * percentage to two places; for probabilities it lies in [0, 100].
   */
  function Confidence(proba: seq<real>): (conf: real)
    requires |proba| > 0
    ensures -0.005 <= conf - 100.0 * MaxOf(proba) <= 0.005
    ensures Probabilities(proba) ==> 0.0 <= conf <= 100.0
  {
    var top := MaxOf(proba);
    if Probabilities(proba) then
      MaxOfProbabilities(proba);
      Round2KeepsPercentage(top * 100.0);
      Round2(top * 100.0)
    else Round2(top * 100.0)
  }

  /** The first of `keys` missing from `row`, if any. */
  function FirstMissingKey(row: map<string, real>, keys: seq<string>): (r: Option<nat>)
    ensures r.None? <==> forall i :: 0 <= i < |keys| ==> keys[i] in row
    ensures r.Some? ==> r.value < |keys| && keys[r.value] !in row
    ensures r.Some? ==> forall i :: 0 <= i < r.value ==> keys[i] in row
  {
    if |keys| == 0 then None
    else if keys[0] !in row then Some(0)
    else match FirstMissingKey(row, keys[1..])
      case None => None
      case Some(i) => Some(i + 1)
  }

  /**
   * The seven arguments `predict_batch` reads from a row, `row['N']` first;
   * the first key that is missing raises KeyError.
   */
  function RowConditions(row: map<string, real>): (r: Result<Conditions, string>)
    ensures r.Success? <==> forall i :: 0 <= i < |RowKeys| ==> RowKeys[i] in row
    ensures r.Success? ==> forall i :: 0 <= i < |RowKeys| ==> FeatureVector(r.value)[i] == row[RowKeys[i]]
    ensures r.Failure? ==> r.error !in row
    ensures r.Failure? ==> exists i :: 0 <= i < |RowKeys| && r.error == RowKeys[i] &&
                                       (forall j :: 0 <= j < i ==> RowKeys[j] in row)
  {
    match FirstMissingKey(row, RowKeys)
    case Some(i) => Failure(RowKeys[i])
    case None =>
      assert RowKeys[0] in row && RowKeys[1] in row && RowKeys[2] in row && RowKeys[3] in row;
      assert RowKeys[4] in row && RowKeys[5] in row && RowKeys[6] in row;
      Success(Conditions(row["N"], row["P"], row["K"], row["temperature"], row["humidity"], row["ph"], row["rainfall"]))
  }

  /** Whether `_load_models` stops, and on which file, for a given directory. */
  function LoadError(s: ArtifactStore): (r: Option<Error>)
    ensures r.None? <==> forall a :: s.IsPresent(a)
    ensures r.Some? ==> r.value.LoadingFailed? && !s.IsPresent(r.value.cause.artifact)
    ensures r.Some? ==> (r.value.cause.NotFound? <==> s.IsAbsent(r.value.cause.artifact))
    ensures r.Some? ==> forall i :: 0 <= i < |ArtifactOrder| && ArtifactOrder[i] == r.value.cause.artifact ==>
      forall j :: 0 <= j < i ==> s.IsPresent(ArtifactOrder[j])
  {
    match FirstUnusable(s, ArtifactOrder)
    case None =>
      assert forall a :: s.IsPresent(a) by {
        forall a ensures s.IsPresent(a) {
          assert ArtifactOrder[Position(a)] == a;
        }
      }
      None
    case Some(i) =>
      var a := ArtifactOrder[i];
      Some(LoadingFailed(if s.IsAbsent(a) then NotFound(a) else Unreadable(a)))
  }

  /** How many artifacts, in load order, load before the first that does not. */
  function LoadedCount(s: ArtifactStore): (n: nat)
    ensures n <= |ArtifactOrder|
    ensures forall i :: 0 <= i < n ==> s.IsPresent(ArtifactOrder[i])
    ensures n < |ArtifactOrder| ==> !s.IsPresent(ArtifactOrder[n])
    ensures n > 0 ==> s.model.Present?
    ensures n > 1 ==> s.minmax.Present?
    ensures n > 2 ==> s.standard.Present?
    ensures n > 3 ==> s.mapping.Present?
    ensures n > 4 ==> s.features.Present?
  {
    var first := FirstUnusable(s, ArtifactOrder);
    var n := if first.None? then |ArtifactOrder| else first.value;
    assert n > 1 ==> s.IsPresent(ArtifactOrder[1]);
    assert n > 2 ==> s.IsPresent(ArtifactOrder[2]);
    assert n > 3 ==> s.IsPresent(ArtifactOrder[3]);
    assert n > 4 ==> s.IsPresent(ArtifactOrder[4]);
    n
  }

  /** `if not os.path.exists(path): raise FileNotFoundError`, then `pickle.load`. */
  function Fetch<T>(f: Stored<T>, a: ArtifactName): (r: Result<T, Error>)
    ensures r.Success? <==> f.Present?
    ensures r.Success? ==> f == Present(r.value)
    ensures r.Failure? ==> r.error == LoadingFailed(if f.Absent? then NotFound(a) else Unreadable(a))
  {
    match f
    case Absent => Failure(LoadingFailed(NotFound(a)))
    case Corrupt => Failure(LoadingFailed(Unreadable(a)))
    case Present(v) => Success(v)
  }

  /** The feature row after the min-max scaler and then the standard scaler. */
  function Scaled(minmax: Scaler, standard: Scaler, c: Conditions): Vector {
    standard.transform(minmax.transform(FeatureVector(c)))
  }

  /**
   * `predict` on loaded artifacts: the forest's label for the scaled row,
   * the name the reverse map gives that label, the largest class
   * probability as a rounded percentage, and the readings echoed back. An
   * empty probability array or a label the mapping does not hold fails.
   */
  function PredictWith(model: Classifier<int>, minmax: Scaler, standard: Scaler, mapping: LabelMap,
                       reverse: map<int, string>, c: Conditions): (r: Result<PredictionResult, Error>)
    requires reverse == Reverse(mapping)
    ensures var x := Scaled(minmax, standard, c);
      r.Success? <==> |model.proba(x)| > 0 && model.predict(x) in Ids(mapping)
    ensures r.Success? ==> r.value.cropId == model.predict(Scaled(minmax, standard, c)) && r.value.input == c
    ensures r.Success? ==> Get(mapping, r.value.crop) == Some(r.value.cropId)
    ensures r.Success? ==> r.value.confidence == Confidence(model.proba(Scaled(minmax, standard, c)))
    ensures var x := Scaled(minmax, standard, c);
      r.Failure? ==> r.error == PredictionFailed(if |model.proba(x)| == 0 then NoProbabilities else UnknownLabel(model.predict(x)))
  {
    var x := Scaled(minmax, standard, c);
    var id := model.predict(x);
    var proba := model.proba(x);
    if |proba| == 0 then Failure(PredictionFailed(NoProbabilities))
    else
      var confidence := Confidence(proba);
      if id !in reverse then Failure(PredictionFailed(UnknownLabel(id)))
      else
        EntryIsLookup(mapping, reverse[id], id);
        Success(PredictionResult(reverse[id], id, confidence, c))
  }

  /** One batch row: the first missing key raises KeyError, otherwise the row is predicted. */
  function RowWith(model: Classifier<int>, minmax: Scaler, standard: Scaler, mapping: LabelMap,
                   reverse: map<int, string>, row: map<string, real>): (r: Result<PredictionResult, Error>)
    requires reverse == Reverse(mapping)
    ensures (r.Failure? && r.error.MissingKey?) <==> exists i :: 0 <= i < |RowKeys| && RowKeys[i] !in row
    ensures r.Failure? && r.error.MissingKey? ==>
      r.error.key !in row &&
      exists i :: 0 <= i < |RowKeys| && r.error.key == RowKeys[i] && (forall j :: 0 <= j < i ==> RowKeys[j] in row)
    ensures r.Success? ==> forall i :: 0 <= i < |RowKeys| ==> FeatureVector(r.value.input)[i] == row[RowKeys[i]]
    ensures r.Success? ==> Get(mapping, r.value.crop) == Some(r.value.cropId)
  {
    match RowConditions(row)
    case Failure(key) => Failure(MissingKey(key))
    case Success(c) => PredictWith(model, minmax, standard, mapping, reverse, c)
  }

  /**
   * The loop of `predict_batch`: each row in turn, stopping at the first
   * failure and passing its error on.
   */
  method EachRow(outcome: map<string, real> -> Result<PredictionResult, Error>, data: seq<map<string, real>>)
    returns (r: Result<seq<PredictionResult>, Error>)
    ensures r.Success? ==> |r.value| == |data|
    ensures r.Success? ==> forall i :: 0 <= i < |data| ==> outcome(data[i]) == Success(r.value[i])
    ensures r.Failure? ==> exists j :: 0 <= j < |data| && outcome(data[j]) == Failure(r.error) &&
                                       (forall i :: 0 <= i < j ==> outcome(data[i]).Success?)
  {
    var results: seq<PredictionResult> := [];
    for i := 0 to |data|
      invariant |results| == i
      invariant forall k :: 0 <= k < i ==> outcome(data[k]) == Success(results[k])
    {
      var result := outcome(data[i]);
      if result.Failure? {
        return Failure(result.error);
      }
      results := results + [result.value];
    }
    return Success(results);
  }

  class CropRecommendationPredictor {
    var model: Option<Classifier<int>>
    var minmaxScaler: Option<Scaler>
    var standardScaler: Option<Scaler>
    var cropMapping: Option<LabelMap>
    var reverseCropMapping: Option<map<int, string>>
    var featureNames: Option<seq<string>>
    /** The directory contents the fields were loaded from. */
    ghost var artifacts: ArtifactStore

    /** Every field is loaded, from `artifacts`, and the reverse map inverts the mapping. */
    ghost predicate Valid()
      reads this
    {
      && model.Some? && artifacts.model == Present(model.value)
      && minmaxScaler.Some? && artifacts.minmax == Present(minmaxScaler.value)
      && standardScaler.Some? && artifacts.standard == Present(standardScaler.value)
      && cropMapping.Some? && artifacts.mapping == Present(cropMapping.value)
      && reverseCropMapping == Some(Reverse(cropMapping.value))
      && featureNames.Some? && artifacts.features == Present(featureNames.value)
    }

    /** The field initialisations of `__init__`, before loading. */
    constructor ()
      ensures model == None && minmaxScaler == None && standardScaler == None
      ensures cropMapping == None && reverseCropMapping == None && featureNames == None
    {
      model := None;
      minmaxScaler := None;
      standardScaler := None;
      cropMapping := None;
      reverseCropMapping := None;
      featureNames := None;
    }

    /** `CropRecommendationPredictor()`: construct, then load every artifact or fail. */
    static method Create(store: ArtifactStore) returns (r: Result<CropRecommendationPredictor, Error>)
      ensures r.Failure? <==> LoadError(store).Some?
      ensures r.Failure? ==> LoadError(store) == Some(r.error)
      ensures r.Success? ==> fresh(r.value) && r.value.Valid() && r.value.artifacts == store
    {
      var p := new CropRecommendationPredictor();
      var err := p.LoadModels(store);
      if err.Some? {
        return Failure(err.value);
      }
      return Success(p);
    }

    /**
     * `_load_models`: the five files in order, each field set as soon as its
     * file is loaded; the first missing or unreadable file stops the load.
     */
    method LoadModels(store: ArtifactStore) returns (err: Option<Error>)
      modifies this
      ensures err == LoadError(store)
      ensures err.None? ==> Valid() && artifacts == store
      ensures model == if LoadedCount(store) > 0 then Some(store.model.value) else old(model)
      ensures minmaxScaler == if LoadedCount(store) > 1 then Some(store.minmax.value) else old(minmaxScaler)
      ensures standardScaler == if LoadedCount(store) > 2 then Some(store.standard.value) else old(standardScaler)
      ensures cropMapping == if LoadedCount(store) > 3 then Some(store.mapping.value) else old(cropMapping)
      ensures reverseCropMapping ==
        if LoadedCount(store) > 3 then Some(Reverse(store.mapping.value)) else old(reverseCropMapping)
      ensures featureNames == if LoadedCount(store) > 4 then Some(store.features.value) else old(featureNames)
    {
      var m := Fetch(store.model, ModelFile);
      if m.Failure? {
        FirstUnusableAt(store, 0);
        return Some(m.error);
      }
      model := Some(m.value);

      var mm := Fetch(store.minmax, MinMaxFile);
      if mm.Failure? {
        FirstUnusableAt(store, 1);
        return Some(mm.error);
      }
      minmaxScaler := Some(mm.value);

      var st := Fetch(store.standard, StandardFile);
      if st.Failure? {
        FirstUnusableAt(store, 2);
        return Some(st.error);
      }
      standardScaler := Some(st.value);

      var cm := Fetch(store.mapping, MappingFile);
      if cm.Failure? {
        FirstUnusableAt(store, 3);
        return Some(cm.error);
      }
      cropMapping := Some(cm.value);
      reverseCropMapping := Some(Reverse(cm.value));

      var fn := Fetch(store.features, FeaturesFile);
      if fn.Failure? {
        FirstUnusableAt(store, 4);
        return Some(fn.error);
      }
      featureNames := Some(fn.value);

      artifacts := store;
      return None;
    }

    /**
     * `predict`, on the artifacts this predictor loaded: the forest's label
     * for the readings scaled by the loaded min-max and then the loaded
     * standard scaler, named by the loaded mapping, with the readings echoed.
     */
    function Predict(c: Conditions): (r: Result<PredictionResult, Error>)
      reads this
      requires Valid()
      ensures var x := Scaled(minmaxScaler.value, standardScaler.value, c);
        r.Success? <==> |model.value.proba(x)| > 0 && model.value.predict(x) in Ids(cropMapping.value)
      ensures r.Success? ==>
        r.value.cropId == model.value.predict(Scaled(minmaxScaler.value, standardScaler.value, c)) && r.value.input == c
      ensures r.Success? ==> Get(artifacts.mapping.value, r.value.crop) == Some(r.value.cropId)
      ensures r.Success? ==>
        r.value.confidence == Confidence(model.value.proba(Scaled(minmaxScaler.value, standardScaler.value, c)))
    {
      PredictWith(model.value, minmaxScaler.value, standardScaler.value, cropMapping.value, reverseCropMapping.value, c)
    }

    /**
     * `predict_batch`: every row predicted in order; the first row that is
     * missing a key or whose prediction fails aborts the whole batch.
     */
    method PredictBatch(data: seq<map<string, real>>) returns (r: Result<seq<PredictionResult>, Error>)
      requires Valid()
      ensures r.Success? ==> |r.value| == |data|
      ensures r.Success? ==> forall i :: 0 <= i < |data| ==>
        RowWith(model.value, minmaxScaler.value, standardScaler.value, cropMapping.value, reverseCropMapping.value,
                data[i]) == Success(r.value[i])
      ensures r.Failure? ==>
        exists j :: (0 <= j < |data| &&
          RowWith(model.value, minmaxScaler.value, standardScaler.value, cropMapping.value, reverseCropMapping.value,
                  data[j]) == Failure(r.error) &&
          forall i :: 0 <= i < j ==>
            RowWith(model.value, minmaxScaler.value, standardScaler.value, cropMapping.value, reverseCropMapping.value,
                    data[i]).Success?)
    {
      var m, minmax, standard := model.value, minmaxScaler.value, standardScaler.value;
      var mapping, reverse := cropMapping.value, reverseCropMapping.value;
      r := EachRow(row => RowWith(m, minmax, standard, mapping, reverse, row), data);
    }

    /** `get_crop_info`: the mapping exactly as it was loaded. */
    function GetCropInfo(): (m: LabelMap)
      reads this
      requires Valid()
      ensures artifacts.mapping == Present(m)
    {
      cropMapping.value
    }

    /** `get_feature_names`: the feature list exactly as it was loaded. */
    function GetFeatureNames(): (names: seq<string>)
      reads this
      requires Valid()
      ensures artifacts.features == Present(names)
    {
      featureNames.value
    }
  }
}
