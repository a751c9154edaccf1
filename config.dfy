/**
 * The project-wide constants of config.py: the supported crops and their ids,
 * the feature order, the physical range of each feature, and the split and
 * forest settings. Paths, API and logging settings are not modelled.
 */
module Config {
  import opened LabelMaps
  import opened Sklearn

  /** `CROPS`: the 22 supported crops with their ids, in declaration order. */
  const Crops: LabelMap := (var t := [
    ("rice", 1), ("maize", 2), ("jute", 3), ("cotton", 4), ("coconut", 5),
    ("papaya", 6), ("orange", 7), ("apple", 8), ("muskmelon", 9), ("watermelon", 10),
    ("grapes", 11), ("mango", 12), ("banana", 13), ("pomegranate", 14), ("lentil", 15),
    ("blackgram", 16), ("mungbean", 17), ("mothbeans", 18), ("pigeonpeas", 19),
    ("kidneybeans", 20), ("chickpea", 21), ("coffee", 22)];
    DistinctByKey(t); t)

  /** `FEATURES`: the feature names in the order the model consumes them. */
  const Features: seq<string> := ["N", "P", "K", "temperature", "humidity", "ph", "rainfall"]

  /** A closed interval (low, high) of plausible values for one feature. */
  datatype Range = Range(low: real, high: real)

  /** `FEATURE_RANGES`: declared for validation; no code path enforces them. */
  const FeatureRanges: map<string, Range> := map[
    "N" := Range(0.0, 300.0),
    "P" := Range(0.0, 300.0),
    "K" := Range(0.0, 300.0),
    "temperature" := Range(10.0, 35.0),
    "humidity" := Range(20.0, 100.0),
    "ph" := Range(5.0, 8.0),
    "rainfall" := Range(50.0, 500.0)]

  /** `TEST_SIZE` and `RANDOM_STATE`. */
  const TestSize: real := 0.2
  const RandomState: int := 42

  /** `MODEL_PARAMS`. */
  const ModelParams: ForestParams := ForestParams(100, 20, 42, -1)

  /** The crop table gives the ids 1..22 in order, each name once. */
  lemma CropsAreNumberedInOrder()
    ensures |Crops| == 22
    ensures forall i :: 0 <= i < |Crops| ==> Crops[i].1 == i + 1
    ensures IdsDistinct(Crops) && IdsAscending(Crops)
  {
  }

  /** Every feature has a range, nothing else has one, and every range is non-empty. */
  lemma FeatureRangesMatchFeatures()
    ensures FeatureRanges.Keys == set f | f in Features
    ensures forall f :: f in FeatureRanges ==> FeatureRanges[f].low < FeatureRanges[f].high
  {
  }
}
