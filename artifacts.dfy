/**
 * The models directory shared by the training script (which pickles five
 * artifacts into it) and the inference engine (which loads them back).
 * Each file is absent, present but unreadable, or holds its value; pickling
 * and the filesystem themselves are not modelled.
 */
module Artifacts {
  import opened Wrappers
  import opened Sklearn
  import opened LabelMaps

  datatype ArtifactName = ModelFile | MinMaxFile | StandardFile | MappingFile | FeaturesFile

  /** The order in which the five files are written and read back. */
  const ArtifactOrder: seq<ArtifactName> := [ModelFile, MinMaxFile, StandardFile, MappingFile, FeaturesFile]

  /** The file under the models directory that holds each artifact. */
  function FileName(a: ArtifactName): string {
    match a
    case ModelFile => "crop_recommendation_model.pkl"
    case MinMaxFile => "minmax_scaler.pkl"
    case StandardFile => "standard_scaler.pkl"
    case MappingFile => "crop_mapping.pkl"
    case FeaturesFile => "feature_names.pkl"
  }

  /**
   * Each artifact has a file of its own, so writing one never touches
   * another: the directory can be a record with one slot per artifact.
   */
  lemma FileNamesDistinct(a: ArtifactName, b: ArtifactName)
    ensures FileName(a) == FileName(b) ==> a == b
  {
  }

  datatype Stored<T> = Absent | Corrupt | Present(value: T)

  datatype ArtifactStore = ArtifactStore(
    model: Stored<Classifier<int>>,
    minmax: Stored<Scaler>,
    standard: Stored<Scaler>,
    mapping: Stored<LabelMap>,
    features: Stored<seq<string>>)
  {
    predicate IsPresent(a: ArtifactName) {
      match a
      case ModelFile => model.Present?
      case MinMaxFile => minmax.Present?
      case StandardFile => standard.Present?
      case MappingFile => mapping.Present?
      case FeaturesFile => features.Present?
    }

    predicate IsAbsent(a: ArtifactName) {
      match a
      case ModelFile => model.Absent?
      case MinMaxFile => minmax.Absent?
      case StandardFile => standard.Absent?
      case MappingFile => mapping.Absent?
      case FeaturesFile => features.Absent?
    }
  }

  /** The five values the training script pickles, one per artifact. */
  datatype Trained = Trained(
    model: Classifier<int>, minmax: Scaler, standard: Scaler, mapping: LabelMap, features: seq<string>)

  /** The file of `a` in `s` holds the value `t` has for it. */
  ghost predicate Holds(s: ArtifactStore, a: ArtifactName, t: Trained) {
    match a
    case ModelFile => s.model == Present(t.model)
    case MinMaxFile => s.minmax == Present(t.minmax)
    case StandardFile => s.standard == Present(t.standard)
    case MappingFile => s.mapping == Present(t.mapping)
    case FeaturesFile => s.features == Present(t.features)
  }

  /** The file of `a` is the same in both stores. */
  ghost predicate SameFile(s: ArtifactStore, s': ArtifactStore, a: ArtifactName) {
    match a
    case ModelFile => s.model == s'.model
    case MinMaxFile => s.minmax == s'.minmax
    case StandardFile => s.standard == s'.standard
    case MappingFile => s.mapping == s'.mapping
    case FeaturesFile => s.features == s'.features
  }

  /** A file left as it was still holds what it held. */
  lemma SameFileKeepsHolds(s: ArtifactStore, s': ArtifactStore, a: ArtifactName, t: Trained)
    requires SameFile(s', s, a) && Holds(s, a, t)
    ensures Holds(s', a, t)
  {
  }

  lemma SameFileTransitive(s: ArtifactStore, s': ArtifactStore, s'': ArtifactStore, a: ArtifactName)
    requires SameFile(s'', s', a) && SameFile(s', s, a)
    ensures SameFile(s'', s, a)
  {
  }

  /** The store after artifact `a` of `t` has been written. */
  function Write(s: ArtifactStore, a: ArtifactName, t: Trained): (r: ArtifactStore)
    ensures r.IsPresent(a) && Holds(r, a, t)
    ensures forall b :: b != a ==> SameFile(r, s, b)
  {
    match a
    case ModelFile => s.(model := Present(t.model))
    case MinMaxFile => s.(minmax := Present(t.minmax))
    case StandardFile => s.(standard := Present(t.standard))
    case MappingFile => s.(mapping := Present(t.mapping))
    case FeaturesFile => s.(features := Present(t.features))
  }

  /** The first of `names` whose file cannot be loaded. */
  function FirstUnusable(s: ArtifactStore, names: seq<ArtifactName>): (r: Option<nat>)
    ensures r.None? <==> forall i :: 0 <= i < |names| ==> s.IsPresent(names[i])
    ensures r.Some? ==> r.value < |names| && !s.IsPresent(names[r.value])
    ensures r.Some? ==> forall i :: 0 <= i < r.value ==> s.IsPresent(names[i])
  {
    if |names| == 0 then None
    else if !s.IsPresent(names[0]) then Some(0)
    else match FirstUnusable(s, names[1..])
      case None => None
      case Some(i) => Some(i + 1)
  }

  /** Where `a` stands in the load order. */
  function Position(a: ArtifactName): (i: nat)
    ensures i < |ArtifactOrder| && ArtifactOrder[i] == a
  {
    match a
    case ModelFile => 0
    case MinMaxFile => 1
    case StandardFile => 2
    case MappingFile => 3
    case FeaturesFile => 4
  }

  /** Loading stops at position `i` when everything before it loads and it does not. */
  lemma FirstUnusableAt(s: ArtifactStore, i: nat)
    requires i < |ArtifactOrder| && !s.IsPresent(ArtifactOrder[i])
    requires forall j :: 0 <= j < i ==> s.IsPresent(ArtifactOrder[j])
    ensures FirstUnusable(s, ArtifactOrder) == Some(i)
  {
  }

  /** The models directory on disk. */
  class ModelsDir {
    var store: ArtifactStore

    constructor (initial: ArtifactStore)
      ensures store == initial
    {
      store := initial;
    }

    /** Pickles artifact `a` of `t` into its file. */
    method Save(a: ArtifactName, t: Trained)
      modifies this
      ensures store == Write(old(store), a, t)
    {
      store := Write(store, a, t);
    }
  }
}
