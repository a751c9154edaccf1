/**
 * Agreements across files: the shared constants of config.py against the
 * values the scripts hard-code, and the training script's output against
 * what the prediction service loads.
 */
module Consistency {
  import opened Wrappers
  import opened Sklearn
  import opened LabelMaps
  import opened Artifacts
  import Config
  import Frames
  import Training
  import Predict
  import CropPrediction

  /** `CROPS` in config.py is `crop_dict` in the training script: same names, same ids, same order. */
  lemma CropsMatchCropDict()
    ensures Config.Crops == Training.CropDict
  {
  }

  /** The three feature orders agree, and the service's feature vector follows it. */
  lemma FeatureOrderAgrees(c: Predict.Conditions)
    ensures Config.Features == CropPrediction.FeatureKeys == Predict.RowKeys
    ensures |Predict.FeatureVector(c)| == |Config.Features|
    ensures forall i :: 0 <= i < |Config.Features| ==>
      Predict.Reading(c, Config.Features[i]) == Some(Predict.FeatureVector(c)[i])
  {
  }

  /**
   * The feature list a run saves is the data's column order without `label`;
   * it is the fixed order the service and `CropPredictor` read readings in
   * exactly when the data's other columns come in that order. A complete
   * save leaves that list as the one `get_feature_names` returns.
   */
  lemma FittedFeatureOrder(data: Frames.Frame, lib: Toolkit<int>, run: Training.TrainingRun, s: ArtifactStore)
    requires data.WellShaped() && lib.SplitsInRange()
    requires Training.FeaturesAsScript(data, lib, run)
    ensures Frames.IndexOf(data.columns, Training.LabelColumn).Some?
    ensures var c := Frames.IndexOf(data.columns, Training.LabelColumn).value;
      run.trained.features == Predict.RowKeys <==> Frames.RemoveAt(data.columns, c) == Predict.RowKeys
    ensures Training.WriteAll(s, run.trained, Training.SavedPrefix(None)).features == Present(run.trained.features)
  {
    var c := Frames.IndexOf(data.columns, Training.LabelColumn).value;
    assert run.trained.features == Frames.DropColumn(data, c).columns;
    Training.CompleteSaveStoresAll(s, run.trained);
  }

  /** `TEST_SIZE` and `RANDOM_STATE` are the split arguments both training paths hard-code. */
  lemma SplitSettingsAgree()
    ensures Training.SplitSettings == SplitParams(Config.TestSize, Config.RandomState)
    ensures CropPrediction.SplitSettings == SplitParams(Config.TestSize, Config.RandomState)
  {
  }

  /** `MODEL_PARAMS` are the forest arguments of the training script (not those of CropPredictor). */
  lemma ForestSettingsAgree()
    ensures Training.ForestSettings == Config.ModelParams
    ensures CropPrediction.ForestSettings.maxDepth != Config.ModelParams.maxDepth
  {
  }

  /** A directory whose five files are all loadable. */
  lemma AllPresent(r: ArtifactStore)
    requires r.model.Present? && r.minmax.Present? && r.standard.Present?
    requires r.mapping.Present? && r.features.Present?
    ensures Predict.LoadError(r) == None
  {
    forall b ensures r.IsPresent(b) {
      match b
      case ModelFile =>
      case MinMaxFile =>
      case StandardFile =>
      case MappingFile =>
      case FeaturesFile =>
    }
  }

  /** A complete save by the training script leaves a directory the service loads without error. */
  lemma {:induction false} CompleteSaveLoads(s: ArtifactStore, t: Trained)
    ensures Predict.LoadError(Training.WriteAll(s, t, Training.SavedPrefix(None))) == None
  {
    Training.CompleteSaveStoresAll(s, t);
    AllPresent(Training.WriteAll(s, t, Training.SavedPrefix(None)));
  }

  /** The service's reverse map of the saved `crop_dict` names every id 1..22 and only those. */
  lemma {:induction false} SavedMappingReverses()
    ensures forall i :: 0 <= i < |Training.CropDict| ==>
      Reverse(Training.CropDict)[Training.CropDict[i].1] == Training.CropDict[i].0
    ensures forall id :: id in Reverse(Training.CropDict) <==> 1 <= id <= 22
  {
    Training.CropDictNumbering();
    ReverseRoundTrip(Training.CropDict);
    NumberedIds(Training.CropDict);
  }

  /**
   * A save interrupted at `a` over an empty directory leaves one the service
   * refuses, and it names `a` as the missing file.
   */
  lemma {:induction false} InterruptedSaveIsRefused(t: Trained, a: ArtifactName)
    ensures Predict.LoadError(Training.WriteAll(ArtifactStore(Absent, Absent, Absent, Absent, Absent), t, Training.SavedPrefix(Some(a))))
      == Some(Predict.LoadingFailed(Predict.NotFound(a)))
  {
    var s := ArtifactStore(Absent, Absent, Absent, Absent, Absent);
    var r := Training.WriteAll(s, t, Training.SavedPrefix(Some(a)));
    Training.InterruptedSaveKeepsLaterFiles(s, t, a);
    FirstUnusableAt(r, Position(a));
  }

  /**
   * A save interrupted after the model file, over a directory that already
   * held a complete set, still loads: the new model is served with the
   * older scalers, mapping or feature list.
   */
  lemma {:induction false} InterruptedSaveOverCompleteSetLoads(s: ArtifactStore, t: Trained, a: ArtifactName)
    requires Predict.LoadError(s) == None
    requires a != ModelFile
    ensures var r := Training.WriteAll(s, t, Training.SavedPrefix(Some(a)));
      && Predict.LoadError(r) == None
      && r.model == Present(t.model)
      && r.features == s.features
  {
    var r := Training.WriteAll(s, t, Training.SavedPrefix(Some(a)));
    Training.InterruptedSaveKeepsLaterFiles(s, t, a);
    assert s.IsPresent(ModelFile) && s.IsPresent(MinMaxFile) && s.IsPresent(StandardFile);
    assert s.IsPresent(MappingFile) && s.IsPresent(FeaturesFile);
    AllPresent(r);
  }
}
