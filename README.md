# Crop recommendation from climate data — a verified model

This project models the training-and-inference core of a crop recommender.
The recommender takes seven readings of soil and climate: N, P, K,
temperature, humidity, pH and rainfall. It returns one of 22 crops.

There are two generations of the pipeline.

- The **training script** (`scripts/train.py`) does the following, in order:
  - encodes crop names with the fixed table `crop_dict`;
  - uses every other column as a feature;
  - splits 80/20 with seed 42;
  - fits a min-max scaler on the training rows, then a standard scaler on their min-max output;
  - fits a random forest, scores it, and picks the report's labels and names;
  - pickles five artifacts in order.
- The **prediction service** (`scripts/predict.py`, `CropRecommendationPredictor`):
  - loads the five artifacts in order, and fails on the first one that is missing or unreadable;
  - builds the reverse name map;
  - answers single and batch predictions. Each prediction gives the crop, its id, a confidence percentage rounded to two places, and the readings echoed back.
- The **older `CropPredictor`** (`crop_prediction.py`) has one standard scaler, a forest over raw label strings, a list of distinct labels, and a bundle file. It has guard returns for an untrained model and for a dictionary with a missing key.
- The **shared constants** (`config.py`) are the crop table, the feature order, the feature ranges, and the split and forest settings.

The scikit-learn parts are opaque: a fitted scaler or classifier is a value holding the functions it computes. Fitting, splitting and scoring are functions supplied in a `Sklearn.Toolkit`. Every property below therefore holds for any scaler and forest the library might produce. A Python dict is a sequence of (name, id) pairs in insertion order. The model directory is a record of five files, and each file is absent, corrupt or present with a value.

Modules:
- `Wrappers`: Option and Result.
- `Frames`: the DataFrame operations used.
- `Sklearn`: the library stand-ins.
- `LabelMaps`: name/id tables, lookup, reverse map, report names.
- `Config`: config.py.
- `Artifacts`: the five files and the models directory.
- `Predict`: scripts/predict.py.
- `Training`: scripts/train.py.
- `CropPrediction`: crop_prediction.py.
- `Consistency`: agreements between files.

Behaviour worth noting:
- The report labels are the sorted union of the test and predicted ids, not only the test ids.
- A save failure in the training script is printed and swallowed.
- A load failure is re-raised as one wrapped error. A missing file's message names the file; an unreadable file's message carries only the unpickler's own text. Transient and fatal failures are not told apart.
- A batch aborts on its first bad row.
- No feature range is ever enforced.
- Neither the service nor `CropPredictor` checks the fitted column order against its fixed key order. The training script saves the CSV's column order without `label`, and the scalers and forest are fitted in that order. The service builds its vector in `FEATURES` order and never reads the saved list; `CropPredictor` fits in the frame's order and predicts in `FEATURE_KEYS` order. So a CSV with reordered feature columns trains, saves, and then serves predictions on mis-ordered features.

## Model

| member | source | states |
|---|---|---|
| Frames.IndexOf | crop_prediction.py:66 | the first position of a column name, and `None` exactly when the name is not a column |
| Frames.DropColumn | scripts/train.py:77 | `drop(label, axis=1)`: the column list and every row lose exactly the cell at the label's position, order kept |
| Frames.Column | scripts/train.py:78 | `crop['label']`: one cell per row, the cell at the column's position |
| Frames.Select | scripts/train.py:86-88 | the split's positional indexing: element k is the row at the k-th chosen position |
| Frames.ToMatrix | scripts/train.py:98 | a frame converts to a numeric matrix exactly when every cell is a number, cell for cell |
| Sklearn.Transform | scripts/train.py:99 | a fitted scaler transforms a matrix row by row, keeping row count and order |
| Sklearn.PredictAll | scripts/train.py:127 | `model.predict(X)` gives one label per row, in row order |
| LabelMaps.Get | scripts/train.py:72 | a name's id: defined exactly for the table's names, and it is the id that name was entered with |
| LabelMaps.Reverse | scripts/predict.py:59 | `{v: k for k, v in ...}`: its keys are exactly the table's ids, and each key maps to a name whose id is that key |
| LabelMaps.EntryIsLookup | scripts/predict.py:59 | a name entered with an id is looked up to that id, so the reverse map's names look back up to their keys |
| LabelMaps.ReverseRoundTrip | scripts/predict.py:59 | with ids used once, the reverse map gives back each entry's own name |
| LabelMaps.NumberedIds | config.py:42-65 | a table numbered 1, 2, ... in order holds exactly the ids 1..n |
| LabelMaps.NamesWithIds | scripts/train.py:134 | every name kept has an id among the labels, every table entry whose id is a label is kept, and no more names than entries |
| LabelMaps.NamesWithIdsDependsOnMembership | scripts/train.py:134 | the selected names depend only on which ids are labels |
| LabelMaps.NamesWithIdsInTableOrder | scripts/train.py:134 | the names are picked out in table order: any two of them appear in the table in the order they appear in the result |
| LabelMaps.NamesWithIdsAligned | scripts/train.py:133-135 | for an ascending table and sorted labels that are all ids, the i-th name has the i-th label as its id, so `target_names` lines up with `labels` |
| Config.CropsAreNumberedInOrder | config.py:42-65 | `CROPS` has 22 entries, entry i has id i+1, and ids are distinct and ascending |
| Config.FeatureRangesMatchFeatures | config.py:71-79 | `FEATURE_RANGES` is keyed by exactly the `FEATURES` names, and every lower bound is below its upper bound |
| Artifacts.FileNamesDistinct | scripts/predict.py:35-39 | the five artifacts live in five different files |
| Artifacts.Write | scripts/train.py:153-177 | writing an artifact makes it loadable with the written value, and leaves every other file as it was |
| Artifacts.FirstUnusable | scripts/predict.py:41-64 | the first file in load order that cannot be loaded, with every earlier one loadable; `None` exactly when all load |
| Artifacts.Position | scripts/predict.py:41-64 | each artifact's place in the load order |
| Artifacts.FirstUnusableAt | scripts/predict.py:41-64 | loading stops at the first unloadable file once all before it load |
| Artifacts.ModelsDir.Save | scripts/train.py:156 | one `pickle.dump`: the named file now holds the value, and the rest of the directory is unchanged |
| Predict.FeatureVector | scripts/predict.py:99 | the feature row has seven entries, and entry i is the reading named by the i-th feature key |
| Predict.MaxOf | scripts/predict.py:112 | `np.max`: an element of the probabilities, at least every one of them |
| Predict.RoundHalfEven | scripts/predict.py:120 | Python's `round` to an integer: within one half of the argument |
| Predict.Round2 | scripts/predict.py:120 | `round(x, 2)`: within 0.005 of the argument |
| Predict.MaxOfProbabilities | scripts/predict.py:112 | the top of a list of probabilities is itself in [0, 1] |
| Predict.Confidence | scripts/predict.py:112-120 | `round(np.max(p) * 100, 2)`: within 0.005 of 100 × the top probability, and in [0, 100] when the inputs are probabilities |
| Predict.Round2KeepsPercentage | scripts/predict.py:120 | rounding a value in [0, 100] stays in [0, 100] |
| Predict.FirstMissingKey | scripts/predict.py:150-158 | the first feature key absent from a row; `None` exactly when all are present |
| Predict.RowConditions | scripts/predict.py:150-158 | a row yields the seven readings in feature order exactly when every key is present; otherwise the error is the first missing key in read order |
| Predict.LoadError | scripts/predict.py:32-69 | loading fails exactly when some artifact is unusable; the error is about the first one in order, and says not-found exactly when that file is absent |
| Predict.LoadedCount | scripts/predict.py:32-69 | how many artifacts, in order, load before the first that does not |
| Predict.Fetch | scripts/predict.py:42-44 | one file: its value when present; not-found when absent; unreadable when corrupt |
| Predict.CropRecommendationPredictor.constructor | scripts/predict.py:21-28 | every field starts as `None` |
| Predict.CropRecommendationPredictor.Create | scripts/predict.py:21-30 | construction fails exactly when loading does, with the same error; on success every field is loaded from the directory |
| Predict.CropRecommendationPredictor.LoadModels | scripts/predict.py:32-69 | each field is set as soon as its file loads and is left as it was otherwise; the reverse map is set with the mapping; the result is the first failure, if any |
| Predict.PredictWith | scripts/predict.py:97-133 | `predict` on loaded artifacts: success exactly when there are probabilities and the label is in the mapping; `crop_id` is the forest's label for the min-max-then-standard scaled row; the crop name is entered in the mapping with that id; the confidence is the rounded top-probability percentage; the input is echoed; failures carry their cause |
| Predict.EachRow | scripts/predict.py:148-161 | the batch loop: on success one outcome per row, in order; on failure the first failing row's error, every earlier row having succeeded |
| Predict.RowWith | scripts/predict.py:150-158 | one batch row: it fails on a missing key exactly when some feature key is absent, and the key reported is the first absent one in read order; on success the readings are the row's values in feature order, and the crop name is entered in the mapping with the predicted id |
| Predict.CropRecommendationPredictor.Predict | scripts/predict.py:71-133 | `predict` on the loaded artifacts: success exactly when there are probabilities and the forest's label, for the min-max-then-standard scaled readings, is in the mapping; the id is that label, the input is echoed, and the crop name is entered in the saved mapping with that id |
| Predict.CropRecommendationPredictor.PredictBatch | scripts/predict.py:148-161 | on success one result per row, in order, each equal to `RowWith` on that row (its first missing key, or `predict` on its readings); on failure the error is that of the first failing row, and every earlier row succeeded |
| Predict.CropRecommendationPredictor.GetCropInfo | scripts/predict.py:171 | the mapping exactly as loaded |
| Predict.CropRecommendationPredictor.GetFeatureNames | scripts/predict.py:181 | the feature list exactly as loaded |
| Training.CropDictNumbering | scripts/train.py:46-69 | `crop_dict` has 22 entries with ids 1..22 in order, distinct and ascending |
| Training.EncodeLabel | scripts/train.py:72 | a cell encodes exactly when it is a crop name; the id is in 1..22 and decodes back to the name |
| Training.EncodeLabels | scripts/train.py:72 | the label column is encoded cell by cell |
| Training.KnownIds | scripts/train.py:119 | the encoded labels are usable exactly when none became NaN, and then they are the ids in order |
| Training.InsertSorted | scripts/train.py:133 | inserting into a strictly increasing list keeps it strictly increasing and adds exactly the new value |
| Training.SortedDistinct | scripts/train.py:133 | `sorted(set(xs))`: strictly increasing, with exactly the values of the input |
| Training.ReportLabels | scripts/train.py:133 | `sorted(set(y_test) \| set(y_pred))`: strictly increasing, and holds exactly the ids in either list |
| Training.LabelsAreCropIds | scripts/train.py:72 | the encoded labels of any chosen rows are crop ids, in 1..22 |
| Training.PredictionsAreCropIds | scripts/train.py:119-127 | a forest that predicts only labels it was trained on, trained on crop ids, predicts only crop ids |
| Training.ReportNamesAligned | scripts/train.py:133-135 | the report's names are as many as its labels, and the i-th name is the crop whose id is the i-th label |
| Training.SavedPrefix | scripts/train.py:153-182 | a complete save writes all five files in order; one failing at an artifact writes exactly those before it |
| Training.WriteAll | scripts/train.py:153-182 | after writing a list of artifacts, each of them holds the trained value and every other file is as it was |
| Training.WriteAllPrefixes | scripts/train.py:153-177 | the directory after each prefix of the save sequence |
| Training.CompleteSaveStoresAll | scripts/train.py:153-179 | a complete save leaves exactly the trained model, both scalers, the mapping and the feature list |
| Training.InterruptedSaveKeepsLaterFiles | scripts/train.py:181-182 | a save that fails at an artifact leaves it and every later file as they were, and the earlier ones new |
| Training.SaveArtifacts | scripts/train.py:153-182 | the files written are the prefix before the failure, and the directory is the old one with exactly those written |
| Training.TrainableRowsConvert | scripts/train.py:72-104 | with a label column of crop names and numeric features, every selected part converts and encodes |
| Training.SelectedLabels | scripts/train.py:86-88 | the split's targets are the encoded labels of the chosen rows, in order |
| Training.ScriptLabelsAreCropIds | scripts/train.py:72-88 | the training and test targets of a split done as the script does it are crop ids |
| Training.FittedReportAligned | scripts/train.py:119-135 | with crop-id targets and a forest that predicts only labels it was trained on, the report's names line up with its labels |
| Training.ScriptReportAligned | scripts/train.py:72-135 | every run the script completes (every successful `RunTraining` result), with a forest that predicts only labels it was trained on, has as many report names as labels, and the i-th name is the crop whose id is the i-th label |
| Training.RunTraining | scripts/train.py:72-182 | the features are every column but `label`, in order; both scalers are fitted on training rows only, and the test rows go through the same min-max then standard transform; the forest is fitted with `(100, 20, 42, -1)` on the scaled training rows; the report's labels and names are chosen as above; the saved mapping is `crop_dict`; a missing label column fails before anything is written; any failure leaves the directory untouched; trainable data always succeeds |
| CropPrediction.Unique | crop_prediction.py:75 | `list(y.unique())`: exactly the values of `y`, each once, in order of first appearance |
| CropPrediction.ExtractFeatures | crop_prediction.py:139-149 | a dict yields `[d[k] for k in FEATURE_KEYS]`, defined exactly when every key is present; a sequence is used as given |
| CropPrediction.ExtraKeysIgnored | crop_prediction.py:143 | two dicts agreeing on the feature keys extract the same features, so extra keys are ignored |
| CropPrediction.ScaleRow | crop_prediction.py:152 | `scaler.transform` succeeds exactly on a fitted scaler and a row of its width |
| CropPrediction.AfterSave | crop_prediction.py:158-176 | without a model the files are unchanged; with one, the path holds the model, scaler and labels, and every other path is as it was |
| CropPrediction.AfterLoad | crop_prediction.py:178-192 | without the file the predictor is unchanged; with it, model, scaler and labels are all taken from the file |
| CropPrediction.SaveLoadRoundTrip | crop_prediction.py:158-192 | loading what a trained predictor saved restores its model, scaler and labels, whatever the loader held |
| CropPrediction.UntrainedSaveWritesNothing | crop_prediction.py:165-167 | an untrained predictor writes nothing, so a later load sees the old files |
| CropPrediction.CropPredictor.constructor | crop_prediction.py:28-31 | no model, an unfitted scaler, no labels |
| CropPrediction.CropPredictor.PrepareData | crop_prediction.py:51-86 | four Nones, with nothing changed, exactly when the data is missing or lacks the target column; otherwise `crop_labels` becomes the distinct targets in order of appearance; the scaler is fitted on the training features only and applied to both parts; text features fail; after a failure on the training part the scaler is unfitted (`fit` resets it first), and after one on the test part it stays fitted on the training part |
| CropPrediction.CropPredictor.TrainModel | crop_prediction.py:88-103 | the model becomes a forest with `(100, 10, 42)`, fitted on the inputs when they are given; without inputs it stays unfitted and the call fails; scaler and labels are untouched |
| CropPrediction.CropPredictor.EvaluateModel | crop_prediction.py:105-122 | 0 when there is no model; not-fitted for an unfitted model; otherwise the accuracy of its predictions on the test rows |
| CropPrediction.CropPredictor.PredictCrop | crop_prediction.py:124-156 | `None` when there is no model or a key is missing, and only then; otherwise the forest's label for the scaled features, or the scaler's or forest's error |
| CropPrediction.CropPredictor.SaveModel | crop_prediction.py:158-176 | nothing is written without a model; otherwise the path holds the model, scaler and labels |
| CropPrediction.CropPredictor.LoadModel | crop_prediction.py:178-192 | all three fields are replaced from the file, or none when it does not exist |
| CropPrediction.NamedAgreesWithPositional | crop_prediction.py:139-149 | a dict and the vector extracted from it give the same prediction |
| Consistency.CropsMatchCropDict | config.py:42-65 | `CROPS` equals `crop_dict`: same names, ids and order |
| Consistency.FeatureOrderAgrees | config.py:68 | `FEATURES`, `FEATURE_KEYS` and the service's row keys are the same list, and the service's feature vector follows it |
| Consistency.FittedFeatureOrder | scripts/train.py:77-176 | the saved feature list is the data's column order without `label`; it equals the service's fixed row-key order exactly when the data's other columns come in that order; a complete save leaves that list as the one `get_feature_names` returns |
| Consistency.SplitSettingsAgree | config.py:33-34 | `TEST_SIZE` and `RANDOM_STATE` are the split arguments of both training paths |
| Consistency.ForestSettingsAgree | config.py:24-30 | `MODEL_PARAMS` are the training script's forest arguments; `CropPredictor` uses a different depth |
| Consistency.CompleteSaveLoads | scripts/train.py:153-179 | after a complete save the service loads without error |
| Consistency.SavedMappingReverses | scripts/predict.py:59 | the reverse of the saved `crop_dict` names every id back, and its keys are exactly 1..22 |
| Consistency.InterruptedSaveIsRefused | scripts/predict.py:41-64 | a save interrupted at an artifact, over an empty directory, leaves one the service refuses as not-found at that artifact |
| Consistency.InterruptedSaveOverCompleteSetLoads | scripts/train.py:181-182 | a save interrupted after the model file, over a complete older set, still loads: the new model with older companions |

## Left out

- File and pickle I/O: paths, `open`, `os.path.exists`, `os.makedirs` and `joblib`. Each file is a value in a store that is absent, corrupt or present.
- Reading the CSV (`pd.read_csv`, `CropPredictor.load_data`) and the dataset summaries printed before encoding. The model starts from a loaded frame.
- The algorithms of scikit-learn: scaler arithmetic, tree building, voting, probability estimates, the shuffle of `train_test_split`, and accuracy. These are opaque functions of a `Sklearn.Toolkit`. So how the forest's probabilities relate to the trees' votes, and what `random_state` fixes, are not modelled. `Sklearn.Transform`, which the prediction service and the training script use, leaves out the zero-variance policy and the shape checks of `transform`; `CropPredictor`'s scaler (`CropPrediction.ScaleRow`) does check the row width.
- Floating point: readings and probabilities are exact reals. `round` is exact half-even rounding. It does not reproduce binary rounding of decimal halves.
- The feature-importance table, the classification report's numbers, and all printing. The report's label and name selection is modelled.
- `FEATURE_RANGES` is never checked by any code path, so no range validation is modelled.
- The per-module `main` functions, `app.py`, `example.py`, `verify_setup.py`, `PROJECT_MANIFEST.py` and `test.py` are not part of this model.
- Concurrency: everything is single-threaded.
- `Predict.PredictWith`: readings are reals, so non-numeric arguments, and a forest or scaler that raises inside `transform`/`predict`, are not modelled. The two failures modelled are an empty probability array and a label missing from the mapping.
- `Predict.CropRecommendationPredictor.PredictBatch`: rows are dictionaries of reals. A row that is not a dictionary, or holds a non-numeric value, is not modelled.
- `Training.RunTraining`: a crop name outside `crop_dict` becomes NaN, and the library rejects NaN targets. The model reports this at fitting (training part) or at scoring (test part), before anything is saved. Other library failures (an empty split, a forest refusing its input) are not modelled.
- `CropPrediction.CropPredictor.PrepareData`: sklearn's input checks are reduced to "every feature cell is a number". Empty splits are not modelled.
- `CropPrediction.CropPredictor.LoadModel`: a corrupt bundle, or one missing a key, raises part-way through the three assignments in the source. The model only has complete bundles.
- `CropPrediction.CropPredictor.SaveModel`: a write error propagates in the source. The model has no failing write for this file.
- `CropPrediction.ForestSettings`: `n_jobs` is not passed in `crop_prediction.py`. It is recorded as 1, the library's single-job default.
- `Predict.LoadError`: the model's `Unreadable` error names the artifact; the source's message for an unreadable pickle carries only the unpickler's text and does not name the file.
- An interrupted write leaving a half-written pickle is not modelled. A write either happens or, at the failing artifact and after it, does not.
