# Heart-disease prediction API: a verified model of its core

This project models the core of a small FastAPI service (`app.py`) that serves a
pre-trained heart-disease classifier. Three parts are modelled:

- **The artifact loader** (`load_model` and the start-up hook). It walks an
  ordered list of candidate files. The list is four local paths under `models/`,
  then four paths under `/home/site/wwwroot` when `WEBSITE_SITE_NAME` is set and
  not empty. Each existing file is sorted into the linear slot (`model_lr`) or
  the ensemble slot (`model_rf`) by a test on its lower-cased file name. A
  failed load is skipped. Both slots empty afterwards is the "no model files"
  error, which start-up catches.
- **Model selection.** `/predict` follows `MODEL_TYPE` (default `logreg`) and
  falls back to the other slot. `/predict/batch` always tries the linear slot
  first.
- **The feature tables and the endpoints.** These are the one-row tables handed
  to a model, the mapping of exceptions to status codes, the batch loop, and the
  `model_loaded` flag of `/` and `/health`.

Modules: `Wrappers` (Option), `Text` (lower-casing, substring test, path name),
`Loader` (candidates, classification, the slot walk, the `Registry` class holding
the two slots), `Selection`, `Features` and `Service`.

The file system and the model's own calls come in as inputs:

- `Loader.Environment.files` maps each existing path to what deserialising it
  yields. `None` means `load` raised.
- `Service.Estimator` gives `predict` and `predict_proba` as functions. They
  return `None` when the call raises.

Two behaviours differ from what a reader might expect, and the model follows
the code in both:

- One might expect the first successful load of a category to win. The code
  assigns the slot on every success, so the last one wins (`Loader.ScanLastWins`).
- One might expect `/predict` to answer 503 when no model is loaded, as its
  `HTTPException` says. The code raises the 503 inside a `try` whose
  `except Exception` re-raises every error as a 500 (`Service.Predict`).

## Model

| member | source | states |
|---|---|---|
| Text.NameOfJoin | app.py:103 | `Path.name` of `dir/name` is `name` when `name` holds no separator, so the directory plays no part |
| Loader.OnAzure | app.py:89 | the hosting marker counts as set when it is present and not empty; specified by `Loader.AzureMarker` |
| Loader.AzureMarker | app.py:88-97 | with the marker unset or empty only the four local paths are walked; with it set and non-empty all eight are, the Azure ones after the local ones |
| Loader.CandidatePaths | app.py:81-97 | the candidate list is the four local paths, followed by the four Azure paths only when hosted on Azure (4 or 8 entries) |
| Loader.ClassifyName | app.py:103-108 | the lower-cased file-name test, "logreg" before "randomforest"/"rf"; specified by `Loader.LinearName`, `Loader.ForestName` and `Loader.ClassifyIgnoresCase` |
| Loader.ClassifyIgnoresCase | app.py:103-106 | the test is case-insensitive: lower-casing a name first never changes its slot |
| Loader.Classify | app.py:103-106 | the test applied to `path.name`; specified by `Loader.ClassifyIgnoresDirectory` and `Loader.CandidateCategories` |
| Loader.ClassifyIgnoresDirectory | app.py:103-108 | a file's slot depends only on its file name, never on its directory |
| Loader.LinearName | app.py:103-104 | any lower-case file name containing "logreg" goes to the linear slot, whatever else it contains |
| Loader.ForestName | app.py:106-107 | a lower-case name containing "randomforest" or "rf" and no "logreg" goes to the ensemble slot |
| Loader.FileNameCategories | app.py:82-85 | the two "logreg" file names are linear; the "randomforest" and "rf" names are ensembles |
| Loader.CandidateCategories | app.py:81-108 | each of the eight candidate paths falls into the category its file name suggests |
| Loader.Scan | app.py:100-110 | the slot after the walk; specified by `Loader.ScanAppend`, `Loader.ScanLastWins`, `Loader.ScanKeepsSlot`, `Loader.ScanSkips` and `Loader.ScanFills`, and computed in place by `Loader.Registry.LoadModel` |
| Loader.ScanAppend | app.py:100-110 | walking `a + b` equals walking `b` from the slot that walking `a` left, so the Azure paths are visited after the local ones |
| Loader.ScanLastWins | app.py:100-110 | a slot ends with the model of the last candidate of its kind that exists and loads; later successes override earlier ones |
| Loader.ScanKeepsSlot | app.py:100-110 | when no candidate of a kind exists and loads, that slot is unchanged |
| Loader.ScanSkips | app.py:101-110 | dropping a candidate that is missing, fails to load or belongs to the other kind does not change the slot |
| Loader.ScanFills | app.py:100-113 | a slot is filled after the walk iff it was filled before or some candidate of its kind exists and loads |
| Loader.Registry.constructor | app.py:72-73 | both slots start empty |
| Loader.Registry.CandidateList | app.py:81-97 | building the list and extending it on Azure yields exactly `Loader.CandidatePaths` of the marker |
| Loader.Registry.LoadModel | app.py:76-113 | the loop leaves each slot equal to the walk over the probed candidates (loop invariant); the "no model" error is returned iff both slots end empty |
| Loader.Registry.Startup | app.py:115-123 | start-up always yields a registry, with slots equal to the walk from empty slots, even when loading reports "no model" |
| Selection.ModelType | app.py:74 | the preference read from `MODEL_TYPE`, with "logreg" only when unset; specified by `Selection.UnsetModelTypeIsLinearFirst` |
| Selection.UnsetModelTypeIsLinearFirst | app.py:74 | an unset `MODEL_TYPE` gives the default "logreg" and a linear-first order; a set value is used as it is, so an empty one puts the ensemble first |
| Selection.Select | app.py:183-200 | no model iff both slots are empty; the reported name matches the slot actually used; a linear-first preference uses the linear slot when it is filled, any other preference uses the ensemble slot when it is filled |
| Selection.SelectFollowsPrecedence | app.py:187-200 | `/predict` uses the first filled slot in the order its preference sets (linear first for "logreg", "logistic", "lr" in any case; ensemble first otherwise) |
| Selection.BatchSelect | app.py:273-274 | the batch rule has no model iff both slots are empty; it uses the linear slot whenever that slot is filled |
| Selection.BatchFollowsLinearFirst | app.py:273-274 | the batch rule takes the first filled slot of linear-then-ensemble for every preference |
| Selection.BatchIsDefaultSelect | app.py:74 | the batch rule coincides with `/predict` under the default preference "logreg" |
| Selection.EndpointsDisagree | app.py:187-200 | `/predict` and the batch rule choose differently iff the preference is not linear-first and both slots are filled |
| Features.SingleRow | app.py:156-175 | the `/predict` table as written; specified by `Features.SingleRowShape`, `Features.SingleRowNamesMatch` and `Features.SingleRowByName` |
| Features.SingleRowShape | app.py:156-175 | the `/predict` table has 13 columns, six numeric names then seven categorical ones, and the k-th schema field sits in the k-th column |
| Features.SingleRowNamesMatch | app.py:156-175 | column k of the `/predict` table bears the name of the field stored in it iff k is 0 (`age`) or 12 (`thal`) |
| Features.SingleRowByName | app.py:156-175 | what a by-name reader finds in each column of the `/predict` table: only `age` and `thal` hold their own field |
| Features.SingleRowMisreadsExample | app.py:154-175 | on the schema's example request, the `trestbps` column holds `sex` (1) rather than 145.0, so the table does not present the fields by name |
| Features.BatchRow | app.py:251-270 | the batch table; specified by `Features.BatchRowReadsFields` |
| Features.BatchRowReadsFields | app.py:251-270 | the batch table gives every schema field under its own name |
| Features.IntendedSingleRow | app.py:154-158 | the corrected `/predict` table; specified by `Features.IntendedSingleRowReadsFields` |
| Features.IntendedSingleRowReadsFields | app.py:154-158 | the corrected `/predict` table keeps the numeric-first names and gives every field under its own name |
| Service.Infer | app.py:219-228 | a model call succeeds iff both `predict` and `predict_proba` return; the result carries their values and the chosen slot's name |
| Service.PredictBody | app.py:184-228 | the 503 is raised iff both slots are empty; whenever a slot is filled, the result is exactly the selected model's answer on the given table (success with its prediction, probability and slot name iff both model calls return) |
| Service.Predict | app.py:153-241 | every failure of `/predict` is reported as 500, never 503; it fails iff its `try` block raises; on success the body is exactly what the `try` block computed, with the selected slot's name |
| Service.IntendedPredict | app.py:202-206 | the corrected `/predict` answers 503 iff no model is loaded; with a model loaded it succeeds iff the selected model answers on the corrected table, and then returns that answer |
| Service.PredictReportsUnavailableAs500 | app.py:236-241 | with no model loaded, `/predict` raises the 503, but its client receives 500; the corrected handler returns 503 |
| Service.BatchItem | app.py:256-289 | one batch record raises the 503 iff both slots are empty; whenever a slot is filled, it is exactly the batch-selected model's answer on the batch table |
| Service.PredictBatch | app.py:243-294 | the batch succeeds iff every record succeeds, and then returns one result per input, in input order (loop invariant); every failure is a 500; an empty batch returns an empty list even with no model; a non-empty batch with no model is a 500 |
| Service.ModelLoaded | app.py:131 | the `model_loaded` flag; specified by `Service.Root`, `Service.Health`, `Service.HealthMatchesAvailability` and `Service.StartupLoaded` |
| Service.Root | app.py:125-133 | `/` always says "running" with the API's name, reports `model_loaded` iff `/predict` can select a model, and echoes `MODEL_TYPE` |
| Service.Health | app.py:135-141 | `/health` always says "healthy"; `model_loaded` holds iff some model can be selected |
| Service.HealthMatchesAvailability | app.py:140 | the health flag is false iff `/predict` raises "no model", for every preference |
| Service.StartupLoaded | app.py:112-123 | after start-up a model is reported iff some candidate exists, belongs to a category and loads |
| Service.BatchAgreesWithPredictOnModel | app.py:273-274 | when the preference is linear-first or only one slot is filled, both endpoints choose the same model |

## Findings

| source | as written | input that shows it | evidently intended | confidence | as-written member | corrected member |
|---|---|---|---|---|---|---|
| app.py:161-175 | the 13 values are listed in schema order (age, sex, cp, ...) under the numeric-first names `NUMERIC_COLS + CATEGORICAL_COLS`, although the comment at app.py:154-155 claims the correct order; the pipeline selects columns by name | the schema's example request (age 63, sex 1, cp 3, trestbps 145, ...): the `trestbps` column holds 1 | each field under its own name, as the batch table and the training script have it | high, not executed | Features.SingleRowMisreadsExample | Features.IntendedSingleRowReadsFields |
| app.py:202-206 | the 503 "no model" `HTTPException` is raised inside the `try` of app.py:153, and the `except Exception` at app.py:236-241 re-raises it as a 500 | any request to `/predict` with both slots empty | the client receives 503 | medium, not executed | Service.PredictReportsUnavailableAs500 | Service.IntendedPredict |

`Service.Predict` and `Service.PredictBatch` model the handlers as written.
`Service.IntendedPredict` is the corrected handler. It puts both corrections
together: the corrected table from `Features.IntendedSingleRow` and the 503
passed through to the client.

## Left out

- `joblib.load` and `Path.exists` are foreign calls. They are replaced by the
  `Environment.files` map: a path exists iff it is a key, and its value is what
  loading yields.
- The model pipeline's `predict` and `predict_proba` are foreign calls (`Service.Estimator`). Their numerics are not modelled. Properties of their results (a probability in [0, 1], a label of 0 or 1, determinism) belong to the external artifact and are not stated.
- The `pd.to_numeric(..., errors='coerce')` loops (app.py:178-181) are not modelled. They receive values the schema has already typed as float or int, so they leave the table unchanged. For the same reason the `float(...)` and `int(...)` casts at app.py:162-174 are the identity.
- Floating point: values are Dafny `real`s, and integer codes are unbounded `int`s.
- `Text.Lower` lower-cases ASCII letters only. Python's `str.lower()` also folds non-ASCII letters. The candidate names and the preference spellings are ASCII.
- `Text.Name` takes the text after the last `/`. `pathlib`'s normalisation of trailing or doubled separators is not modelled, because the candidate paths are fixed and contain neither.
- The local candidate paths are written as `models` joined with each file name, which is the same string as the source's literals.
- FastAPI, pydantic validation (the 422 for malformed input), CORS, uvicorn start-up and the async handlers are framework plumbing and are not modelled. The model starts from an already validated `Features.Input`.
- Logging `print`s, error detail strings and tracebacks in responses are not modelled. Only status codes are.
- The other scripts (`train_quick_model.py`, `setup_local_test.py`, `test_api.py`, `debug_pipeline.py`, `test_model_direct.py`, `startup.py`) are not part of this model. They download, train, check the environment or call a running server.
