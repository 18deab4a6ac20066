# tabpfn-client session and estimator façade, modelled in Dafny

This project models the client core of `tabpfn_client`. That core has two
parts.

- **The session.** The process-wide `TabPFNConfig` object holds five fields:
  `is_initialized`, `user_email`, `use_server`, `user_auth_handler` and
  `inference_handler`. `init(use_server)` fills them one by one along a
  branching flow: is the server reachable, can a cached token be reused, were
  the terms accepted. `reset()` rebinds the global to a fresh object.
- **The estimator façade.** `TabPFNClassifier` and `TabPFNRegressor` check
  at construction that a recorded email is verified. `fit` checks the
  session, forwards the data to the inference handler and marks the
  estimator fitted. `predict` forwards a request and reshapes the response.
  The classifier takes a row-wise argmax. The regressor picks a field by
  `optimize_metric`.

The model also covers the preprocessing descriptor `PreprocessorConfig`: its
display name, its cache test and its dictionary form.

Modules:
- `Wrappers` holds `Option` (Python's None) and `Result` (a raised exception).
- `Preprocessing` holds `PreprocessorConfig`.
- `Config` holds three things:
  - the `TabPFNConfig` class;
  - `Runtime`, the module-level global binding plus ghost records of the
    side effects (printed warnings, verification queries, cache resets,
    cache-directory removals);
  - the transition function `InitStep` and the invariant `Inv` that every
    reachable configuration keeps.
- `Estimator` holds the two estimator classes and the pure functions that
  specify their methods.
- `Scenario` holds client methods that follow sessions through these
  contracts alone.

How the model represents the source:
- The remote collaborators are opaque handle classes (`AuthClient`,
  `InferenceClient`).
- What the collaborators answer is passed in as oracle values:
  - `ServerOracle` for `init`: reachability, token reuse, terms, the login
    email, and whether the greeting fetch went through;
  - `verified` for the email-verification query;
  - the response maps for predict.
- Every method reads the session from `Runtime.config` when it is called,
  as the source reads `config.g_tabpfn_config`. So a `reset` is seen by
  estimators built before it.

Some behaviour of the code differs from what its names and comments
suggest; the model follows the code:
- The handlers are not set exactly when `use_server` is True. `init(False)`
  after a successful `init(True)` keeps both handlers. `Config.Inv` states only the
  direction that holds.
- `reset` never calls `reset_cache` (see Findings).
- A recorded email can exist without an auth handler. This happens when the
  greeting fetch fails after a fresh login. Constructing an estimator then
  fails on the attribute lookup. The model calls this error
  `MissingAuthHandler`.

## Model

| member | source | states |
|---|---|---|
| `Config.TabPFNConfig.constructor` | tabpfn_client/config.py:9-17 | a fresh configuration has all five fields None |
| `Config.Runtime.constructor` | tabpfn_client/config.py:17 | the global starts as an empty configuration that satisfies the invariant, with no side effects recorded |
| `Config.InitStep` | tabpfn_client/config.py:20-62 | `init(False)` writes only `use_server := False` and `is_initialized := True`; `init(True)` succeeds exactly when the server is reachable, a token is reused or the terms are accepted, and the greeting fetch works; success installs the given handlers with `use_server` and `is_initialized` True; an unreachable server or refused terms changes nothing; a failed greeting fetch after the login is reported as its own error; any failure changes at most the email; the email changes only through the login prompt, never on token reuse; the invariant is preserved |
| `Config.Runtime.Init` | tabpfn_client/config.py:20-62 | the new configuration is `InitStep` of the old one; on a successful `init(True)` both handlers are freshly created objects, so re-running `init(True)` replaces them; the invariant is preserved |
| `Config.InitIgnoresPriorState` | tabpfn_client/config.py:20-62 | there is no re-initialization guard: success or failure does not depend on the prior state, and a fresh login yields the same state from any prior state |
| `Config.Apply` | tabpfn_client/config.py:20-75 | a `reset` call leaves the empty configuration; every call preserves the invariant; a successful `init` leaves the session initialized in the requested mode |
| `Config.Run` | tabpfn_client/config.py:20-75 | no calls leave the configuration as it was; a sequence that ends with `reset` leaves the empty configuration, whatever came before |
| `Config.RunConcat` | tabpfn_client/config.py:20-75 | running two call sequences in turn is running their concatenation |
| `Config.ResetForgetsHistory` | tabpfn_client/config.py:65-68 | after a `reset`, the configuration evolves as in a freshly imported module, whatever calls came before |
| `Config.RunKeepsInv` | tabpfn_client/config.py:20-72 | by induction over any sequence of `init`/`reset` calls, every reachable configuration keeps the invariant (the flags are set together, server mode has both handlers, handlers come in pairs) |
| `Config.EmailWithoutAuthHandler` | tabpfn_client/config.py:39-53 | a fresh login followed by a failed greeting fetch leaves an email recorded and no auth handler |
| `Config.CacheResetTarget` | tabpfn_client/config.py:71-75 | the cache-reset step does nothing unless the tested configuration has `use_server` True; in server mode it calls `reset_cache` on that configuration's auth handler, or raises AttributeError when there is none, and then the directory removal does not run; for a configuration satisfying the invariant it calls `reset_cache` exactly in server mode and never raises |
| `Config.ResetSkipsCacheReset` | tabpfn_client/config.py:65-72 | after a successful server `init` the replaced configuration calls for a cache reset of its handler, but the fresh configuration `reset` actually tests calls for none |
| `Config.Runtime.Reset` | tabpfn_client/config.py:65-75 | the global is a fresh empty configuration; the cache-reset step runs on that fresh configuration, so no `reset_cache` call is made; the cache directory is removed once |
| `Config.Runtime.ResetIntended` | tabpfn_client/config.py:65-75 | corrected reset: the global is a fresh empty configuration and the cache-reset step runs on the replaced configuration; its `reset_cache` calls and the directory removal are those `CacheResetTarget` gives for it; from a configuration satisfying the invariant, a server-mode configuration has its cache reset exactly once, and the directory is always removed once |
| `Preprocessing.ToString` | tabpfn_client/estimator.py:87-101 | the name starts with `name + "_cat:" + categorical_name`; `"_and_none"` follows exactly when `append_original`; the subsample tag and value follow next exactly when `subsample_features > 0`; the global-transformer tag ends the name when one is named, and with no global transformer the name is exactly these parts; a None `subsample_features` raises |
| `Preprocessing.GlobalPartClosesName` | tabpfn_client/estimator.py:87-101 | the name of a descriptor with a global transformer is the name of the same descriptor without one, followed by `"_global_transformer_" + name` |
| `Preprocessing.LayoutIsUnambiguous` | tabpfn_client/estimator.py:87-101 | given the head `name + "_cat:" + categorical_name`, `"_and_none"` follows it exactly when `append_original`, and the subsample tag follows next exactly when `subsample_features > 0`, because these parts start differently (the global part is covered by `GlobalPartClosesName`) |
| `Preprocessing.NameDoesNotDetermineDescriptor` | tabpfn_client/estimator.py:87-101 | without the head, the name is ambiguous: a categorical name that contains the global-transformer tag gives the same name as a real global transformer |
| `Preprocessing.Preprocessor` | tabpfn_client/estimator.py:68-84 | `PreprocessorConfig(name)` keeps the name, with categorical name "none", no appended original, no global transformer and `subsample_features = -1` |
| `Preprocessing.CanBeCached` | tabpfn_client/estimator.py:103-104 | true exactly when `subsample_features <= 0`; a None `subsample_features` raises |
| `Preprocessing.DefaultIsCacheable` | tabpfn_client/estimator.py:83 | the default `subsample_features = -1` is cacheable |
| `Preprocessing.CacheableNameIgnoresSubsample` | tabpfn_client/estimator.py:87-104 | two cacheable descriptors that differ only in `subsample_features` have the same name, and it has no subsample tag |
| `Preprocessing.ToDict` | tabpfn_client/estimator.py:106-110 | the dictionary has the five field names; strings, bools and numbers are kept; None becomes the string "None" |
| `Preprocessing.ToDictInjective` | tabpfn_client/estimator.py:106-110 | distinct descriptors give distinct dictionaries, unless a global transformer is literally named "None" |
| `Preprocessing.ToDictConflatesNone` | tabpfn_client/estimator.py:106-110 | a missing global transformer and one named "None" give the same dictionary |
| `Estimator.ClassifierDefaults` | tabpfn_client/estimator.py:114-135 | the classifier's defaults: the hosted model, 4 estimators, metric "roc", and two transforms: `quantile_uni_coarse` with categorical encoding `ordinal_very_common_categories_shuffled`, appended original features, subsampling -1 and an SVD global transformer, then `PreprocessorConfig("none", categorical_name="numeric")` |
| `Estimator.RegressorDefaults` | tabpfn_client/estimator.py:224-242 | the regressor's defaults: the hosted model, 8 estimators, metric "rmse", and two transforms: `quantile_uni` with categorical encoding `ordinal_very_common_categories_shuffled`, appended original features, subsampling -1 and an SVD global transformer, then `PreprocessorConfig("safepower", categorical_name="onehot")` |
| `Estimator.DefaultTransformsCacheable` | tabpfn_client/estimator.py:118-129 | every default preprocessing transform of both estimators (also lines 228-236) is cacheable |
| `Estimator.VerificationCheck` | tabpfn_client/estimator.py:184-188 | construction fails exactly when an email is recorded and is reported unverified (or there is no handler to ask), and only with one of those two errors |
| `Estimator.NoEmailNoQuery` | tabpfn_client/estimator.py:185 | with no recorded email, the outcome does not depend on the verification answer |
| `Estimator.ConstructionFailsOnlyIfUnverified` | tabpfn_client/estimator.py:321-324 | in a reachable server-mode session, construction fails exactly for a recorded, unverified email |
| `Estimator.TabPFNClassifier.constructor` | tabpfn_client/estimator.py:168-182 | the parameters are stored as given; the estimator is not fitted and has sent nothing |
| `Estimator.TabPFNClassifier.Create` | tabpfn_client/estimator.py:114-188 | an unverified email fails with `VerificationCheck`'s error; otherwise a fresh unfitted estimator with the given parameters; the email is queried only when one is recorded; the session is unchanged |
| `Estimator.FitCheck` | tabpfn_client/estimator.py:190-209 | fit goes through exactly when the session is initialized, in server mode and has an inference handler; it fails with "not initialized" when `init` was not called, with "not implemented" in local mode, and on the missing inference handler otherwise; in a reachable session there is no other failure |
| `Estimator.FitWarnings` | tabpfn_client/estimator.py:197-203 | the model warning is printed exactly once, when the session checks pass and the model is not `"latest_tabpfn_hosted"` |
| `Estimator.ModelNameNeverBlocksFit` | tabpfn_client/estimator.py:197-205 | in an initialized server session any model name fits; a foreign name only adds the warning |
| `Estimator.TabPFNClassifier.Fit` | tabpfn_client/estimator.py:190-210 | a failure leaves the estimator unchanged; a success forwards `(X, y)` to the session's inference handler, sets `fitted` and returns the same estimator; the session is unchanged |
| `Estimator.PredictGate` | tabpfn_client/estimator.py:216-218 | predict before fit fails with "not fitted"; a fitted estimator without an inference handler fails on the attribute lookup; the request is sent exactly when the estimator is fitted and an inference handler exists |
| `Estimator.PredictAfterResetFails` | tabpfn_client/estimator.py:216-218 | an estimator fitted before a `reset` finds no inference handler afterwards |
| `Estimator.ArgMax` | tabpfn_client/estimator.py:214 | the index is in range, points to a maximal entry, and comes before every other maximal entry |
| `Estimator.ArgMaxRows` | tabpfn_client/estimator.py:212-214 | one label per row, each the first maximal index of its row; an empty row raises |
| `Estimator.ArgMaxRowsExample` | tabpfn_client/estimator.py:212-214 | the rows [0.1, 0.9] and [0.7, 0.3] give labels [1, 0] |
| `Estimator.ProbaOutcome` | tabpfn_client/estimator.py:216-220 | `predict_proba` returns the response's "probas" field once the request goes through; it fails with "not fitted" before fit, with the missing inference handler for a fitted estimator without one, and with a KeyError for "probas" when the response lacks it |
| `Estimator.LabelsOutcome` | tabpfn_client/estimator.py:212-220 | classifier `predict` fails before fit; it succeeds exactly when `predict_proba` does and no row of "probas" is empty; a `predict_proba` error passes through unchanged, and past it only an empty row fails; on success it returns one first-argmax label per row of "probas" |
| `Estimator.TabPFNClassifier.PredictProba` | tabpfn_client/estimator.py:216-220 | the result is `ProbaOutcome`; a classification request with the estimator's parameters is sent exactly when the gate passes |
| `Estimator.TabPFNClassifier.Predict` | tabpfn_client/estimator.py:212-214 | the result is `LabelsOutcome`, after the same single request |
| `Estimator.SelectField` | tabpfn_client/estimator.py:348-357 | mse, rmse, r2, mean and None select "mean"; mae and median select "median"; mode and exact_match select "mode"; anything else is an unsupported-metric error |
| `Estimator.DeclaredMetricsSupported` | tabpfn_client/estimator.py:240-242 | the metrics the regressor declares are exactly those `predict` supports |
| `Estimator.FullOutcome` | tabpfn_client/estimator.py:359-363 | `predict_full` fails with "not fitted" before fit and with the missing inference handler for a fitted estimator without one (as after a `reset`); it succeeds exactly when the gate passes, and then returns the response unchanged |
| `Estimator.RegressionOutcome` | tabpfn_client/estimator.py:348-363 | regressor `predict` returns the response's field that the metric selects; the gate's error ("not fitted" or the missing handler) comes first; an unsupported metric fails after the request, with no default; a selected field the response lacks is a KeyError for that field |
| `Estimator.DefaultRegressorPredictsMean` | tabpfn_client/estimator.py:242 | with the default metric "rmse", predict returns the "mean" field |
| `Estimator.TabPFNRegressor.constructor` | tabpfn_client/estimator.py:302-318 | the parameters are stored as given; the estimator is not fitted and has sent nothing |
| `Estimator.TabPFNRegressor.Create` | tabpfn_client/estimator.py:224-324 | as for the classifier: construction fails exactly when `VerificationCheck` does |
| `Estimator.TabPFNRegressor.Fit` | tabpfn_client/estimator.py:326-346 | as for the classifier, with the regressor's "not initialized" error |
| `Estimator.TabPFNRegressor.PredictFull` | tabpfn_client/estimator.py:359-363 | the result is `FullOutcome`; a regression request is sent exactly when the gate passes |
| `Estimator.TabPFNRegressor.Predict` | tabpfn_client/estimator.py:348-357 | the result is `RegressionOutcome` for the estimator's `optimize_metric`, after the same single request |

## Findings

This section has one finding. In `reset()`, the test of `use_server` reads
the configuration that was just created, not the one being replaced. So
`reset_cache()` can never run.

| source | as written | input that shows it | evidently intended | confidence | as-written member | corrected member |
|---|---|---|---|---|---|---|
| tabpfn_client/config.py:68-72 | the global is rebound to `TabPFNConfig()` before `use_server` is tested, so the test always reads None | a successful `init(True)` followed by `reset()`: no cache reset happens | reset the auth handler's cache when the configuration being replaced was in server mode | high (not executed) | `Config.Runtime.Reset` (shown by `Config.ResetSkipsCacheReset`) | `Config.Runtime.ResetIntended` |

## Left out

- The network, login prompts, terms prompt, welcome text and greeting
  display are interactive I/O or remote calls. Their results are oracle
  parameters, and printed text is recorded only for the model warning.
- Exceptions raised inside the collaborators are left out. This covers the
  connection check, the token lookup, the login prompt, and the remote
  `fit` and `predict`. The one exception modelled is a failing greeting
  fetch.
- Removing the cache directory (`shutil.rmtree`) is filesystem I/O. A ghost
  counter records it.
- The work that `get_params()`, `BaseEstimator` and `check_is_fitted` do
  inside sklearn is left out. The parameters are the `EstimatorParams`
  value, and the knobs the core never reads are an opaque map.
  `check_is_fitted` becomes the `fitted` flag.
- numpy arrays and Python floats are left out. Matrices are sequences of
  `real`, so NaN and ragged arrays are out of scope. `argmax` is modelled
  with numpy's documented first-occurrence choice. A matrix with no rows
  yields no labels.
- Preprocessing.ToString: the `str` of `subsample_features` is a
  parameter, so the difference between `str(2)` and `str(2.0)` is not
  modelled.
- The enumerations of admissible preprocessing and metric names are plain
  strings. Python does not enforce them at run time.
- `init()` without an argument is `init(use_server=True)`; the model has no default argument, so that call is `Runtime.Init(true, …)`.
- Estimator parameters cannot change after construction (`set_params` is
  not modelled).
- Concurrency: the source is single-threaded, and so is the model.
