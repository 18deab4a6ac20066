/** The estimator façade of tabpfn_client/estimator.py: `TabPFNClassifier` and
    `TabPFNRegressor`. Construction checks that a recorded email is verified;
    `fit` checks the session and forwards the data to the inference handler;
    the predict methods forward a request, then reshape the response. The
    session is read from the runtime's current global configuration at every
    call, as the source reads `config.g_tabpfn_config`. */
module Estimator {
  import opened Wrappers
  import opened Preprocessing
  import opened Config

  type Features = seq<seq<real>>
  type Targets = seq<real>

  /** The only model name `fit` accepts without a warning. */
  const HOSTED_MODEL := "latest_tabpfn_hosted"
  const MODEL_WARNING := "Only 'latest_tabpfn_hosted' model is supported at the moment for init(use_server=True)"

  /** The distinct error conditions, one per exception the code can raise. */
  datatype EstimatorError =
    | EmailNotVerified                          // RuntimeError at construction
    | MissingAuthHandler                        // AttributeError: email recorded, no auth handler
    | NotInitialized(estimator: string)         // RuntimeError: init() was not called
    | NotImplemented                            // NotImplementedError: use_server is not True
    | MissingInferenceHandler                   // AttributeError: no inference handler
    | NotFitted                                 // NotFittedError from check_is_fitted
    | MissingField(key: string)                 // KeyError on the response
    | EmptyRow                                  // ValueError: argmax of an empty row
    | UnsupportedMetric(metric: Option<string>) // ValueError from regressor predict

  /** The parameters `get_params()` reports. The knobs the core never reads
      are kept as an opaque map. */
  datatype EstimatorParams = EstimatorParams(
    model: string,
    nEstimators: int,
    preprocessTransforms: seq<PreprocessorConfig>,
    optimizeMetric: Option<string>,
    knobs: map<string, string>)

  datatype Task = Classification | Regression

  /** A call forwarded to an inference handler. */
  datatype InferenceRequest =
    | FitRequest(handler: InferenceClient?, x: Features, y: Targets)
    | PredictRequest(handler: InferenceClient?, x: Features, task: Task, params: EstimatorParams)

  /** The constructor defaults of the model name, ensemble size, transforms and metric. */
  function ClassifierDefaults(knobs: map<string, string>): (r: EstimatorParams)
    ensures r.model == HOSTED_MODEL && r.nEstimators == 4 && r.optimizeMetric == Some("roc")
    ensures r.knobs == knobs && |r.preprocessTransforms| == 2
    // the first transform appends the original features and ends with an SVD
    ensures r.preprocessTransforms[0].name == "quantile_uni_coarse" &&
            r.preprocessTransforms[0].categoricalName == "ordinal_very_common_categories_shuffled" &&
            r.preprocessTransforms[0].subsampleFeatures == Some(-1.0)
    ensures r.preprocessTransforms[0].appendOriginal &&
            r.preprocessTransforms[0].globalTransformerName == Some("svd")
    // the second is `PreprocessorConfig("none", categorical_name="numeric")`, all else default
    ensures r.preprocessTransforms[1] == Preprocessor("none").(categoricalName := "numeric")
  {
    EstimatorParams(HOSTED_MODEL, 4,
      [PreprocessorConfig("quantile_uni_coarse", "ordinal_very_common_categories_shuffled",
                          true, Some(-1.0), Some("svd")),
       PreprocessorConfig("none", "numeric", false, Some(-1.0), None)],
      Some("roc"), knobs)
  }

  function RegressorDefaults(knobs: map<string, string>): (r: EstimatorParams)
    ensures r.model == HOSTED_MODEL && r.nEstimators == 8 && r.optimizeMetric == Some("rmse")
    ensures r.knobs == knobs && |r.preprocessTransforms| == 2
    ensures r.preprocessTransforms[0].name == "quantile_uni" &&
            r.preprocessTransforms[0].categoricalName == "ordinal_very_common_categories_shuffled" &&
            r.preprocessTransforms[0].subsampleFeatures == Some(-1.0)
    ensures r.preprocessTransforms[0].appendOriginal &&
            r.preprocessTransforms[0].globalTransformerName == Some("svd")
    // the second is `PreprocessorConfig("safepower", categorical_name="onehot")`, all else default
    ensures r.preprocessTransforms[1] == Preprocessor("safepower").(categoricalName := "onehot")
  {
    EstimatorParams(HOSTED_MODEL, 8,
      [PreprocessorConfig("quantile_uni", "ordinal_very_common_categories_shuffled",
                          true, Some(-1.0), Some("svd")),
       PreprocessorConfig("safepower", "onehot", false, Some(-1.0), None)],
      Some("rmse"), knobs)
  }

  /** The default transforms of both estimators are cacheable. */
  lemma DefaultTransformsCacheable(knobs: map<string, string>)
    ensures forall p :: p in ClassifierDefaults(knobs).preprocessTransforms ==> CanBeCached(p) == Some(true)
    ensures forall p :: p in RegressorDefaults(knobs).preprocessTransforms ==> CanBeCached(p) == Some(true)
  {
  }

  /** The check that ends both constructors: when an email is recorded, the
      auth handler is asked whether it is verified (`verified` is its
      answer); a missing handler makes the query itself fail. */
  function VerificationCheck(s: ConfigState, verified: bool): (r: Option<EstimatorError>)
    ensures r.Some? <==> HasEmail(s) && (s.userAuthHandler == null || !verified)
    ensures r == Some(EmailNotVerified) <==> HasEmail(s) && s.userAuthHandler != null && !verified
    ensures r.Some? ==> r == Some(EmailNotVerified) || r == Some(MissingAuthHandler)
  {
    if !HasEmail(s) then None
    else if s.userAuthHandler == null then Some(MissingAuthHandler)
    else if !verified then Some(EmailNotVerified)
    else None
  }

  /** With no recorded email, no query is made: the outcome does not depend on
      what the auth server would have answered. */
  lemma NoEmailNoQuery(s: ConfigState)
    requires !HasEmail(s)
    ensures VerificationCheck(s, true) == VerificationCheck(s, false) == None
  {
  }

  /** Under the session invariant, construction fails only for an unverified email. */
  lemma ConstructionFailsOnlyIfUnverified(s: ConfigState, verified: bool)
    requires Inv(s) && IsTrue(s.useServer)
    ensures VerificationCheck(s, verified).Some? <==> HasEmail(s) && !verified
  {
  }

  /** The checks `fit` makes before it forwards the data, in the source's order. */
  function FitCheck(s: ConfigState, estimator: string): (r: Option<EstimatorError>)
    ensures r.None? <==> IsTrue(s.isInitialized) && IsTrue(s.useServer) && s.inferenceHandler != null
    ensures !IsTrue(s.isInitialized) ==> r == Some(NotInitialized(estimator))
    ensures IsTrue(s.isInitialized) && !IsTrue(s.useServer) ==> r == Some(NotImplemented)
    // in a reachable session fit fails only for the two reasons above
    ensures IsTrue(s.isInitialized) && IsTrue(s.useServer) && s.inferenceHandler == null ==>
              r == Some(MissingInferenceHandler)
    ensures Inv(s) ==> r != Some(MissingInferenceHandler)
  {
    if !IsTrue(s.isInitialized) then Some(NotInitialized(estimator))
    else if !IsTrue(s.useServer) then Some(NotImplemented)
    else if s.inferenceHandler == null then Some(MissingInferenceHandler)
    else None
  }

  /** What `fit` prints: the assertion message, once it has passed the two
      session checks, when the model is not the hosted one. */
  function FitWarnings(s: ConfigState, model: string): (w: seq<string>)
    ensures w != [] <==> IsTrue(s.isInitialized) && IsTrue(s.useServer) && model != HOSTED_MODEL
    ensures w == [] || w == [MODEL_WARNING]
  {
    if IsTrue(s.isInitialized) && IsTrue(s.useServer) && model != HOSTED_MODEL then [MODEL_WARNING]
    else []
  }

  /** The model check is lenient: a model other than the hosted one neither
      stops `fit` nor changes why it fails. */
  lemma ModelNameNeverBlocksFit(s: ConfigState, estimator: string, model: string)
    requires Inv(s) && IsTrue(s.isInitialized) && IsTrue(s.useServer)
    ensures FitCheck(s, estimator).None?
    ensures model != HOSTED_MODEL ==> FitWarnings(s, model) == [MODEL_WARNING]
  {
  }

  /** The checks a predict call makes before it sends the request:
      `check_is_fitted`, then the attribute lookup of the handler. */
  function PredictGate(fitted: bool, s: ConfigState): (r: Option<EstimatorError>)
    ensures !fitted ==> r == Some(NotFitted)
    ensures r.None? <==> fitted && s.inferenceHandler != null
    ensures r.Some? ==> r == Some(NotFitted) || r == Some(MissingInferenceHandler)
    // a fitted estimator fails only on the missing handler (the AttributeError)
    ensures fitted && s.inferenceHandler == null ==> r == Some(MissingInferenceHandler)
  {
    if !fitted then Some(NotFitted)
    else if s.inferenceHandler == null then Some(MissingInferenceHandler)
    else None
  }

  /** After a `reset`, an estimator fitted earlier can no longer predict. */
  lemma PredictAfterResetFails()
    ensures PredictGate(true, EmptyConfig()) == Some(MissingInferenceHandler)
  {
  }

  /** `k` is the index numpy's `argmax` picks in `row`: the first maximal entry. */
  predicate IsFirstArgMax(row: seq<real>, k: nat) {
    k < |row| &&
    (forall j :: 0 <= j < |row| ==> row[j] <= row[k]) &&
    (forall j :: 0 <= j < k ==> row[j] < row[k])
  }

  function ArgMax(row: seq<real>): (k: nat)
    requires |row| > 0
    ensures IsFirstArgMax(row, k)
  {
    if |row| == 1 then 0
    else
      var k' := ArgMax(row[..|row| - 1]);
      if row[|row| - 1] > row[k'] then |row| - 1 else k'
  }

  /** `np.argmax(probas, axis=1)`: one label per row; an empty row raises. */
  function ArgMaxRows(probas: seq<seq<real>>): (r: Result<seq<nat>, EstimatorError>)
    ensures r.Ok? <==> forall i :: 0 <= i < |probas| ==> |probas[i]| > 0
    ensures r.Err? ==> r.error == EmptyRow
    ensures r.Ok? ==> (|r.value| == |probas| &&
                       forall i :: 0 <= i < |probas| ==> IsFirstArgMax(probas[i], r.value[i]))
  {
    if probas == [] then Ok([])
    else if |probas[0]| == 0 then Err(EmptyRow)
    else
      match ArgMaxRows(probas[1..])
      case Err(e) => Err(e)
      case Ok(rest) =>
        assert forall i :: 1 <= i < |probas| ==> probas[i] == probas[1..][i - 1];
        Ok([ArgMax(probas[0])] + rest)
  }

  /** The labels for two rows of probabilities [0.1, 0.9] and [0.7, 0.3]. */
  lemma ArgMaxRowsExample()
    ensures ArgMaxRows([[0.1, 0.9], [0.7, 0.3]]) == Ok([1, 0])
  {
    var probas: seq<seq<real>> := [[0.1, 0.9], [0.7, 0.3]];
    var r := ArgMaxRows(probas);
    assert r.Ok? && |r.value| == 2;
    var k0, k1 := r.value[0], r.value[1];
    assert IsFirstArgMax(probas[0], k0) && IsFirstArgMax(probas[1], k1);
    assert r.value == [k0, k1];
  }

  /** The regressor's table from `optimize_metric` to a response field. */
  function SelectField(metric: Option<string>): (r: Result<string, EstimatorError>)
    ensures r == Ok("mean") <==>
              metric in {None, Some("mse"), Some("rmse"), Some("r2"), Some("mean")}
    ensures r == Ok("median") <==> metric in {Some("mae"), Some("median")}
    ensures r == Ok("mode") <==> metric in {Some("mode"), Some("exact_match")}
    ensures r.Ok? ==> r.value in {"mean", "median", "mode"}
    ensures r.Err? ==> r.error == UnsupportedMetric(metric)
  {
    if metric in {None, Some("mse"), Some("rmse"), Some("r2"), Some("mean")} then Ok("mean")
    else if metric in {Some("mae"), Some("median")} then Ok("median")
    else if metric in {Some("mode"), Some("exact_match")} then Ok("mode")
    else Err(UnsupportedMetric(metric))
  }

  /** Every value of the regressor's declared metric type is handled; no other
      string is. */
  lemma DeclaredMetricsSupported(metric: Option<string>)
    ensures SelectField(metric).Ok? <==>
              metric == None || metric.value in {"mse", "rmse", "mae", "r2", "mean", "median", "mode", "exact_match"}
  {
  }

  /** What the classifier's `predict_proba` returns, given the inference response. */
  function ProbaOutcome(fitted: bool, s: ConfigState, response: map<string, Features>): (r: Result<Features, EstimatorError>)
    ensures !fitted ==> r == Err(NotFitted)
    ensures r.Ok? <==> PredictGate(fitted, s).None? && "probas" in response
    ensures r.Ok? ==> r.value == response["probas"]
    // the gate's error, else the KeyError of the missing field
    ensures r.Err? ==> r.error == (if PredictGate(fitted, s).Some? then PredictGate(fitted, s).value
                                   else MissingField("probas"))
    ensures fitted && s.inferenceHandler == null ==> r == Err(MissingInferenceHandler)
  {
    match PredictGate(fitted, s)
    case Some(e) => Err(e)
    case None => if "probas" in response then Ok(response["probas"]) else Err(MissingField("probas"))
  }

  /** What the classifier's `predict` returns: the labels of the probabilities. */
  function LabelsOutcome(fitted: bool, s: ConfigState, response: map<string, Features>): (r: Result<seq<nat>, EstimatorError>)
    ensures !fitted ==> r == Err(NotFitted)
    ensures r.Ok? ==> (ProbaOutcome(fitted, s, response).Ok? &&
                       var p := response["probas"];
                       |r.value| == |p| && forall i :: 0 <= i < |p| ==> IsFirstArgMax(p[i], r.value[i]))
    // labels come back exactly when the probabilities do and no row is empty
    ensures r.Ok? <==> (ProbaOutcome(fitted, s, response).Ok? &&
                        var p := response["probas"];
                        forall i :: 0 <= i < |p| ==> |p[i]| > 0)
    // the gate's error passes through; past it, only an empty row fails
    ensures ProbaOutcome(fitted, s, response).Err? ==> r == Err(ProbaOutcome(fitted, s, response).error)
    ensures ProbaOutcome(fitted, s, response).Ok? && r.Err? ==> r.error == EmptyRow
  {
    match ProbaOutcome(fitted, s, response)
    case Err(e) => Err(e)
    case Ok(p) => ArgMaxRows(p)
  }

  /** What the regressor's `predict_full` returns: the response, unchanged. */
  function FullOutcome(fitted: bool, s: ConfigState, response: map<string, Targets>): (r: Result<map<string, Targets>, EstimatorError>)
    ensures !fitted ==> r == Err(NotFitted)
    ensures r.Ok? <==> PredictGate(fitted, s).None?
    ensures r.Ok? ==> r.value == response
    ensures r.Err? ==> PredictGate(fitted, s) == Some(r.error)
    ensures fitted && s.inferenceHandler == null ==> r == Err(MissingInferenceHandler)
  {
    match PredictGate(fitted, s)
    case Some(e) => Err(e)
    case None => Ok(response)
  }

  /** What the regressor's `predict` returns: the response's field the metric
      selects; the metric is looked at only once the request has gone through. */
  function RegressionOutcome(fitted: bool, s: ConfigState, metric: Option<string>,
                             response: map<string, Targets>): (r: Result<Targets, EstimatorError>)
    ensures !fitted ==> r == Err(NotFitted)
    ensures r.Ok? <==> PredictGate(fitted, s).None? && SelectField(metric).Ok? &&
                       SelectField(metric).value in response
    ensures r.Ok? ==> r.value == response[SelectField(metric).value]
    ensures PredictGate(fitted, s).None? && SelectField(metric).Err? ==> r == Err(UnsupportedMetric(metric))
    ensures PredictGate(fitted, s).Some? ==> r == Err(PredictGate(fitted, s).value)
    ensures fitted && s.inferenceHandler == null ==> r == Err(MissingInferenceHandler)
    // the KeyError of a selected field the response lacks
    ensures PredictGate(fitted, s).None? && SelectField(metric).Ok? && SelectField(metric).value !in response ==>
              r == Err(MissingField(SelectField(metric).value))
  {
    match FullOutcome(fitted, s, response)
    case Err(e) => Err(e)
    case Ok(full) =>
      match SelectField(metric)
      case Err(e) => Err(e)
      case Ok(key) => if key in full then Ok(full[key]) else Err(MissingField(key))
  }

  /** With the default metric "rmse", predict returns the "mean" field. */
  lemma DefaultRegressorPredictsMean(knobs: map<string, string>, s: ConfigState, response: map<string, Targets>)
    requires s.inferenceHandler != null && "mean" in response
    ensures RegressionOutcome(true, s, RegressorDefaults(knobs).optimizeMetric, response) == Ok(response["mean"])
  {
  }

  class TabPFNClassifier {
    const params: EstimatorParams
    var fitted: bool
    ghost var requests: seq<InferenceRequest>

    /** The field assignments of `__init__`. */
    constructor (params: EstimatorParams)
      ensures this.params == params && !fitted && requests == []
    {
      this.params := params;
      fitted := false;
      requests := [];
    }

    /** `TabPFNClassifier(...)`: assign the parameters, then run the
        verification check against the current session. */
    static method Create(rt: Runtime, params: EstimatorParams, verified: bool)
      returns (r: Result<TabPFNClassifier, EstimatorError>)
      modifies rt`verificationQueries
      ensures rt.State() == old(rt.State())
      ensures r.Err? <==> VerificationCheck(rt.State(), verified).Some?
      ensures r.Err? ==> Some(r.error) == VerificationCheck(rt.State(), verified)
      ensures r.Ok? ==> fresh(r.value) && r.value.params == params && !r.value.fitted && r.value.requests == []
      ensures rt.verificationQueries == old(rt.verificationQueries) +
                (if HasEmail(rt.State()) && rt.State().userAuthHandler != null
                 then [rt.State().userEmail.value] else [])
    {
      var c := new TabPFNClassifier(params);
      var s := rt.State();
      if HasEmail(s) && s.userAuthHandler != null {
        rt.verificationQueries := rt.verificationQueries + [s.userEmail.value];
      }
      match VerificationCheck(s, verified)
      case Some(e) => r := Err(e);
      case None => r := Ok(c);
    }

    /** `fit(X, y)`: on success the data go to the inference handler, the
        estimator is marked fitted and returned itself; on failure nothing
        about it changes. */
    method Fit(rt: Runtime, x: Features, y: Targets) returns (r: Result<TabPFNClassifier, EstimatorError>)
      modifies this`fitted, this`requests, rt`printed
      ensures rt.State() == old(rt.State())
      ensures r.Err? <==> FitCheck(rt.State(), "TabPFNClassifier").Some?
      ensures r.Err? ==> Some(r.error) == FitCheck(rt.State(), "TabPFNClassifier") && fitted == old(fitted)
      ensures r.Ok? ==> r.value == this && fitted
      ensures requests == old(requests) +
                (if r.Ok? then [FitRequest(rt.State().inferenceHandler, x, y)] else [])
      ensures rt.printed == old(rt.printed) + FitWarnings(rt.State(), params.model)
    {
      var s := rt.State();
      if !IsTrue(s.isInitialized) {
        return Err(NotInitialized("TabPFNClassifier"));
      }
      if IsTrue(s.useServer) {
        if params.model != HOSTED_MODEL {
          rt.printed := rt.printed + [MODEL_WARNING];
        }
        if s.inferenceHandler == null {
          return Err(MissingInferenceHandler);
        }
        requests := requests + [FitRequest(s.inferenceHandler, x, y)];
        fitted := true;
      } else {
        return Err(NotImplemented);
      }
      r := Ok(this);
    }

    /** `predict_proba(X)`: the "probas" field of the classification response. */
    method PredictProba(rt: Runtime, x: Features, response: map<string, Features>)
      returns (r: Result<Features, EstimatorError>)
      modifies this`requests
      ensures r == ProbaOutcome(fitted, rt.State(), response)
      ensures requests == old(requests) +
                (if PredictGate(fitted, rt.State()).None?
                 then [PredictRequest(rt.State().inferenceHandler, x, Classification, params)] else [])
    {
      var s := rt.State();
      if !fitted {
        return Err(NotFitted);
      }
      if s.inferenceHandler == null {
        return Err(MissingInferenceHandler);
      }
      requests := requests + [PredictRequest(s.inferenceHandler, x, Classification, params)];
      if "probas" !in response {
        return Err(MissingField("probas"));
      }
      r := Ok(response["probas"]);
    }

    /** `predict(X)`: the row-wise argmax of `predict_proba(X)`. */
    method Predict(rt: Runtime, x: Features, response: map<string, Features>)
      returns (r: Result<seq<nat>, EstimatorError>)
      modifies this`requests
      ensures r == LabelsOutcome(fitted, rt.State(), response)
      ensures requests == old(requests) +
                (if PredictGate(fitted, rt.State()).None?
                 then [PredictRequest(rt.State().inferenceHandler, x, Classification, params)] else [])
    {
      var probas := PredictProba(rt, x, response);
      match probas
      case Err(e) => r := Err(e);
      case Ok(p) => r := ArgMaxRows(p);
    }
  }

  class TabPFNRegressor {
    const params: EstimatorParams
    var fitted: bool
    ghost var requests: seq<InferenceRequest>

    /** The field assignments of `__init__`. */
    constructor (params: EstimatorParams)
      ensures this.params == params && !fitted && requests == []
    {
      this.params := params;
      fitted := false;
      requests := [];
    }

    /** `TabPFNRegressor(...)`: assign the parameters, then run the
        verification check against the current session. */
    static method Create(rt: Runtime, params: EstimatorParams, verified: bool)
      returns (r: Result<TabPFNRegressor, EstimatorError>)
      modifies rt`verificationQueries
      ensures rt.State() == old(rt.State())
      ensures r.Err? <==> VerificationCheck(rt.State(), verified).Some?
      ensures r.Err? ==> Some(r.error) == VerificationCheck(rt.State(), verified)
      ensures r.Ok? ==> fresh(r.value) && r.value.params == params && !r.value.fitted && r.value.requests == []
      ensures rt.verificationQueries == old(rt.verificationQueries) +
                (if HasEmail(rt.State()) && rt.State().userAuthHandler != null
                 then [rt.State().userEmail.value] else [])
    {
      var e := new TabPFNRegressor(params);
      var s := rt.State();
      if HasEmail(s) && s.userAuthHandler != null {
        rt.verificationQueries := rt.verificationQueries + [s.userEmail.value];
      }
      match VerificationCheck(s, verified)
      case Some(err) => r := Err(err);
      case None => r := Ok(e);
    }

    /** `fit(X, y)`, as for the classifier. */
    method Fit(rt: Runtime, x: Features, y: Targets) returns (r: Result<TabPFNRegressor, EstimatorError>)
      modifies this`fitted, this`requests, rt`printed
      ensures rt.State() == old(rt.State())
      ensures r.Err? <==> FitCheck(rt.State(), "TabPFNRegressor").Some?
      ensures r.Err? ==> Some(r.error) == FitCheck(rt.State(), "TabPFNRegressor") && fitted == old(fitted)
      ensures r.Ok? ==> r.value == this && fitted
      ensures requests == old(requests) +
                (if r.Ok? then [FitRequest(rt.State().inferenceHandler, x, y)] else [])
      ensures rt.printed == old(rt.printed) + FitWarnings(rt.State(), params.model)
    {
      var s := rt.State();
      if !IsTrue(s.isInitialized) {
        return Err(NotInitialized("TabPFNRegressor"));
      }
      if IsTrue(s.useServer) {
        if params.model != HOSTED_MODEL {
          rt.printed := rt.printed + [MODEL_WARNING];
        }
        if s.inferenceHandler == null {
          return Err(MissingInferenceHandler);
        }
        requests := requests + [FitRequest(s.inferenceHandler, x, y)];
        fitted := true;
      } else {
        return Err(NotImplemented);
      }
      r := Ok(this);
    }

    /** `predict_full(X)`: the regression response, unchanged. */
    method PredictFull(rt: Runtime, x: Features, response: map<string, Targets>)
      returns (r: Result<map<string, Targets>, EstimatorError>)
      modifies this`requests
      ensures r == FullOutcome(fitted, rt.State(), response)
      ensures requests == old(requests) +
                (if PredictGate(fitted, rt.State()).None?
                 then [PredictRequest(rt.State().inferenceHandler, x, Regression, params)] else [])
    {
      var s := rt.State();
      if !fitted {
        return Err(NotFitted);
      }
      if s.inferenceHandler == null {
        return Err(MissingInferenceHandler);
      }
      requests := requests + [PredictRequest(s.inferenceHandler, x, Regression, params)];
      r := Ok(response);
    }

    /** `predict(X)`: the field of `predict_full(X)` that `optimize_metric` selects. */
    method Predict(rt: Runtime, x: Features, response: map<string, Targets>)
      returns (r: Result<Targets, EstimatorError>)
      modifies this`requests
      ensures r == RegressionOutcome(fitted, rt.State(), params.optimizeMetric, response)
      ensures requests == old(requests) +
                (if PredictGate(fitted, rt.State()).None?
                 then [PredictRequest(rt.State().inferenceHandler, x, Regression, params)] else [])
    {
      var full := PredictFull(rt, x, response);
      match full
      case Err(e) => r := Err(e);
      case Ok(d) =>
        match SelectField(params.optimizeMetric)
        case Err(e) => r := Err(e);
        case Ok(key) =>
          if key in d {
            r := Ok(d[key]);
          } else {
            r := Err(MissingField(key));
          }
    }
  }
}
