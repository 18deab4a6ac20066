/** A client's view of the model: what a caller can conclude from the
    contracts alone, for the classifier in server mode and the regressor in
    local mode. */
module Scenario {
  import opened Wrappers
  import opened Config
  import opened Estimator

  const LOGIN := ServerOracle(true, false, true, Some("user@example.com"), true)

  method BeforeInit() {
    var rt := new Runtime();
    var x: Features := [[1.0, 2.0], [3.0, 4.0]];
    // no email recorded: construction makes no query; predict and fit both fail
    var created := TabPFNClassifier.Create(rt, ClassifierDefaults(map[]), false);
    assert created.Ok? && rt.verificationQueries == [];
    var clf := created.value;
    var early := clf.Predict(rt, x, map[]);
    assert early == Err(NotFitted);
    var unready := clf.Fit(rt, x, [0.0, 1.0]);
    assert unready == Err(NotInitialized("TabPFNClassifier")) && !clf.fitted;
  }

  method ServerSession() {
    var rt := new Runtime();
    var x: Features := [[1.0, 2.0], [3.0, 4.0]];
    var err := rt.Init(true, LOGIN);
    assert err == None && rt.State().userEmail == Some("user@example.com");
    var created := TabPFNClassifier.Create(rt, ClassifierDefaults(map[]), true);
    assert created.Ok?;
    var clf := created.value;
    var fitted := clf.Fit(rt, x, [0.0, 1.0]);
    assert fitted == Ok(clf) && clf.fitted && rt.printed == [];
    var labels := clf.Predict(rt, x, map["probas" := [[0.1, 0.9], [0.7, 0.3]]]);
    ArgMaxRowsExample();
    assert labels == Ok([1, 0]);
    // a second estimator, for an email the server now reports unverified
    var refused := TabPFNClassifier.Create(rt, ClassifierDefaults(map[]), false);
    assert refused == Err(EmailNotVerified);
    assert rt.verificationQueries == ["user@example.com", "user@example.com"];
  }

  method ResetSession() {
    var rt := new Runtime();
    var x: Features := [[1.0, 2.0]];
    var err := rt.Init(true, LOGIN);
    var created := TabPFNClassifier.Create(rt, ClassifierDefaults(map[]), true);
    var clf := created.value;
    var fitted := clf.Fit(rt, x, [0.0]);
    assert clf.fitted;
    // the server-mode cache is reset once; fit needs init again, and the
    // fitted estimator has no handler left
    var auth := rt.State().userAuthHandler;
    rt.ResetIntended();
    assert rt.cacheResets == [auth] && rt.cacheDirRemovals == 1;
    var again := clf.Fit(rt, x, [0.0]);
    assert again == Err(NotInitialized("TabPFNClassifier"));
    var late := clf.Predict(rt, x, map["probas" := [[0.5, 0.5]]]);
    assert late == Err(MissingInferenceHandler);
  }

  method AsWrittenResetSession() {
    var rt := new Runtime();
    var err := rt.Init(true, LOGIN);
    assert err == None && IsTrue(rt.State().useServer);
    // reset as written: the server-mode cache is not reset, only the directory is removed
    rt.Reset();
    assert rt.cacheResets == [] && rt.cacheDirRemovals == 1;
    assert rt.State() == EmptyConfig();
  }

  method RegressorLocalSession() {
    var rt := new Runtime();
    var err := rt.Init(false, ServerOracle(false, false, false, None, false));
    assert err == None && IsTrue(rt.State().isInitialized);
    var created := TabPFNRegressor.Create(rt, RegressorDefaults(map[]), true);
    assert created.Ok?;
    var reg := created.value;
    var r := reg.Fit(rt, [[1.0]], [2.0]);
    assert r == Err(NotImplemented) && !reg.fitted;
  }
}
