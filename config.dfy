/** The client's session: the process-wide `TabPFNConfig` object, the one-shot
    initializer `init` that fills its fields and `reset` that replaces it
    (tabpfn_client/config.py). The remote collaborators are represented by
    opaque handles, and what they answer is passed in as oracle values. */
module Config {
  import opened Wrappers

  /** A `UserAuthenticationClient`: an opaque handle. */
  class AuthClient {}

  /** An `InferenceClient`: an opaque handle. */
  class InferenceClient {}

  /** The five fields of a `TabPFNConfig`, as a value. Python's None is `None`
      for the plain fields and `null` for the two handlers. */
  datatype ConfigState = ConfigState(
    isInitialized: Option<bool>,
    userEmail: Option<string>,
    useServer: Option<bool>,
    userAuthHandler: AuthClient?,
    inferenceHandler: InferenceClient?)

  /** A fresh `TabPFNConfig()`: every field reads the class default None. */
  function EmptyConfig(): ConfigState {
    ConfigState(None, None, None, null, null)
  }

  /** Python truthiness of an optional flag. */
  predicate IsTrue(b: Option<bool>) {
    b == Some(true)
  }

  /** Python truthiness of `user_email`: recorded and non-empty. */
  predicate HasEmail(s: ConfigState) {
    s.userEmail.Some? && s.userEmail.value != ""
  }

  /** What the remote collaborators answer during one `init(True)`:
      the connection check, the reuse of a cached token, the terms prompt,
      the email the login/register prompt returns, and whether fetching the
      greeting messages went through. */
  datatype ServerOracle = ServerOracle(
    accessible: bool,
    tokenReused: bool,
    termsAccepted: bool,
    loginEmail: Option<string>,
    greetingsFetched: bool)

  /** The RuntimeErrors `init` raises, and a failing greeting fetch. */
  datatype InitError = Inaccessible | TermsRefused | GreetingsFailed

  datatype InitOutcome = InitOutcome(state: ConfigState, error: Option<InitError>)

  /** The oracle answers under which `init(True)` gets to the end. */
  predicate ServerInitSucceeds(o: ServerOracle) {
    o.accessible && (o.tokenReused || o.termsAccepted) && o.greetingsFetched
  }

  /** What the code keeps true of every configuration it produces: the flag
      `is_initialized` is None or True and is set together with `use_server`;
      server mode has both handlers, and the handlers come in pairs. The
      converse of the handler clause does not hold: `init(False)` leaves
      handlers of an earlier `init(True)` in place. */
  predicate Inv(s: ConfigState) {
    (s.isInitialized == None || s.isInitialized == Some(true)) &&
    (IsTrue(s.isInitialized) <==> s.useServer.Some?) &&
    (IsTrue(s.useServer) ==> s.userAuthHandler != null) &&
    (s.userAuthHandler == null <==> s.inferenceHandler == null)
  }

  /** One call `init(useServer)` on configuration `s`. `auth` and `inference`
      are the handlers a successful server initialization installs. */
  function InitStep(s: ConfigState, useServer: bool, o: ServerOracle,
                    auth: AuthClient?, inference: InferenceClient?): (r: InitOutcome)
    // local mode: two flags are written, the rest (email, handlers) is kept
    ensures !useServer ==>
              r == InitOutcome(s.(useServer := Some(false), isInitialized := Some(true)), None)
    // success exactly when the server answers allow it, and then the session is initialized
    ensures useServer ==> (r.error.None? <==> ServerInitSucceeds(o))
    ensures r.error.None? ==> IsTrue(r.state.isInitialized)
    // a failed greeting fetch after getting past the login is its own error
    ensures useServer && o.accessible && (o.tokenReused || o.termsAccepted) && !o.greetingsFetched ==>
              r.error == Some(GreetingsFailed)
    ensures useServer && r.error.None? ==>
              IsTrue(r.state.useServer) && r.state.userAuthHandler == auth &&
              r.state.inferenceHandler == inference
    // an unreachable server or refused terms: nothing changes
    ensures useServer && !o.accessible ==> r == InitOutcome(s, Some(Inaccessible))
    ensures useServer && o.accessible && !o.tokenReused && !o.termsAccepted ==>
              r == InitOutcome(s, Some(TermsRefused))
    // any failure changes at most the email
    ensures r.error.Some? ==> r.state == s.(userEmail := r.state.userEmail)
    // the email changes only through the login prompt, never on token reuse
    ensures o.tokenReused || !useServer ==> r.state.userEmail == s.userEmail
    ensures r.state.userEmail != s.userEmail ==>
              useServer && !o.tokenReused && r.state.userEmail == o.loginEmail
    ensures useServer && o.accessible && !o.tokenReused && o.termsAccepted ==>
              r.state.userEmail == o.loginEmail
    ensures Inv(s) && auth != null && inference != null ==> Inv(r.state)
  {
    if !useServer then
      InitOutcome(s.(useServer := Some(false), isInitialized := Some(true)), None)
    else if !o.accessible then
      InitOutcome(s, Some(Inaccessible))
    else if !o.tokenReused && !o.termsAccepted then
      InitOutcome(s, Some(TermsRefused))
    else
      var afterLogin := if o.tokenReused then s else s.(userEmail := o.loginEmail);
      if !o.greetingsFetched then
        InitOutcome(afterLogin, Some(GreetingsFailed))
      else
        InitOutcome(afterLogin.(useServer := Some(true), userAuthHandler := auth,
                                inferenceHandler := inference, isInitialized := Some(true)),
                    None)
  }

  /** There is no guard against re-initialization: whether `init` succeeds and
      what it leaves in the flags and handlers does not depend on the state it
      starts from. */
  lemma InitIgnoresPriorState(s1: ConfigState, s2: ConfigState, useServer: bool, o: ServerOracle,
                              auth: AuthClient, inference: InferenceClient)
    ensures InitStep(s1, useServer, o, auth, inference).error ==
            InitStep(s2, useServer, o, auth, inference).error
    ensures useServer && ServerInitSucceeds(o) && !o.tokenReused ==>
              InitStep(s1, useServer, o, auth, inference).state ==
              InitStep(s2, useServer, o, auth, inference).state
  {
  }

  /** What the cache-reset step of `reset` does with the configuration whose
      `use_server` it tests: nothing, `reset_cache` on its auth handler, or an
      AttributeError when server mode has no handler (the directory removal
      that follows then never runs). */
  datatype CacheReset = NoCacheReset | ResetCacheOf(handler: AuthClient) | HandlerMissing

  function CacheResetTarget(tested: ConfigState): (r: CacheReset)
    ensures r.NoCacheReset? <==> !IsTrue(tested.useServer)
    ensures r.ResetCacheOf? ==> r.handler == tested.userAuthHandler
    ensures r.HandlerMissing? <==> IsTrue(tested.useServer) && tested.userAuthHandler == null
    // every reachable configuration (RunKeepsInv) has the handler server mode needs
    ensures Inv(tested) ==> (r.ResetCacheOf? <==> IsTrue(tested.useServer)) && !r.HandlerMissing?
  {
    if !IsTrue(tested.useServer) then NoCacheReset
    else if tested.userAuthHandler == null then HandlerMissing
    else ResetCacheOf(tested.userAuthHandler)
  }

  /** The handlers a cache-reset step calls `reset_cache` on. */
  function ResetHandlers(c: CacheReset): (r: seq<AuthClient>)
    ensures |r| <= 1 && (r != [] <==> c.ResetCacheOf?)
    ensures c.ResetCacheOf? ==> r == [c.handler]
  {
    if c.ResetCacheOf? then [c.handler] else []
  }

  /** `reset` tests the object it has just created, never the one it replaces:
      even right after a successful server initialization, when a cache reset
      was due, nothing is reset. */
  lemma ResetSkipsCacheReset(s: ConfigState, o: ServerOracle, auth: AuthClient, inference: InferenceClient)
    requires ServerInitSucceeds(o)
    ensures CacheResetTarget(InitStep(s, true, o, auth, inference).state) == ResetCacheOf(auth)
    ensures CacheResetTarget(EmptyConfig()) == NoCacheReset
  {
  }

  /** The calls a process makes on the session, in order. */
  datatype SessionCall =
    | InitCall(useServer: bool, oracle: ServerOracle, auth: AuthClient, inference: InferenceClient)
    | ResetCall

  /** The configuration one call leaves behind. */
  function Apply(s: ConfigState, c: SessionCall): (r: ConfigState)
    ensures c.ResetCall? ==> r == EmptyConfig()
    ensures Inv(s) ==> Inv(r)
    // a successful init always leaves the session initialized, in the requested mode
    ensures c.InitCall? && (!c.useServer || ServerInitSucceeds(c.oracle)) ==>
              IsTrue(r.isInitialized) && r.useServer == Some(c.useServer)
  {
    match c
    case InitCall(useServer, o, auth, inference) => InitStep(s, useServer, o, auth, inference).state
    case ResetCall => EmptyConfig()
  }

  /** The configuration a sequence of calls leaves behind, the first call first. */
  function Run(s: ConfigState, calls: seq<SessionCall>): (r: ConfigState)
    ensures calls == [] ==> r == s
    // a reset wipes everything before it: only the calls after the last reset matter
    ensures calls != [] && calls[|calls| - 1].ResetCall? ==> r == EmptyConfig()
    decreases |calls|
  {
    if calls == [] then s else Run(Apply(s, calls[0]), calls[1..])
  }

  /** Every configuration reachable from the one created at import time, by
      any sequence of `init` and `reset` calls, satisfies `Inv`. */
  lemma {:induction false} RunKeepsInv(s: ConfigState, calls: seq<SessionCall>)
    requires Inv(s)
    ensures Inv(Run(s, calls))
    decreases |calls|
  {
    if calls != [] {
      RunKeepsInv(Apply(s, calls[0]), calls[1..]);
    }
  }

  /** Running two sequences of calls one after the other is running their concatenation. */
  lemma {:induction false} RunConcat(s: ConfigState, first: seq<SessionCall>, second: seq<SessionCall>)
    ensures Run(s, first + second) == Run(Run(s, first), second)
    decreases |first|
  {
    if first != [] {
      assert (first + second)[0] == first[0];
      assert (first + second)[1..] == first[1..] + second;
      RunConcat(Apply(s, first[0]), first[1..], second);
    } else {
      assert first + second == second;
    }
  }

  /** `reset` forgets the whole history before it: what follows behaves as in
      a freshly imported module. */
  lemma ResetForgetsHistory(s: ConfigState, before: seq<SessionCall>, after: seq<SessionCall>)
    ensures Run(s, before + [ResetCall] + after) == Run(EmptyConfig(), after)
  {
    RunConcat(s, before + [ResetCall], after);
    RunConcat(s, before, [ResetCall]);
  }

  /** A failing greeting fetch after a fresh login leaves an email recorded
      without an auth handler. */
  lemma EmailWithoutAuthHandler(s: ConfigState, o: ServerOracle, auth: AuthClient, inference: InferenceClient)
    requires s == EmptyConfig()
    requires o.accessible && !o.tokenReused && o.termsAccepted && !o.greetingsFetched
    requires o.loginEmail == Some("user@example.com")
    ensures var r := InitStep(s, true, o, auth, inference);
      r.error == Some(GreetingsFailed) && HasEmail(r.state) && r.state.userAuthHandler == null
  {
  }

  /** `TabPFNConfig`: the object whose fields `init` writes one by one. */
  class TabPFNConfig {
    var isInitialized: Option<bool>
    var userEmail: Option<string>
    var useServer: Option<bool>
    var userAuthHandler: AuthClient?
    var inferenceHandler: InferenceClient?

    function Snapshot(): ConfigState
      reads this
    {
      ConfigState(isInitialized, userEmail, useServer, userAuthHandler, inferenceHandler)
    }

    constructor ()
      ensures Snapshot() == EmptyConfig()
    {
      isInitialized, userEmail, useServer := None, None, None;
      userAuthHandler, inferenceHandler := null, null;
    }
  }

  /** The module-level state of the process: the global `g_tabpfn_config`
      binding, and ghost records of the side effects the core causes outside
      the configuration (printed warnings, verification queries, cache resets,
      and removals of the cache directory). */
  class Runtime {
    var config: TabPFNConfig
    ghost var printed: seq<string>
    ghost var verificationQueries: seq<string>
    ghost var cacheResets: seq<AuthClient>
    ghost var cacheDirRemovals: nat

    function State(): ConfigState
      reads this, config
    {
      config.Snapshot()
    }

    ghost predicate Valid()
      reads this, config
    {
      Inv(State())
    }

    /** Module import: `g_tabpfn_config = TabPFNConfig()`. */
    constructor ()
      ensures Valid() && fresh(config) && State() == EmptyConfig()
      ensures printed == [] && verificationQueries == [] && cacheResets == [] && cacheDirRemovals == 0
    {
      config := new TabPFNConfig();
      printed, verificationQueries, cacheResets, cacheDirRemovals := [], [], [], 0;
    }

    /** `init(use_server)`. The fields are written in the order of the source:
        the email right after the login prompt, then `use_server` and the two
        handlers, and `is_initialized` last. The new state is `InitStep` of the
        old one, with the handlers this call installed. */
    method Init(useServer: bool, o: ServerOracle) returns (err: Option<InitError>)
      modifies config
      ensures InitStep(old(State()), useServer, o, config.userAuthHandler, config.inferenceHandler)
              == InitOutcome(State(), err)
      ensures useServer && err.None? ==> fresh(config.userAuthHandler) && fresh(config.inferenceHandler)
      ensures old(Valid()) ==> Valid()
    {
      if useServer {
        var authHandler := new AuthClient;
        if !o.accessible {
          return Some(Inaccessible);
        }
        if !o.tokenReused {
          if !o.termsAccepted {
            return Some(TermsRefused);
          }
          config.userEmail := o.loginEmail;
        }
        if !o.greetingsFetched {
          return Some(GreetingsFailed);
        }
        config.useServer := Some(true);
        config.userAuthHandler := authHandler;
        config.inferenceHandler := new InferenceClient;
      } else {
        config.useServer := Some(false);
      }
      config.isInitialized := Some(true);
      err := None;
    }

    /** `reset()` as written: the global is rebound to a fresh object first, so
        the `use_server` test reads None and `reset_cache` is never called;
        then the cache directory is removed (absence ignored). */
    method Reset()
      modifies this
      ensures Valid() && fresh(config) && State() == EmptyConfig()
      ensures cacheResets == old(cacheResets)
      ensures cacheDirRemovals == old(cacheDirRemovals) + 1
      ensures printed == old(printed) && verificationQueries == old(verificationQueries)
    {
      config := new TabPFNConfig();
      // the step tests the fresh object, whose use_server is None
      var target := CacheResetTarget(config.Snapshot());
      cacheResets := cacheResets + ResetHandlers(target);
      cacheDirRemovals := cacheDirRemovals + (if target.HandlerMissing? then 0 else 1);
    }

    /** `reset()` as evidently intended: the cache of the configuration being
        replaced is reset when it was in server mode. An AttributeError (server
        mode without a handler) still skips the directory removal; no valid
        configuration raises it. */
    method ResetIntended()
      modifies this
      ensures Valid() && fresh(config) && State() == EmptyConfig()
      ensures cacheResets == old(cacheResets) + ResetHandlers(CacheResetTarget(old(State())))
      ensures cacheDirRemovals ==
              old(cacheDirRemovals) + (if CacheResetTarget(old(State())).HandlerMissing? then 0 else 1)
      ensures old(Valid()) && IsTrue(old(State()).useServer) ==> |cacheResets| == |old(cacheResets)| + 1
      ensures old(Valid()) ==> cacheDirRemovals == old(cacheDirRemovals) + 1
      ensures printed == old(printed) && verificationQueries == old(verificationQueries)
    {
      var target := CacheResetTarget(config.Snapshot());
      config := new TabPFNConfig();
      cacheResets := cacheResets + ResetHandlers(target);
      cacheDirRemovals := cacheDirRemovals + (if target.HandlerMissing? then 0 else 1);
    }
  }
}
