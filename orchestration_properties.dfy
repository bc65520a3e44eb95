/** What the upgrade orchestrator promises, proved about the reference definitions of
    module Orchestration (and so, through their contracts, about the class's methods).
 */
module OrchestrationProperties {
  import opened Collaborators
  import opened Orchestration

  // ---------------------------------------------------------------------------
  // TryRunUpgrade

  /** An ineligible upgrade deletes the installer downloads, prints the reason and
      succeeds with neither a version nor an error; no later stage runs. */
  lemma IneligibleOnlyDeletesDownloads(u: UpgraderScript, c: CheckerScript)
    requires u.allowed.Fail?
    ensures var r := RunUpgrade(u, c);
      r.ok && r.newVersion == None && r.error == None
      && r.output == [u.allowed.message]
      && r.events == [UpgradeAllowed, DeleteAllDownloads]
      && forall st :: Ran(st) !in r.events
  {
  }

  /** The if-cascade of TryRunUpgrade agrees with the pipeline reading: after the
      eligibility gate the stages run in order up to the first one that does not let the
      attempt continue; an aborting stage makes the run fail with that stage's error,
      "nothing newer" ends it successfully after printing the query's message, and a
      version is returned exactly when every stage continued. */
  lemma RunUpgradeFollowsPipeline(u: UpgraderScript, c: CheckerScript)
    requires u.allowed.Pass?
    ensures var r := RunUpgrade(u, c);
      var stop := FirstStop(u, c, Pipeline);
      r.events == [UpgradeAllowed] + StageEvents(stop.0)
      && r.ok == !stop.1.Abort?
      && r.error == (if stop.1.Abort? then Some(stop.1.message) else None)
      && r.output == (if stop.1.Finish? then [stop.1.message] else [])
      && (r.newVersion.Some? <==> stop.1 == Continue)
  {
    RunUpgradeRunsThePipeline(u, c);
    RunUpgradeReportsTheStop(u, c);
  }

  /** The stages TryRunUpgrade runs are those the pipeline runs. */
  lemma RunUpgradeRunsThePipeline(u: UpgraderScript, c: CheckerScript)
    requires u.allowed.Pass?
    ensures RunUpgrade(u, c).events == [UpgradeAllowed] + StageEvents(FirstStop(u, c, Pipeline).0)
  {
    var k := StagesRun(u, c);
    PipelineStops(u, c);
    FirstStopIsFirst(u, c, Pipeline);
    RunUpgradeEvents(u, c);
    PipelinePrefixEvents(k);
  }

  /** How many stages an eligible run reaches. */
  function StagesRun(u: UpgraderScript, c: CheckerScript): nat {
    if c.preflight.Fail? then 1
    else if !u.query.Found? then 2
    else if u.download.Fail? then 3
    else if c.notBlocked.Fail? then 4
    else 5
  }

  const AllRan: seq<Event> := [Ran(Preflight), Ran(Query), Ran(Download), Ran(BlockCheck), Ran(Install)]

  /** The trace of an eligible TryRunUpgrade: the gate, then the stages it reaches. */
  lemma RunUpgradeEvents(u: UpgraderScript, c: CheckerScript)
    requires u.allowed.Pass?
    ensures RunUpgrade(u, c).events == [UpgradeAllowed] + AllRan[..StagesRun(u, c)]
  {
  }

  /** What TryRunUpgrade returns is what the pipeline's verdict says. */
  lemma RunUpgradeReportsTheStop(u: UpgraderScript, c: CheckerScript)
    requires u.allowed.Pass?
    ensures var r := RunUpgrade(u, c);
      var stop := FirstStop(u, c, Pipeline);
      r.ok == !stop.1.Abort?
      && r.error == (if stop.1.Abort? then Some(stop.1.message) else None)
      && r.output == (if stop.1.Finish? then [stop.1.message] else [])
      && (r.newVersion.Some? <==> stop.1 == Continue)
  {
    PipelineStops(u, c);
  }

  /** The trace of the first `k` stages of the pipeline. */
  lemma PipelinePrefixEvents(k: nat)
    requires k <= |Pipeline|
    ensures StageEvents(Pipeline[..k]) == AllRan[..k]
  {
    var t := StageEvents(Pipeline[..k]);
    assert forall i | 0 <= i < |AllRan| :: AllRan[i] == Ran(Pipeline[i]);
    assert forall i | 0 <= i < k :: t[i] == AllRan[..k][i];
  }

  /** Where the pipeline stops, case by case: the number of stages that ran (they are a
      prefix of Pipeline) and the verdict. */
  lemma PipelineStops(u: UpgraderScript, c: CheckerScript)
    ensures |FirstStop(u, c, Pipeline).0| == StagesRun(u, c)
    ensures var stop := FirstStop(u, c, Pipeline);
      (|stop.0|, stop.1) ==
        if c.preflight.Fail? then (1, Abort(c.preflight.message))
        else if u.query.QueryFailed? then (2, Abort(u.query.message))
        else if u.query.NoneNewer? then (2, Finish(u.query.message))
        else if u.download.Fail? then (3, Abort(u.download.message))
        else if c.notBlocked.Fail? then (4, Abort(c.notBlocked.message))
        else if u.install.Fail? then (5, Abort(u.install.message))
        else (5, Continue)
  {
    var s4, s3, s2, s1 := [Install], [BlockCheck, Install], [Download, BlockCheck, Install], [Query, Download, BlockCheck, Install];
    assert s4 == [Install] + [] && s3 == [BlockCheck] + s4 && s2 == [Download] + s3;
    assert s1 == [Query] + s2 && Pipeline == [Preflight] + s1;
    StopStep(u, c, Install, []);
    StopStep(u, c, BlockCheck, s4);
    StopStep(u, c, Download, s3);
    StopStep(u, c, Query, s2);
    StopStep(u, c, Preflight, s1);
  }

  /** One step of FirstStop: the first stage runs, and the rest run only when it continues. */
  lemma StopStep(u: UpgraderScript, c: CheckerScript, first: Stage, rest: seq<Stage>)
    ensures var v := StageVerdict(u, c, first);
      var tail := FirstStop(u, c, rest);
      FirstStop(u, c, [first] + rest) == if v == Continue then ([first] + tail.0, tail.1) else ([first], v)
  {
    assert ([first] + rest)[1..] == rest;
  }

  /** Every stage TryRunUpgrade runs, except the last one, passed: each stage is gated on
      the one before it. */
  lemma StagesAreGated(u: UpgraderScript, c: CheckerScript)
    ensures var r := RunUpgrade(u, c);
      forall k :: 1 <= k < |r.events| - 1 ==> r.events[k].Ran? && StageVerdict(u, c, r.events[k].stage) == Continue
  {
    var r := RunUpgrade(u, c);
    if u.allowed.Pass? {
      RunUpgradeFollowsPipeline(u, c);
      FirstStopIsFirst(u, c, Pipeline);
      var stop := FirstStop(u, c, Pipeline);
      var ran := StageEvents(stop.0);
      forall k | 1 <= k < |r.events| - 1
        ensures r.events[k].Ran? && StageVerdict(u, c, r.events[k].stage) == Continue
      {
        assert r.events[k] == ran[k - 1] == Ran(stop.0[k - 1]);
      }
    }
  }

  /** When the query finds nothing newer, TryRunUpgrade prints the query's message and
      succeeds with neither a version nor an error, without downloading, checking for
      blocking processes or installing. */
  lemma UpToDateSkipsTheRest(u: UpgraderScript, c: CheckerScript)
    requires u.allowed.Pass? && c.preflight.Pass? && u.query.NoneNewer?
    ensures var r := RunUpgrade(u, c);
      r.ok && r.newVersion == None && r.error == None && r.output == [u.query.message]
      && Ran(Download) !in r.events && Ran(BlockCheck) !in r.events && Ran(Install) !in r.events
  {
  }

  /** A failing query makes TryRunUpgrade fail with the query's message, before any download. */
  lemma QueryFailureIsAnError(u: UpgraderScript, c: CheckerScript)
    requires u.allowed.Pass? && c.preflight.Pass? && u.query.QueryFailed?
    ensures var r := RunUpgrade(u, c);
      !r.ok && r.newVersion == None && r.error == Some(u.query.message) && r.output == []
      && Ran(Download) !in r.events
  {
  }

  /** The download is attempted only after the eligibility gate, the preflight checks and a
      query that produced a version, and the installer only after a successful download
      and blocking-process check. */
  lemma DownloadAndInstallAreGuarded(u: UpgraderScript, c: CheckerScript)
    ensures var r := RunUpgrade(u, c);
      (Ran(Download) in r.events ==> u.allowed.Pass? && c.preflight.Pass? && u.query.Found?)
      && (Ran(Install) in r.events ==> u.download.Pass? && c.notBlocked.Pass?)
  {
  }

  /** A blocked installation fails with the checker's error and never runs the installer;
      a failing installer fails with its own error and reports no version, although the
      download succeeded. */
  lemma BlockingAndInstallerFailures(u: UpgraderScript, c: CheckerScript)
    requires u.allowed.Pass? && c.preflight.Pass? && u.query.Found? && u.download.Pass?
    ensures var r := RunUpgrade(u, c);
      (c.notBlocked.Fail? ==>
         !r.ok && r.newVersion == None && r.error == Some(c.notBlocked.message) && Ran(Install) !in r.events)
      && (c.notBlocked.Pass? && u.install.Fail? ==>
         !r.ok && r.newVersion == None && r.error == Some(u.install.message) && Ran(Install) in r.events)
  {
  }

  /** Only a run in which every step passes returns a version, and then it returns the
      queried version with no error. */
  lemma OnlyFullSuccessReturnsVersion(u: UpgraderScript, c: CheckerScript)
    ensures var r := RunUpgrade(u, c);
      (r.newVersion.Some? <==>
         u.allowed.Pass? && c.preflight.Pass? && u.query.Found? && u.download.Pass?
         && c.notBlocked.Pass? && u.install.Pass?)
      && (r.newVersion.Some? ==> r.newVersion == Some(u.query.version) && r.error == None)
  {
  }

  // ---------------------------------------------------------------------------
  // TryInitialize

  /** The four outcomes of TryInitialize. */
  lemma InitializationOutcomes(current: Option<Upgrader>, env: Environment, cfg: Settings)
    ensures var r := Initialize(current, env, cfg);
      (current.Some? ==> r.ok && r.upgrader == current && r.events == [])
      && (current.None? && IsNullOrEmpty(env.gitBinPath) ==>
            !r.ok && r.error == Some(GitNotFoundMessage) && r.upgrader == None)
      && (current.None? && !IsNullOrEmpty(env.gitBinPath) && env.factory.Refused? ==>
            !r.ok && r.error == Some(env.factory.message) && r.upgrader == None)
      && (current.None? && !IsNullOrEmpty(env.gitBinPath) && env.factory.Created? ==>
            r.ok && r.upgrader == Some(Upgrader(env.factory.script, Some(cfg.installationId))))
  {
  }

  // ---------------------------------------------------------------------------
  // Execute

  /** The initialisation an Execute call from `s` performs. */
  function InitOf(s: Snapshot, cfg: Settings, env: Environment): InitResult {
    Initialize(s.upgrader, env, cfg)
  }

  /** The upgrade run an Execute call from `s` performs once initialisation succeeded. */
  function RunOf(s: Snapshot, cfg: Settings, env: Environment): RunResult
    requires InitOf(s, cfg, env).ok
  {
    RunUpgrade(InitOf(s, cfg, env).upgrader.value.script, Prepare(s, env).preRunChecker.value)
  }

  /** The calls an Execute call makes after creating the tracer and the pre-run checker,
      given how initialisation went: initialisation's own calls, then, when it produced an
      upgrader, the upgrade run and the cleanup, and the disposal. */
  function AttemptTrace(init: InitResult, checker: CheckerScript): seq<Event> {
    init.events + AttemptRun(init, checker) + if init.upgrader.Some? then [Dispose] else []
  }

  /** The upgrade run and the cleanup, when initialisation produced an upgrader. */
  function AttemptRun(init: InitResult, checker: CheckerScript): seq<Event> {
    if init.upgrader.Some?
    then RunUpgrade(init.upgrader.value.script, checker).events + CleanupTrace(init.upgrader.value.script.cleanup)
    else []
  }

  /** The trace of one Execute call: the creations, then the attempt. */
  lemma ExecuteTrace(s: Snapshot, cfg: Settings, env: Environment)
    ensures Execute(s, cfg, env).events
      == s.events + Creations(s) + AttemptTrace(InitOf(s, cfg, env), Prepare(s, env).preRunChecker.value)
  {
    var p := Prepare(s, env);
    AttemptThenConclude(p, cfg, env);
  }

  /** The attempt and the final disposal on a prepared state make AttemptTrace. */
  lemma AttemptThenConclude(p: Snapshot, cfg: Settings, env: Environment)
    requires p.preRunChecker.Some?
    ensures Conclude(TryAttempt(p, cfg, env), cfg, env.newLine).events
      == p.events + AttemptTrace(Initialize(p.upgrader, env, cfg), p.preRunChecker.value)
  {
    var init := Initialize(p.upgrader, env, cfg);
    var a := TryAttempt(p, cfg, env);
    AttemptEvents(p, cfg, env);
    Associate(p.events, init.events + AttemptRun(init, p.preRunChecker.value),
              if init.upgrader.Some? then [Dispose] else []);
  }

  /** The calls of the attempt on a prepared state, and the upgrader it leaves. */
  lemma AttemptEvents(p: Snapshot, cfg: Settings, env: Environment)
    requires p.preRunChecker.Some?
    ensures var init := Initialize(p.upgrader, env, cfg);
      var a := TryAttempt(p, cfg, env);
      a.state.upgrader == init.upgrader
      && a.state.events == p.events + (init.events + AttemptRun(init, p.preRunChecker.value))
  {
    var init := Initialize(p.upgrader, env, cfg);
    if init.upgrader.Some? {
      var u := init.upgrader.value;
      Regroup(p.events, init.events, RunUpgrade(u.script, p.preRunChecker.value).events, CleanupTrace(u.script.cleanup));
    } else {
      assert init.events + [] == init.events;
    }
  }

  /** Regrouping concatenations, stated once for the traces above. */
  lemma Associate(a: seq<Event>, b: seq<Event>, c: seq<Event>)
    ensures a + b + c == a + (b + c)
  {
  }

  lemma Regroup(a: seq<Event>, b: seq<Event>, c: seq<Event>, d: seq<Event>)
    ensures a + b + c + d == a + (b + (c + d))
  {
  }

  /** How often `e` occurs in the trace of one Execute call: in the earlier trace, in the
      creations and in the attempt. */
  lemma {:induction false} ExecuteCount(s: Snapshot, cfg: Settings, env: Environment, e: Event)
    ensures Count(Execute(s, cfg, env).events, e)
      == Count(s.events, e) + Count(Creations(s), e)
         + Count(AttemptTrace(InitOf(s, cfg, env), Prepare(s, env).preRunChecker.value), e)
  {
    ExecuteTrace(s, cfg, env);
    var attempt := AttemptTrace(InitOf(s, cfg, env), Prepare(s, env).preRunChecker.value);
    CountAppend(s.events, Creations(s), e);
    CountAppend(s.events + Creations(s), attempt, e);
  }

  /** How often an event that initialisation does not make occurs in the attempt. */
  lemma {:induction false} AttemptCount(init: InitResult, checker: CheckerScript, e: Event)
    requires e !in init.events
    ensures Count(AttemptTrace(init, checker), e)
      == if init.upgrader.Some?
         then Count(RunUpgrade(init.upgrader.value.script, checker).events, e)
              + Count(CleanupTrace(init.upgrader.value.script.cleanup), e) + Count([Dispose], e)
         else 0
  {
    var run := AttemptRun(init, checker);
    var disposal := if init.upgrader.Some? then [Dispose] else [];
    CountAppend(init.events, run, e);
    CountAppend(init.events + run, disposal, e);
    if init.upgrader.Some? {
      var u := init.upgrader.value;
      CountAppend(RunUpgrade(u.script, checker).events, CleanupTrace(u.script.cleanup), e);
    }
  }

  /** Initialisation itself neither creates, runs, cleans up nor disposes anything. */
  lemma InitializeMakesNoOtherCall(s: Snapshot, cfg: Settings, env: Environment, e: Event)
    requires !e.LocateGit? && !e.CreateUpgrader?
    ensures e !in InitOf(s, cfg, env).events
  {
  }

  /** The attempt cleans up once when there is an upgrader, and not at all otherwise. */
  lemma AttemptCleansUpOnce(init: InitResult, checker: CheckerScript)
    requires Cleanup !in init.events
    ensures Count(AttemptTrace(init, checker), Cleanup) == if init.upgrader.Some? then 1 else 0
  {
    AttemptCount(init, checker, Cleanup);
    if init.upgrader.Some? {
      assert Cleanup !in RunUpgrade(init.upgrader.value.script, checker).events;
      assert Cleanup !in [Dispose];
    }
  }

  /** The attempt disposes once, as its last call, when there is an upgrader, and not at
      all otherwise. */
  lemma AttemptDisposesOnce(init: InitResult, checker: CheckerScript)
    requires Dispose !in init.events
    ensures var t := AttemptTrace(init, checker);
      Count(t, Dispose) == (if init.upgrader.Some? then 1 else 0)
      && (init.upgrader.Some? ==> |t| > 0 && t[|t| - 1] == Dispose)
  {
    AttemptCount(init, checker, Dispose);
    if init.upgrader.Some? {
      var u := init.upgrader.value;
      assert Dispose !in RunUpgrade(u.script, checker).events;
      assert Dispose !in CleanupTrace(u.script.cleanup);
      assert Count([Dispose], Dispose) == 1;
    }
  }

  /** The attempt creates neither a tracer nor a pre-run checker. */
  lemma AttemptCreatesNothing(init: InitResult, checker: CheckerScript, e: Event)
    requires e == CreateTracer || e == CreatePreRunChecker
    requires e !in init.events
    ensures Count(AttemptTrace(init, checker), e) == 0
  {
    AttemptCount(init, checker, e);
    if init.upgrader.Some? {
      var u := init.upgrader.value;
      assert e !in RunUpgrade(u.script, checker).events && e !in CleanupTrace(u.script.cleanup) && e !in [Dispose];
    }
  }

  /** An attempt with an ineligible upgrader deletes the downloads once and runs no stage. */
  lemma IneligibleAttempt(init: InitResult, checker: CheckerScript, e: Event)
    requires init.upgrader.Some? && init.upgrader.value.script.allowed.Fail?
    requires e == DeleteAllDownloads || e.Ran?
    requires e !in init.events
    ensures Count(AttemptTrace(init, checker), e) == if e == DeleteAllDownloads then 1 else 0
  {
    var u := init.upgrader.value;
    AttemptCount(init, checker, e);
    assert RunUpgrade(u.script, checker).events == [UpgradeAllowed, DeleteAllDownloads];
    assert e !in CleanupTrace(u.script.cleanup) && e !in [Dispose];
    assert Count([UpgradeAllowed, DeleteAllDownloads], e) == Count([DeleteAllDownloads], e);
  }

  /** ExitCode starts as Success and only Execute sets it: it ends GenericError exactly
      when initialisation failed or TryRunUpgrade returned false. The ineligible and the
      up-to-date paths therefore end with Success. */
  lemma ExitCodeReflectsFailures(s: Snapshot, cfg: Settings, env: Environment)
    requires s.exitCode == Success
    ensures var t := Execute(s, cfg, env);
      (t.exitCode == GenericError <==> !InitOf(s, cfg, env).ok || !RunOf(s, cfg, env).ok)
      && t.environmentExitCode == Some(t.exitCode)
  {
  }

  /** TryCleanup runs exactly once when initialisation succeeds, whatever TryRunUpgrade
      returned, and not at all when it fails. */
  lemma CleanupOnceAfterInitialization(s: Snapshot, cfg: Settings, env: Environment)
    ensures var t := Execute(s, cfg, env);
      Count(t.events, Cleanup) == Count(s.events, Cleanup) + (if InitOf(s, cfg, env).ok then 1 else 0)
  {
    ExecuteCount(s, cfg, env, Cleanup);
    InitializeMakesNoOtherCall(s, cfg, env, Cleanup);
    AttemptCleansUpOnce(InitOf(s, cfg, env), Prepare(s, env).preRunChecker.value);
    assert Cleanup !in Creations(s);
  }

  /** The upgrader is disposed, once and as the last call, whenever one exists; when
      initialisation fails there is none and nothing is disposed. */
  lemma DisposedOnEveryPath(s: Snapshot, cfg: Settings, env: Environment)
    ensures var t := Execute(s, cfg, env);
      (t.upgrader.Some? <==> InitOf(s, cfg, env).ok)
      && Count(t.events, Dispose) == Count(s.events, Dispose) + (if t.upgrader.Some? then 1 else 0)
      && (t.upgrader.Some? ==> t.events[|t.events| - 1] == Dispose)
  {
    var init := InitOf(s, cfg, env);
    var attempt := AttemptTrace(init, Prepare(s, env).preRunChecker.value);
    assert TryAttempt(Prepare(s, env), cfg, env).state.upgrader == init.upgrader;
    ExecuteCount(s, cfg, env, Dispose);
    ExecuteTrace(s, cfg, env);
    InitializeMakesNoOtherCall(s, cfg, env, Dispose);
    AttemptDisposesOnce(init, Prepare(s, env).preRunChecker.value);
    assert Dispose !in Creations(s);
  }

  /** A failing cleanup is only logged: it changes neither the exit code nor the output,
      and the trace differs only by the logged error before the disposal. */
  lemma CleanupFailureOnlyLogged(s: Snapshot, cfg: Settings, env: Environment, u: Upgrader, message: string)
    ensures var passing := Execute(s.(upgrader := Some(u.(script := u.script.(cleanup := Pass)))), cfg, env);
      var failing := Execute(s.(upgrader := Some(u.(script := u.script.(cleanup := Fail(message))))), cfg, env);
      passing.exitCode == failing.exitCode && passing.output == failing.output
      && passing.environmentExitCode == failing.environmentExitCode
      && failing.events == passing.events[..|passing.events| - 1] + [CleanupErrorLogged(message), Dispose]
  {
    var up := u.(script := u.script.(cleanup := Pass));
    var uf := u.(script := u.script.(cleanup := Fail(message)));
    var p := Prepare(s, env);
    PrepareKeepsTheUpgrader(s, env, up);
    PrepareKeepsTheUpgrader(s, env, uf);
    AttemptCleanupOnlyLogged(p, cfg, env, u, message);
    var ap := TryAttempt(p.(upgrader := Some(up)), cfg, env);
    var af := TryAttempt(p.(upgrader := Some(uf)), cfg, env);
    ConcludeSeesOnlyTheOutcome(ap, af, cfg, env.newLine);
  }

  /** The same on the production path: the upgrader is the one TryInitialize has the
      factory create, and only the cleanup outcome of its script differs. */
  lemma CreatedCleanupFailureOnlyLogged(s: Snapshot, cfg: Settings, env: Environment, u: UpgraderScript, message: string)
    requires s.upgrader.None? && !IsNullOrEmpty(env.gitBinPath)
    ensures var passing := Execute(s, cfg, env.(factory := Created(u.(cleanup := Pass))));
      var failing := Execute(s, cfg, env.(factory := Created(u.(cleanup := Fail(message)))));
      passing.exitCode == failing.exitCode && passing.output == failing.output
      && passing.environmentExitCode == failing.environmentExitCode
      && failing.events == passing.events[..|passing.events| - 1] + [CleanupErrorLogged(message), Dispose]
  {
    var ep := env.(factory := Created(u.(cleanup := Pass)));
    var ef := env.(factory := Created(u.(cleanup := Fail(message))));
    var p := Prepare(s, env);
    assert Prepare(s, ep) == p && Prepare(s, ef) == p;
    AttemptCreatedCleanupOnlyLogged(p, cfg, env, u, message);
    ConcludeSeesOnlyTheOutcome(TryAttempt(p, cfg, ep), TryAttempt(p, cfg, ef), cfg, env.newLine);
  }

  /** The attempt on the production path: a failing cleanup of the created upgrader adds
      the logged error to the trace and changes nothing else. */
  lemma AttemptCreatedCleanupOnlyLogged(p: Snapshot, cfg: Settings, env: Environment, u: UpgraderScript, message: string)
    requires p.preRunChecker.Some? && p.upgrader.None? && !IsNullOrEmpty(env.gitBinPath)
    ensures var ap := TryAttempt(p, cfg, env.(factory := Created(u.(cleanup := Pass))));
      var af := TryAttempt(p, cfg, env.(factory := Created(u.(cleanup := Fail(message)))));
      ap.error == af.error && ap.newVersion == af.newVersion
      && ap.state.exitCode == af.state.exitCode && ap.state.output == af.state.output
      && ap.state.upgrader.Some? && af.state.upgrader.Some?
      && ap.state.environmentExitCode == af.state.environmentExitCode
      && af.state.events == ap.state.events + [CleanupErrorLogged(message)]
  {
    var up := u.(cleanup := Pass);
    var uf := u.(cleanup := Fail(message));
    assert RunUpgrade(uf, p.preRunChecker.value) == RunUpgrade(up, p.preRunChecker.value);
  }

  /** Preparing does not look at the upgrader. */
  lemma PrepareKeepsTheUpgrader(s: Snapshot, env: Environment, u: Upgrader)
    ensures Prepare(s.(upgrader := Some(u)), env) == Prepare(s, env).(upgrader := Some(u))
  {
  }

  /** Conclude reads the exit code, the output, the error text and the new version of an
      attempt, and disposes the upgrader when there is one. */
  lemma ConcludeSeesOnlyTheOutcome(a: Attempt, b: Attempt, cfg: Settings, newLine: string)
    requires a.error == b.error && a.newVersion == b.newVersion
    requires a.state.exitCode == b.state.exitCode && a.state.output == b.state.output
    requires a.state.upgrader.Some? && b.state.upgrader.Some?
    ensures var ta, tb := Conclude(a, cfg, newLine), Conclude(b, cfg, newLine);
      ta.exitCode == tb.exitCode && ta.output == tb.output
      && ta.environmentExitCode == tb.environmentExitCode
      && ta.events == a.state.events + [Dispose] && tb.events == b.state.events + [Dispose]
      && ta.events[..|ta.events| - 1] == a.state.events
  {
    var ta := Conclude(a, cfg, newLine);
    assert ta.events[..|ta.events| - 1] == a.state.events;
  }

  /** The same for the attempt alone: a failing cleanup adds the logged error to the trace
      and changes nothing else. */
  lemma AttemptCleanupOnlyLogged(p: Snapshot, cfg: Settings, env: Environment, u: Upgrader, message: string)
    requires p.preRunChecker.Some?
    ensures var ap := TryAttempt(p.(upgrader := Some(u.(script := u.script.(cleanup := Pass)))), cfg, env);
      var af := TryAttempt(p.(upgrader := Some(u.(script := u.script.(cleanup := Fail(message))))), cfg, env);
      ap.error == af.error && ap.newVersion == af.newVersion
      && ap.state.exitCode == af.state.exitCode && ap.state.output == af.state.output
      && ap.state.upgrader.Some? && af.state.upgrader.Some?
      && ap.state.environmentExitCode == af.state.environmentExitCode
      && af.state.events == ap.state.events + [CleanupErrorLogged(message)]
  {
    var up := u.(script := u.script.(cleanup := Pass));
    var uf := u.(script := u.script.(cleanup := Fail(message)));
    var run := RunUpgrade(up.script, p.preRunChecker.value);
    assert RunUpgrade(uf.script, p.preRunChecker.value) == run;
  }

  /** Execute creates the tracer and the pre-run checker only when they are missing, so
      two Execute calls create each at most once. */
  lemma {:induction false} TracerAndCheckerCreatedAtMostOnce(s: Snapshot, cfg: Settings, env1: Environment, env2: Environment)
    ensures var t := Execute(Execute(s, cfg, env1), cfg, env2);
      Count(t.events, CreateTracer) == Count(s.events, CreateTracer) + (if s.hasTracer then 0 else 1)
      && Count(t.events, CreatePreRunChecker) == Count(s.events, CreatePreRunChecker) + (if s.preRunChecker.Some? then 0 else 1)
  {
    var t1 := Execute(s, cfg, env1);
    CreatedOnlyWhenMissing(s, cfg, env1, CreateTracer);
    CreatedOnlyWhenMissing(s, cfg, env1, CreatePreRunChecker);
    CreatedOnlyWhenMissing(t1, cfg, env2, CreateTracer);
    CreatedOnlyWhenMissing(t1, cfg, env2, CreatePreRunChecker);
  }

  /** One Execute call creates the tracer, and the pre-run checker, once when it is missing
      and not at all when it is there. */
  lemma CreatedOnlyWhenMissing(s: Snapshot, cfg: Settings, env: Environment, e: Event)
    requires e == CreateTracer || e == CreatePreRunChecker
    ensures var t := Execute(s, cfg, env);
      var missing := if e == CreateTracer then !s.hasTracer else s.preRunChecker.None?;
      Count(t.events, e) == Count(s.events, e) + (if missing then 1 else 0)
  {
    ExecuteCount(s, cfg, env, e);
    InitializeMakesNoOtherCall(s, cfg, env, e);
    AttemptCreatesNothing(InitOf(s, cfg, env), Prepare(s, env).preRunChecker.value, e);
    CountAppend(if s.hasTracer then [] else [CreateTracer], if s.preRunChecker.Some? then [] else [CreatePreRunChecker], e);
  }

  /** An Execute call on an ineligible upgrade runs no stage, deletes the downloads once
      and leaves ExitCode as it was. */
  lemma IneligibleExecuteRunsNoStage(s: Snapshot, cfg: Settings, env: Environment)
    requires InitOf(s, cfg, env).ok && InitOf(s, cfg, env).upgrader.value.script.allowed.Fail?
    ensures var t := Execute(s, cfg, env);
      t.exitCode == s.exitCode
      && Count(t.events, DeleteAllDownloads) == Count(s.events, DeleteAllDownloads) + 1
      && forall st :: Count(t.events, Ran(st)) == Count(s.events, Ran(st))
  {
    IneligibleExecuteCount(s, cfg, env, DeleteAllDownloads);
    forall st: Stage
      ensures Count(Execute(s, cfg, env).events, Ran(st)) == Count(s.events, Ran(st))
    {
      IneligibleExecuteCount(s, cfg, env, Ran(st));
    }
  }

  /** The downloads deletions and stage runs of an ineligible Execute call. */
  lemma IneligibleExecuteCount(s: Snapshot, cfg: Settings, env: Environment, e: Event)
    requires InitOf(s, cfg, env).ok && InitOf(s, cfg, env).upgrader.value.script.allowed.Fail?
    requires e == DeleteAllDownloads || e.Ran?
    ensures Count(Execute(s, cfg, env).events, e) == Count(s.events, e) + if e == DeleteAllDownloads then 1 else 0
  {
    ExecuteCount(s, cfg, env, e);
    InitializeMakesNoOtherCall(s, cfg, env, e);
    IneligibleAttempt(InitOf(s, cfg, env), Prepare(s, env).preRunChecker.value, e);
    assert e !in Creations(s);
  }

  /** The final output of Execute: on GenericError the error report, with the log
      directory and the installation id; on Success the completion line exactly when a
      new version was installed, and nothing otherwise; then the prompt when the input is
      the console. */
  lemma FinalMessage(s: Snapshot, cfg: Settings, env: Environment)
    ensures var t := Execute(s, cfg, env);
      var init := InitOf(s, cfg, env);
      var prompt := if cfg.interactive then [PressEnterPrompt] else [];
      var staged := if init.ok then RunOf(s, cfg, env).output else [];
      var error := if init.ok then RunOf(s, cfg, env).error else init.error;
      var installed := init.ok && RunOf(s, cfg, env).newVersion.Some?;
      (t.exitCode == GenericError ==>
         t.output == s.output + staged + [ErrorReport(error, cfg, env.newLine)] + prompt)
      && (t.exitCode == Success && installed ==>
         t.output == s.output + staged + [CompletedMessage(env.newLine)] + prompt)
      && (t.exitCode == Success && !installed ==>
         t.output == s.output + staged + prompt)
  {
  }

  /** An upgrader that initialisation creates carries the orchestrator's installation id;
      an existing upgrader is kept as it is. */
  lemma InstallationIdStamped(s: Snapshot, cfg: Settings, env: Environment)
    ensures var t := Execute(s, cfg, env);
      (s.upgrader.None? && t.upgrader.Some? ==> t.upgrader.value.instanceId == Some(cfg.installationId))
      && (s.upgrader.Some? ==> t.upgrader == s.upgrader)
  {
  }
}
