/** Reference definitions of one upgrade attempt (UpgradeOrchestrator.cs), as functions
    of the orchestrator's state before the call and of the collaborators' scripted answers.
    The class in upgrade_orchestrator.dfy is proved against these; the lemmas in
    orchestration_properties.dfy state what the upgrader promises about them.
 */
module Orchestration {
  import opened Collaborators

  /** The orchestrator's ExitCode property. */
  datatype ReturnCode = Success | GenericError

  /** The command-line options of the upgrade verb. */
  datatype UpgradeOptions = UpgradeOptions(dryRun: bool, noVerify: bool)

  /** What an orchestrator fixes at construction and never changes: the installation id,
      the log directory, the DryRun and NoVerify flags, and whether its input is the
      console (so that Execute ends with the "Press Enter to exit." prompt). */
  datatype Settings = Settings(
    installationId: string,
    logDirectory: string,
    dryRun: bool,
    noVerify: bool,
    interactive: bool)

  /** The orchestrator's mutable state: ExitCode, the upgrader, whether a tracer exists, the
      pre-run checker, the lines written to the output, the process exit code set by
      Execute (None until then) and the trace of collaborator calls. */
  datatype Snapshot = Snapshot(
    exitCode: ReturnCode,
    upgrader: Option<Upgrader>,
    hasTracer: bool,
    preRunChecker: Option<CheckerScript>,
    output: seq<string>,
    environmentExitCode: Option<ReturnCode>,
    events: seq<Event>)

  /** The message as the source writes it: the interpolated string has no braces,
      so "nameof(this.TryInitialize)" appears literally. */
  const GitNotFoundMessage: string :=
    "nameof(this.TryInitialize): Unable to locate git installation. Ensure git is installed and try again."

  const PressEnterPrompt: string := "Press Enter to exit."

  /** string.IsNullOrEmpty */
  predicate IsNullOrEmpty(s: Option<string>) {
    s.None? || s.value == ""
  }

  /** C# string concatenation reads a null string as the empty one. */
  function OrEmpty(s: Option<string>): string {
    if s.None? then "" else s.value
  }

  /** The text Execute writes when ExitCode is GenericError. */
  function ErrorReport(error: Option<string>, cfg: Settings, newLine: string): (r: string)
    ensures newLine + "ERROR: " + OrEmpty(error) <= r
    ensures var tail := cfg.installationId + "." + newLine;
      |tail| <= |r| && r[|r| - |tail|..] == tail
  {
    var head := newLine + "ERROR: " + OrEmpty(error);
    var tail := cfg.installationId + "." + newLine;
    var r := head + (newLine + newLine + "Upgrade logs can be found at: " + cfg.logDirectory
                     + " with file names that end with the installation ID: ") + tail;
    assert r[|r| - |tail|..] == tail;
    r
  }

  function CompletedMessage(newLine: string): (r: string)
    ensures newLine <= r && r[|newLine|..] == "Upgrade completed successfully."
  {
    newLine + "Upgrade completed successfully."
  }

  // ---------------------------------------------------------------------------
  // TryInitialize

  datatype InitResult = InitResult(ok: bool, error: Option<string>, upgrader: Option<Upgrader>, events: seq<Event>)

  /** TryInitialize from the current upgrader: keep an existing one; otherwise locate
      git, ask the factory for an upgrader and stamp it with the installation id. */
  function Initialize(current: Option<Upgrader>, env: Environment, cfg: Settings): (r: InitResult)
    ensures r.ok <==> r.upgrader.Some?
    ensures r.ok <==> r.error.None?
    ensures current.Some? ==> r.upgrader == current
    ensures current.None? && r.ok ==> r.upgrader.value.instanceId == Some(cfg.installationId)
  {
    if current.Some? then
      InitResult(true, None, current, [])
    else if IsNullOrEmpty(env.gitBinPath) then
      InitResult(false, Some(GitNotFoundMessage), None, [LocateGit])
    else
      match env.factory
      case Refused(message) =>
        InitResult(false, Some(message), None, [LocateGit, CreateUpgrader(cfg.dryRun, cfg.noVerify)])
      case Created(script) =>
        InitResult(true, None, Some(Upgrader(script, Some(cfg.installationId))),
                   [LocateGit, CreateUpgrader(cfg.dryRun, cfg.noVerify)])
  }

  // ---------------------------------------------------------------------------
  // TryRunUpgrade

  datatype RunResult = RunResult(
    ok: bool,
    newVersion: Option<Version>,
    error: Option<string>,
    output: seq<string>,
    events: seq<Event>)

  /** TryRunUpgrade: the eligibility gate, then preflight, query and download inside the
      "Downloading" spinner, then the blocking-process check and the installer. */
  function RunUpgrade(u: UpgraderScript, c: CheckerScript): (r: RunResult)
    ensures r.ok <==> r.error.None?
    ensures r.newVersion.Some? ==> r.ok && u.query.Found? && r.newVersion.value == u.query.version
    ensures |r.events| >= 1 && r.events[0] == UpgradeAllowed
    ensures forall e :: e in r.events ==> e == UpgradeAllowed || e == DeleteAllDownloads || e.Ran?
  {
    if u.allowed.Fail? then
      RunResult(true, None, None, [u.allowed.message], [UpgradeAllowed, DeleteAllDownloads])
    else if c.preflight.Fail? then
      RunResult(false, None, Some(c.preflight.message), [], [UpgradeAllowed, Ran(Preflight)])
    else
      var queried := [UpgradeAllowed, Ran(Preflight), Ran(Query)];
      match u.query
      case QueryFailed(message) =>
        RunResult(false, None, Some(message), [], queried)
      case NoneNewer(message) =>
        RunResult(true, None, None, [message], queried)
      case Found(version) =>
        var downloaded := queried + [Ran(Download)];
        if u.download.Fail? then
          RunResult(false, None, Some(u.download.message), [], downloaded)
        else if c.notBlocked.Fail? then
          RunResult(false, None, Some(c.notBlocked.message), [], downloaded + [Ran(BlockCheck)])
        else if u.install.Fail? then
          RunResult(false, None, Some(u.install.message), [], downloaded + [Ran(BlockCheck), Ran(Install)])
        else
          RunResult(true, Some(version), None, [], downloaded + [Ran(BlockCheck), Ran(Install)])
  }

  // ---------------------------------------------------------------------------
  // An independent reading of the stage sequence: the stages run in pipeline order
  // and the first one that does not let the attempt continue ends it.

  datatype Verdict = Continue | Finish(message: string) | Abort(message: string)

  const Pipeline: seq<Stage> := [Preflight, Query, Download, BlockCheck, Install]

  /** What one stage's answer means for the attempt; the query's "nothing newer"
      ends it successfully. */
  function StageVerdict(u: UpgraderScript, c: CheckerScript, stage: Stage): Verdict {
    match stage
    case Preflight => OutcomeVerdict(c.preflight)
    case Query => (
      match u.query
      case QueryFailed(m) => Abort(m)
      case NoneNewer(m) => Finish(m)
      case Found(_) => Continue)
    case Download => OutcomeVerdict(u.download)
    case BlockCheck => OutcomeVerdict(c.notBlocked)
    case Install => OutcomeVerdict(u.install)
  }

  function OutcomeVerdict(o: Outcome): Verdict {
    if o.Fail? then Abort(o.message) else Continue
  }

  /** The stages of `stages` that run, up to and including the first one whose verdict is
      not Continue, and that verdict (Continue when every stage continued). */
  function FirstStop(u: UpgraderScript, c: CheckerScript, stages: seq<Stage>): (r: (seq<Stage>, Verdict))
    ensures |r.0| <= |stages|
    ensures r.1 != Continue ==> |r.0| > 0
    ensures r.1 == Continue ==> |r.0| == |stages|
  {
    if stages == [] then ([], Continue)
    else
      var v := StageVerdict(u, c, stages[0]);
      if v == Continue then
        var rest := FirstStop(u, c, stages[1..]);
        ([stages[0]] + rest.0, rest.1)
      else ([stages[0]], v)
  }

  /** What FirstStop computes: a prefix of `stages` in which every stage but the last
      continued, and the last one's verdict when it did not. */
  lemma {:induction false} FirstStopIsFirst(u: UpgraderScript, c: CheckerScript, stages: seq<Stage>)
    ensures var r := FirstStop(u, c, stages);
      && r.0 == stages[..|r.0|]
      && (forall i :: 0 <= i < |r.0| - 1 ==> StageVerdict(u, c, r.0[i]) == Continue)
      && (r.1 != Continue ==> StageVerdict(u, c, r.0[|r.0| - 1]) == r.1)
      && (r.1 == Continue ==> forall s :: s in stages ==> StageVerdict(u, c, s) == Continue)
  {
    if stages != [] && StageVerdict(u, c, stages[0]) == Continue {
      var rest := FirstStop(u, c, stages[1..]);
      FirstStopIsFirst(u, c, stages[1..]);
      assert stages == [stages[0]] + stages[1..];
    }
  }

  /** The trace of running `stages`. */
  function StageEvents(stages: seq<Stage>): (t: seq<Event>)
    ensures |t| == |stages| && forall i :: 0 <= i < |stages| ==> t[i] == Ran(stages[i])
  {
    if stages == [] then [] else [Ran(stages[0])] + StageEvents(stages[1..])
  }

  // ---------------------------------------------------------------------------
  // Execute

  /** DeletedDownloadedAssets: TryCleanup, and an error logged when it fails. */
  function CleanupTrace(cleanup: Outcome): (t: seq<Event>)
    ensures |t| >= 1 && t[0] == Cleanup
    ensures Count(t, Cleanup) == 1
  {
    [Cleanup] + (if cleanup.Fail? then [CleanupErrorLogged(cleanup.message)] else [])
  }

  /** The creations Execute performs on state `s`: the tracer and the pre-run checker,
      each only when it is missing. */
  function Creations(s: Snapshot): seq<Event> {
    (if s.hasTracer then [] else [CreateTracer])
    + (if s.preRunChecker.Some? then [] else [CreatePreRunChecker])
  }

  /** Lines 75-83: create the tracer and the pre-run checker when they are missing. */
  function Prepare(s: Snapshot, env: Environment): (p: Snapshot)
    ensures p.hasTracer && p.preRunChecker.Some?
    ensures s.preRunChecker.Some? ==> p.preRunChecker == s.preRunChecker
    ensures p.exitCode == s.exitCode && p.upgrader == s.upgrader && p.output == s.output
  {
    s.(hasTracer := true,
       preRunChecker := if s.preRunChecker.Some? then s.preRunChecker else Some(env.checker),
       events := s.events + Creations(s))
  }

  /** What lines 85-104 leave behind: the state, and the error text and the new version
      that the final report reads. */
  datatype Attempt = Attempt(state: Snapshot, error: Option<string>, newVersion: Option<Version>)

  /** Lines 85-104: initialise; when that succeeds, run the upgrade and, in its finally
      block, clean up the downloaded assets. */
  function TryAttempt(s: Snapshot, cfg: Settings, env: Environment): (a: Attempt)
    requires s.preRunChecker.Some?
    ensures a.state.hasTracer == s.hasTracer && a.state.preRunChecker == s.preRunChecker
    ensures a.state.environmentExitCode == s.environmentExitCode
    ensures s.exitCode == GenericError ==> a.state.exitCode == GenericError
  {
    var init := Initialize(s.upgrader, env, cfg);
    var initialized := s.(upgrader := init.upgrader, events := s.events + init.events);
    if !init.ok then
      Attempt(initialized.(exitCode := GenericError), init.error, None)
    else
      var u := init.upgrader.value;
      var run := RunUpgrade(u.script, s.preRunChecker.value);
      Attempt(initialized.(exitCode := if run.ok then s.exitCode else GenericError,
                           output := s.output + run.output,
                           events := initialized.events + run.events + CleanupTrace(u.script.cleanup)),
              run.error, run.newVersion)
  }

  /** The final message: the error report on GenericError, the completion line when a
      new version was installed, nothing otherwise. */
  function Report(exitCode: ReturnCode, error: Option<string>, newVersion: Option<Version>,
                  cfg: Settings, newLine: string): (r: seq<string>)
    ensures |r| <= 1
    ensures r == [] <==> exitCode.Success? && newVersion.None?
    ensures exitCode == GenericError ==> r == [ErrorReport(error, cfg, newLine)]
    ensures exitCode == Success && newVersion.Some? ==> r == [CompletedMessage(newLine)]
  {
    if exitCode == GenericError then [ErrorReport(error, cfg, newLine)]
    else if newVersion.Some? then [CompletedMessage(newLine)]
    else []
  }

  /** Lines 106-138: report, dispose the upgrader, prompt when the input is the console,
      and set the process exit code. */
  function Conclude(a: Attempt, cfg: Settings, newLine: string): (t: Snapshot)
    ensures t.exitCode == a.state.exitCode && t.environmentExitCode == Some(a.state.exitCode)
    ensures t.upgrader == a.state.upgrader && t.hasTracer == a.state.hasTracer
    ensures t.preRunChecker == a.state.preRunChecker
    ensures t.events == a.state.events + (if a.state.upgrader.Some? then [Dispose] else [])
    ensures |a.state.output| <= |t.output| && t.output[..|a.state.output|] == a.state.output
    ensures a.state.exitCode == GenericError ==>
      |t.output| > |a.state.output| && t.output[|a.state.output|] == ErrorReport(a.error, cfg, newLine)
    ensures cfg.interactive ==> |t.output| > 0 && t.output[|t.output| - 1] == PressEnterPrompt
    ensures !cfg.interactive && a.state.exitCode == Success && a.newVersion.None? ==> t.output == a.state.output
  {
    var s := a.state;
    s.(output := s.output + Report(s.exitCode, a.error, a.newVersion, cfg, newLine)
                 + (if cfg.interactive then [PressEnterPrompt] else []),
       events := s.events + (if s.upgrader.Some? then [Dispose] else []),
       environmentExitCode := Some(s.exitCode))
  }

  /** One Execute call on an orchestrator in state `s`. */
  function Execute(s: Snapshot, cfg: Settings, env: Environment): (t: Snapshot)
    ensures t.hasTracer && t.preRunChecker.Some?
    ensures s.preRunChecker.Some? ==> t.preRunChecker == s.preRunChecker
    ensures t.environmentExitCode == Some(t.exitCode)
    ensures s.exitCode == GenericError ==> t.exitCode == GenericError
  {
    Conclude(TryAttempt(Prepare(s, env), cfg, env), cfg, env.newLine)
  }
}
