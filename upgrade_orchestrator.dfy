/** The upgrade orchestrator of Scalar.Upgrader/UpgradeOrchestrator.cs as a class whose
    methods update its fields step by step. Every method is proved against the reference
    functions of module Orchestration: State() and Settings() give the abstract view that
    they speak about.
 */
module UpgradeOrchestration {
  import opened Collaborators
  import O = Orchestration

  class UpgradeOrchestrator {
    // fixed at construction
    const installationId: string
    const logDirectory: string
    const dryRun: bool
    const noVerify: bool
    const interactive: bool

    // updated by Execute and the steps it runs
    var exitCode: O.ReturnCode
    var upgrader: Option<Upgrader>
    var hasTracer: bool
    var preRunChecker: Option<CheckerScript>
    var output: seq<string>
    var environmentExitCode: Option<O.ReturnCode>
    ghost var events: seq<Event>

    function Settings(): O.Settings {
      O.Settings(installationId, logDirectory, dryRun, noVerify, interactive)
    }

    ghost function State(): O.Snapshot
      reads this
    {
      O.Snapshot(exitCode, upgrader, hasTracer, preRunChecker, output, environmentExitCode, events)
    }

    /** The constructor that receives its collaborators (tests and alternate entry points);
        DryRun and NoVerify keep their default, false. */
    constructor WithCollaborators(
      upgrader: Option<Upgrader>,
      hasTracer: bool,
      preRunChecker: Option<CheckerScript>,
      inputIsConsole: bool,
      installationId: string,
      logDirectory: string)
      ensures Settings() == O.Settings(installationId, logDirectory, false, false, inputIsConsole)
      ensures State() == O.Snapshot(O.Success, upgrader, hasTracer, preRunChecker, [], None, [])
    {
      this.installationId := installationId;
      this.logDirectory := logDirectory;
      this.dryRun := false;
      this.noVerify := false;
      this.interactive := inputIsConsole;
      this.upgrader := upgrader;
      this.hasTracer := hasTracer;
      this.preRunChecker := preRunChecker;
      this.exitCode := O.Success;
      this.output := [];
      this.environmentExitCode := None;
      this.events := [];
    }

    /** The parameterless constructor: the tracer and the pre-run checker are left for
        Execute to create, the output and input are the console. */
    constructor (installationId: string, logDirectory: string)
      ensures Settings() == O.Settings(installationId, logDirectory, false, false, true)
      ensures State() == O.Snapshot(O.Success, None, false, None, [], None, [])
    {
      this.installationId := installationId;
      this.logDirectory := logDirectory;
      this.dryRun := false;
      this.noVerify := false;
      this.interactive := true;
      this.upgrader := None;
      this.hasTracer := false;
      this.preRunChecker := None;
      this.exitCode := O.Success;
      this.output := [];
      this.environmentExitCode := None;
      this.events := [];
    }

    /** The constructor the command line uses: as the parameterless one, with the options. */
    constructor FromOptions(options: O.UpgradeOptions, installationId: string, logDirectory: string)
      ensures Settings() == O.Settings(installationId, logDirectory, options.dryRun, options.noVerify, true)
      ensures State() == O.Snapshot(O.Success, None, false, None, [], None, [])
    {
      this.installationId := installationId;
      this.logDirectory := logDirectory;
      this.dryRun := options.dryRun;
      this.noVerify := options.noVerify;
      this.interactive := true;
      this.upgrader := None;
      this.hasTracer := false;
      this.preRunChecker := None;
      this.exitCode := O.Success;
      this.output := [];
      this.environmentExitCode := None;
      this.events := [];
    }

    /** One upgrade attempt: create the tracer and the pre-run checker if missing, initialise,
        run the upgrade and clean up, report, dispose the upgrader, set the process exit code. */
    method Execute(env: Environment)
      modifies this
      ensures State() == O.Execute(old(State()), Settings(), env)
    {
      if !hasTracer {
        events := events + [CreateTracer];
        hasTracer := true;
      }
      if preRunChecker.None? {
        events := events + [CreatePreRunChecker];
        preRunChecker := Some(env.checker);
      }
      assert State() == O.Prepare(old(State()), env);

      var error, newVersion := AttemptUpgrade(env);
      Conclude(error, newVersion, env.newLine);
    }

    /** The rest of Execute after the attempt: the final message, the finally block that
        disposes the upgrader, the prompt when the input is the console, and the process
        exit code. */
    method Conclude(error: Option<string>, newVersion: Option<Version>, newLine: string)
      modifies this`output, this`events, this`environmentExitCode
      ensures State() == O.Conclude(O.Attempt(old(State()), error, newVersion), Settings(), newLine)
    {
      ghost var report := O.Report(exitCode, error, newVersion, Settings(), newLine);
      if exitCode == O.GenericError {
        output := output + [O.ErrorReport(error, Settings(), newLine)];
      } else if newVersion.Some? {
        output := output + [O.CompletedMessage(newLine)];
      }
      assert output == old(output) + report;

      // finally: this.upgrader?.Dispose()
      ghost var disposal := if upgrader.Some? then [Dispose] else [];
      if upgrader.Some? {
        events := events + [Dispose];
      }
      assert events == old(events) + disposal;

      ghost var prompt := if interactive then [O.PressEnterPrompt] else [];
      if interactive {
        output := output + [O.PressEnterPrompt];
      }
      assert output == old(output) + report + prompt;

      environmentExitCode := Some(exitCode);
    }

    /** The body of Execute's try block up to the report: initialise; when that succeeds,
        run the upgrade and, in the inner finally block, delete the downloaded assets. */
    method AttemptUpgrade(env: Environment) returns (error: Option<string>, newVersion: Option<Version>)
      requires preRunChecker.Some?
      modifies this`exitCode, this`upgrader, this`output, this`events
      ensures O.Attempt(State(), error, newVersion) == O.TryAttempt(old(State()), Settings(), env)
    {
      newVersion := None;
      var initialized;
      initialized, error := TryInitialize(env);
      if initialized {
        var upgraded;
        upgraded, newVersion, error := TryRunUpgrade();
        if !upgraded {
          exitCode := O.GenericError;
        }
        DeletedDownloadedAssets();
      } else {
        exitCode := O.GenericError;
      }
    }

    /** The progress spinner is taken to return the wrapped work's result unchanged; what
        it prints while the work runs is not modelled. */
    function LaunchInsideSpinner(workResult: bool, message: string): (r: bool)
      ensures r == workResult
    {
      workResult
    }

    method TryInitialize(env: Environment) returns (ok: bool, errorMessage: Option<string>)
      modifies this`upgrader, this`events
      ensures var r := O.Initialize(old(upgrader), env, Settings());
        ok == r.ok && errorMessage == r.error && upgrader == r.upgrader && events == old(events) + r.events
    {
      if upgrader.None? {
        events := events + [LocateGit];
        var gitBinPath := env.gitBinPath;
        if O.IsNullOrEmpty(gitBinPath) {
          return false, Some(O.GitNotFoundMessage);
        }
        events := events + [CreateUpgrader(dryRun, noVerify)];
        match env.factory
        case Refused(message) =>
          return false, Some(message);
        case Created(script) =>
          var created := Upgrader(script, None);
          created := created.(instanceId := Some(installationId));
          upgrader := Some(created);
      }
      return true, None;
    }

    method TryRunUpgrade() returns (ok: bool, newVersion: Option<Version>, consoleError: Option<string>)
      requires upgrader.Some? && preRunChecker.Some?
      modifies this`output, this`events
      ensures var r := O.RunUpgrade(upgrader.value.script, preRunChecker.value);
        ok == r.ok && newVersion == r.newVersion && consoleError == r.error
        && output == old(output) + r.output && events == old(events) + r.events
    {
      var newScalarVersion: Option<Version> := None;
      var error: Option<string> := None;
      var script := upgrader.value.script;
      var checker := preRunChecker.value;

      events := events + [UpgradeAllowed];
      if script.allowed.Fail? {
        events := events + [DeleteAllDownloads];
        output := output + [script.allowed.message];
        return true, None, None;
      }

      // the work run inside the "Downloading" spinner
      var downloadingDone := false;
      events := events + [Ran(Preflight)];
      if checker.preflight.Fail? {
        error := Some(checker.preflight.message);
      } else {
        var available;
        available, newScalarVersion, error := TryCheckIfUpgradeAvailable();
        if available {
          if newScalarVersion.Some? {
            downloadingDone, error := TryDownloadUpgrade(newScalarVersion.value);
          } else {
            downloadingDone := true;
          }
        }
      }
      if !LaunchInsideSpinner(downloadingDone, "Downloading") {
        return false, None, error;
      }

      if newScalarVersion.None? {
        return true, None, None;
      }

      // the work run inside the "Checking for blocking processes." spinner
      events := events + [Ran(BlockCheck)];
      var notBlocked := checker.notBlocked.Pass?;
      if !notBlocked {
        error := Some(checker.notBlocked.message);
      }
      if !LaunchInsideSpinner(notBlocked, "Checking for blocking processes.") {
        return false, None, error;
      }

      events := events + [Ran(Install)];
      if script.install.Fail? {
        return false, None, Some(script.install.message);
      }

      return true, newScalarVersion, None;
    }

    method DeletedDownloadedAssets()
      requires upgrader.Some?
      modifies this`events
      ensures events == old(events) + O.CleanupTrace(upgrader.value.script.cleanup)
    {
      events := events + [Cleanup];
      var cleanup := upgrader.value.script.cleanup;
      if cleanup.Fail? {
        events := events + [CleanupErrorLogged(cleanup.message)];
      }
    }

    method TryCheckIfUpgradeAvailable() returns (ok: bool, newestVersion: Option<Version>, consoleError: Option<string>)
      requires upgrader.Some?
      modifies this`output, this`events
      ensures events == old(events) + [Ran(Query)]
      ensures match upgrader.value.script.query
        case QueryFailed(m) => !ok && newestVersion == None && consoleError == Some(m) && output == old(output)
        case NoneNewer(m) => ok && newestVersion == None && consoleError == None && output == old(output) + [m]
        case Found(v) => ok && newestVersion == Some(v) && consoleError == None && output == old(output)
    {
      newestVersion := None;
      consoleError := None;
      events := events + [Ran(Query)];
      match upgrader.value.script.query
      case QueryFailed(message) =>
        consoleError := Some(message);
        return false, newestVersion, consoleError;
      case NoneNewer(message) =>
        output := output + [message];
        return true, newestVersion, consoleError;
      case Found(version) =>
        newestVersion := Some(version);
        return true, newestVersion, consoleError;
    }

    method TryDownloadUpgrade(version: Version) returns (ok: bool, consoleError: Option<string>)
      requires upgrader.Some?
      modifies this`events
      ensures events == old(events) + [Ran(Download)]
      ensures ok == upgrader.value.script.download.Pass?
      ensures consoleError == if ok then None else Some(upgrader.value.script.download.message)
    {
      events := events + [Ran(Download)];
      var download := upgrader.value.script.download;
      if download.Fail? {
        return false, Some(download.message);
      }
      return true, None;
    }
  }
}
