# Upgrade orchestrator model

A Dafny model of the upgrade orchestrator of the Scalar upgrader
(`Scalar.Upgrader/UpgradeOrchestrator.cs`), with proofs about it. One `Execute` call does the
following:
- creates the tracer and the pre-run checker if they are missing;
- initialises the product upgrader (locate git, create the upgrader, stamp it with the
  installation id);
- runs the upgrade: eligibility gate, preflight checks, newest-version query, download,
  blocking-process check, installer;
- deletes the downloaded assets in an inner `finally`;
- writes the final message, disposes the upgrader in the outer `finally`, prompts when the
  input is the console, and sets the process exit code.

The project has four files:

- `collaborators.dfy` (module `Collaborators`). Every collaborator is foreign code, so each
  one is reduced to the answers it gives. This covers the `ProductUpgrader`, the
  `InstallerPreRunChecker`, the upgrader factory, the git lookup and `Environment.NewLine`.
  The answers are scripted outcomes fixed before the call. Every call the orchestrator makes
  into a collaborator is recorded in a ghost trace of `Event`s. `Count` counts the
  occurrences of an event in a trace.
- `orchestration.dfy` (module `Orchestration`) holds the reference definitions as pure
  functions of the state before the call:
  - `Initialize` models TryInitialize;
  - `RunUpgrade` models TryRunUpgrade;
  - `CleanupTrace` models DeletedDownloadedAssets;
  - `Prepare`, `TryAttempt`, `Conclude` and `Execute` model the parts of Execute.

  It also holds a second, independent reading of the stages as a pipeline. `FirstStop` runs
  the stages in order up to the first one whose verdict is not "continue".
- `upgrade_orchestrator.dfy` (module `UpgradeOrchestration`) holds the class
  `UpgradeOrchestrator`:
  - its fields are the ones the C# class updates, plus a ghost trace;
  - installation id, log directory, DryRun, NoVerify and "input is the console" are `const`
    fields, so they cannot be reassigned after construction;
  - `Execute`, `AttemptUpgrade`, `Conclude`, `TryInitialize`, `TryRunUpgrade` and
    `DeletedDownloadedAssets` are proved to leave the state, and return the results, that
    the reference function for their step computes, through `State()` and `Settings()`;
  - `TryCheckIfUpgradeAvailable` and `TryDownloadUpgrade` are specified case by case, by
    the collaborator's scripted answer.
- `orchestration_properties.dfy` (module `OrchestrationProperties`) proves the properties
  the orchestrator promises about the reference functions. Through the method contracts,
  these properties hold for the class as well.

## Model

| member | source | states |
|---|---|---|
| Orchestration.Initialize | Scalar.Upgrader/UpgradeOrchestrator.cs:167-194 | TryInitialize succeeds exactly when an upgrader is present afterwards, and exactly when there is no error. An existing upgrader is kept. A newly created upgrader carries the installation id. |
| Orchestration.RunUpgrade | Scalar.Upgrader/UpgradeOrchestrator.cs:196-275 | TryRunUpgrade returns true exactly when it reports no error. A returned version implies success and is the version the query found. The first call is UpgradeAllowed. It only deletes downloads or runs stages. |
| Orchestration.FirstStop | Scalar.Upgrader/UpgradeOrchestrator.cs:213-274 | Pipeline reading of the stage sequence: at most all stages run; a stopping verdict means some stage ran; "continue" means every stage ran. |
| Orchestration.FirstStopIsFirst | Scalar.Upgrader/UpgradeOrchestrator.cs:213-274 | The stages that run are a prefix of the pipeline, and every one of them but the last continued. A stopping verdict is the last stage's own verdict. "Continue" means every stage continued. |
| Orchestration.StageEvents | Scalar.Upgrader/UpgradeOrchestrator.cs:213-274 | The trace of running a list of stages holds one call per stage, in order. |
| Orchestration.CleanupTrace | Scalar.Upgrader/UpgradeOrchestrator.cs:277-287 | DeletedDownloadedAssets calls TryCleanup first and exactly once. |
| Orchestration.Prepare | Scalar.Upgrader/UpgradeOrchestrator.cs:75-83 | After the lazy creation, a tracer and a pre-run checker exist. An existing checker is kept. ExitCode, upgrader and output are untouched. |
| Orchestration.TryAttempt | Scalar.Upgrader/UpgradeOrchestrator.cs:85-104 | The try block keeps the tracer, the checker and the process exit code. ExitCode is never set back from GenericError. |
| Orchestration.ErrorReport | Scalar.Upgrader/UpgradeOrchestrator.cs:106-117 | The error report opens with a new line, "ERROR: " and the error (a null error reads as empty), and closes with the installation id, a full stop and a new line. |
| Orchestration.CompletedMessage | Scalar.Upgrader/UpgradeOrchestrator.cs:121-124 | The completion line is a new line followed by "Upgrade completed successfully.". |
| Orchestration.Report | Scalar.Upgrader/UpgradeOrchestrator.cs:106-125 | At most one line is written. It is the error report whenever ExitCode is GenericError, whatever the version. On Success it is the completion line exactly when a new version came back, and nothing otherwise. |
| Orchestration.Conclude | Scalar.Upgrader/UpgradeOrchestrator.cs:106-138 | After the try block, ExitCode and the upgrader are kept and Environment.ExitCode is set to ExitCode. Dispose is appended to the calls exactly when an upgrader exists. Earlier output is kept; on GenericError the next line is the error report; the prompt is the last line when the input is the console; nothing is written on a plain Success with no version and no console. |
| Orchestration.Execute | Scalar.Upgrader/UpgradeOrchestrator.cs:70-139 | After Execute, a tracer and a pre-run checker exist, and an injected checker is kept. Environment.ExitCode equals ExitCode. ExitCode is never set back from GenericError. |
| UpgradeOrchestration.UpgradeOrchestrator.WithCollaborators | Scalar.Upgrader/UpgradeOrchestrator.cs:25-41 | The injecting constructor stores the given collaborators. ExitCode starts as Success with no output and no calls. DryRun and NoVerify are false. |
| UpgradeOrchestration.UpgradeOrchestrator.constructor | Scalar.Upgrader/UpgradeOrchestrator.cs:50-62 | The parameterless constructor leaves the upgrader, tracer and pre-run checker null. ExitCode starts as Success, and the input is the console. |
| UpgradeOrchestration.UpgradeOrchestrator.FromOptions | Scalar.Upgrader/UpgradeOrchestrator.cs:43-48 | The same initial state as the parameterless constructor, with DryRun and NoVerify taken from the options. |
| UpgradeOrchestration.UpgradeOrchestrator.Execute | Scalar.Upgrader/UpgradeOrchestrator.cs:70-139 | The method leaves exactly the state that the reference Execute computes from the state before the call. |
| UpgradeOrchestration.UpgradeOrchestrator.AttemptUpgrade | Scalar.Upgrader/UpgradeOrchestrator.cs:85-104 | The try block, with the inner finally that deletes the downloads, leaves the state, error and version that TryAttempt computes. |
| UpgradeOrchestration.UpgradeOrchestrator.Conclude | Scalar.Upgrader/UpgradeOrchestrator.cs:106-138 | The report, the disposal, the prompt and the exit code leave the state that the reference Conclude computes. |
| UpgradeOrchestration.UpgradeOrchestrator.LaunchInsideSpinner | Scalar.Upgrader/UpgradeOrchestrator.cs:141-147 | An assumption, not a proof: the spinner returns the wrapped work's result unchanged. |
| UpgradeOrchestration.UpgradeOrchestrator.TryInitialize | Scalar.Upgrader/UpgradeOrchestrator.cs:167-194 | Its result, its error, the upgrader it stores and its calls are those of Initialize. |
| UpgradeOrchestration.UpgradeOrchestrator.TryRunUpgrade | Scalar.Upgrader/UpgradeOrchestrator.cs:196-275 | Its result, version, error, output and calls are those of RunUpgrade, with both spinners returning their work's result. |
| UpgradeOrchestration.UpgradeOrchestrator.DeletedDownloadedAssets | Scalar.Upgrader/UpgradeOrchestrator.cs:277-287 | It calls TryCleanup, and logs the cleanup error only when the cleanup fails. |
| UpgradeOrchestration.UpgradeOrchestrator.TryCheckIfUpgradeAvailable | Scalar.Upgrader/UpgradeOrchestrator.cs:289-317 | On a failed query: false with the query message as the error. On "nothing newer": true, no version, and the message is printed. On a found version: true with that version. |
| UpgradeOrchestration.UpgradeOrchestrator.TryDownloadUpgrade | Scalar.Upgrader/UpgradeOrchestrator.cs:319-337 | It succeeds exactly when the download does, and otherwise returns the download's error. |
| OrchestrationProperties.IneligibleOnlyDeletesDownloads | Scalar.Upgrader/UpgradeOrchestrator.cs:201-211 | An ineligible upgrade does three things: it deletes the installer downloads, prints the reason, and returns true with a null version and a null error. No stage runs. |
| OrchestrationProperties.RunUpgradeFollowsPipeline | Scalar.Upgrader/UpgradeOrchestrator.cs:213-274 | TryRunUpgrade agrees with the pipeline reading on the calls made, the result, the error, the output and whether a version comes back. |
| OrchestrationProperties.RunUpgradeRunsThePipeline | Scalar.Upgrader/UpgradeOrchestrator.cs:213-264 | The stages TryRunUpgrade runs are exactly the pipeline's stages up to where it stops. |
| OrchestrationProperties.RunUpgradeReportsTheStop | Scalar.Upgrader/UpgradeOrchestrator.cs:236-274 | An aborting stage makes TryRunUpgrade fail with that stage's error. "Nothing newer" succeeds with its message printed. A version comes back exactly when every stage continued. |
| OrchestrationProperties.PipelineStops | Scalar.Upgrader/UpgradeOrchestrator.cs:213-274 | Where the pipeline stops, case by case: the first failing stage in the order preflight, query, download, blocking check, install. |
| OrchestrationProperties.StagesAreGated | Scalar.Upgrader/UpgradeOrchestrator.cs:213-264 | Every stage TryRunUpgrade runs, except the last, let the attempt continue, so each stage is gated on the one before it. |
| OrchestrationProperties.UpToDateSkipsTheRest | Scalar.Upgrader/UpgradeOrchestrator.cs:242-247 | When there is nothing newer, the query's message is printed, the result is true with no version and no error, and no download, blocking check or install runs. |
| OrchestrationProperties.QueryFailureIsAnError | Scalar.Upgrader/UpgradeOrchestrator.cs:289-304 | A failed query makes TryRunUpgrade return false with the query's message, before any download. |
| OrchestrationProperties.DownloadAndInstallAreGuarded | Scalar.Upgrader/UpgradeOrchestrator.cs:213-270 | A download runs only after the gate, the preflight checks and a query that found a version. The installer runs only after a successful download and blocking check. |
| OrchestrationProperties.BlockingAndInstallerFailures | Scalar.Upgrader/UpgradeOrchestrator.cs:249-270 | A blocked installation fails with the checker's error and never installs. A failing installer fails with its own error and no version. |
| OrchestrationProperties.OnlyFullSuccessReturnsVersion | Scalar.Upgrader/UpgradeOrchestrator.cs:272-274 | A version comes back exactly when every step passes, and then it is the queried version with a null error. |
| OrchestrationProperties.InitializationOutcomes | Scalar.Upgrader/UpgradeOrchestrator.cs:167-194 | The four outcomes of TryInitialize: kept upgrader; git not found; factory error propagated; new upgrader stamped with the installation id and stored. |
| OrchestrationProperties.ExecuteTrace | Scalar.Upgrader/UpgradeOrchestrator.cs:70-139 | The calls of one Execute are, in order: the creations, the initialisation, and, when an upgrader exists, the run, the cleanup and the disposal. |
| OrchestrationProperties.ExecuteCount | Scalar.Upgrader/UpgradeOrchestrator.cs:70-139 | Any call's count after Execute is its earlier count plus its counts in the creations and in the attempt. |
| OrchestrationProperties.AttemptCount | Scalar.Upgrader/UpgradeOrchestrator.cs:85-130 | Any call that initialisation does not make occurs in the attempt as often as in the run, the cleanup and the disposal together. It does not occur at all when there is no upgrader. |
| OrchestrationProperties.ExitCodeReflectsFailures | Scalar.Upgrader/UpgradeOrchestrator.cs:87-104 | Starting from Success, ExitCode ends GenericError exactly when TryInitialize fails or TryRunUpgrade returns false. Environment.ExitCode is set to it. |
| OrchestrationProperties.CleanupOnceAfterInitialization | Scalar.Upgrader/UpgradeOrchestrator.cs:87-99 | TryCleanup runs exactly once when initialisation succeeds, whatever TryRunUpgrade returned, and never when initialisation fails. |
| OrchestrationProperties.DisposedOnEveryPath | Scalar.Upgrader/UpgradeOrchestrator.cs:127-130 | An upgrader exists after Execute exactly when initialisation succeeded. It is then disposed exactly once, as the last call; otherwise nothing is disposed. |
| OrchestrationProperties.CleanupFailureOnlyLogged | Scalar.Upgrader/UpgradeOrchestrator.cs:277-287 | For an upgrader already present (injected or kept from an earlier call), a failing cleanup leaves ExitCode, the output and the process exit code unchanged. It only adds the logged error before the disposal. |
| OrchestrationProperties.AttemptCleanupOnlyLogged | Scalar.Upgrader/UpgradeOrchestrator.cs:89-99 | The same, for the try block alone. |
| OrchestrationProperties.CreatedCleanupFailureOnlyLogged | Scalar.Upgrader/UpgradeOrchestrator.cs:277-287 | The same for the upgrader that TryInitialize has the factory create (git found, no upgrader before): a failing cleanup changes neither ExitCode, the output nor the process exit code, and only adds the logged error before the disposal. |
| OrchestrationProperties.AttemptCreatedCleanupOnlyLogged | Scalar.Upgrader/UpgradeOrchestrator.cs:85-99 | The same, for the try block alone, with the created upgrader. |
| OrchestrationProperties.CreatedOnlyWhenMissing | Scalar.Upgrader/UpgradeOrchestrator.cs:75-83 | One Execute creates the tracer and the pre-run checker once each when missing, and not at all when present. |
| OrchestrationProperties.TracerAndCheckerCreatedAtMostOnce | Scalar.Upgrader/UpgradeOrchestrator.cs:75-83 | Across two Execute calls on the same orchestrator, the tracer and the pre-run checker are each created at most once. |
| OrchestrationProperties.IneligibleExecuteRunsNoStage | Scalar.Upgrader/UpgradeOrchestrator.cs:201-211 | An Execute call on an ineligible upgrade deletes the downloads once, runs no stage and keeps ExitCode. |
| OrchestrationProperties.FinalMessage | Scalar.Upgrader/UpgradeOrchestrator.cs:106-136 | On GenericError, Execute writes "ERROR: " with the error, the log directory and the installation id. On Success, it writes the completion line exactly when a version was installed. The prompt follows when the input is the console. |
| OrchestrationProperties.InstallationIdStamped | Scalar.Upgrader/UpgradeOrchestrator.cs:186-189 | An upgrader created during Execute carries the orchestrator's installation id, and an existing upgrader is kept unchanged. |

## Left out

- Exceptions are not modelled. Every collaborator call returns normally, and each `try`/`finally` is its body followed by its finally block. The `finally` blocks' behaviour when an exception is thrown is therefore not captured.
- UpgradeOrchestration.UpgradeOrchestrator.LaunchInsideSpinner (lines 141-147) returns the wrapped work's result unchanged. `ConsoleHelper.ShowStatusWhileRunning` is not part of this model, so this is an assumption. Its console animation is not modelled either.
- `TryRunInstaller` receives the spinner launcher. The installer's own use of it is foreign code and is reduced to the installer's scripted outcome.
- `CreateTracer` (lines 149-165) and the log file it opens are not modelled. So are the tracer's `RelatedError`, `RelatedInfo` and `StartActivity` events. The model records only that a tracer was created, and the one logged error that matters: the cleanup failure.
- `LogInstalledVersionInfo` (lines 339-354) is not modelled. Its only effect is a log event built from the process and git versions.
- Reading the line after "Press Enter to exit." (line 135) is console input and is not modelled. The prompt itself is modelled.
- The installation id is not formatted from `DateTime.Now` (lines 40, 61). The log directory (line 19) is not computed. Both are parameters of the constructors.
- `ReturnCode`'s numeric values are not modelled. Environment.ExitCode holds the `ReturnCode` itself.
- The internals of `ProductUpgrader`, `InstallerPreRunChecker`, `ProductUpgraderInfo.DeleteAllInstallerDownloads`, `GitProcess` and `PhysicalFileSystem` are not modelled. They are foreign code, and each is modelled only by its scripted outcome.
- The collaborators' out-parameters on paths where the code never reads them are not modelled:
  - a failed query's version is taken to be null;
  - a successful download's error is taken to be null.
- The `DryRun` and `NoVerify` flags only reach the upgrader factory. They are recorded in the creation call and have no further effect in the model.
- The functional test suite `Scalar.FunctionalTests/Tests/GitCommands/GitCommandsTests.cs` is not part of this model. It drives real git commands and has no logic of the orchestrator's own.

- A failing collaborator is taken to report a non-null message: the `message` of `Outcome.Fail`, `QueryOutcome.QueryFailed` and `FactoryOutcome.Refused` is a `string`. In the code a null error is possible (lines 181-183, 216-218, 252-254, 266-269, 201-207). `Orchestration.Initialize` and `Orchestration.RunUpgrade` state `ok <==> error.None?`, and that equivalence relies on this. With a null message the source returns false with a null error, and an ineligible upgrade prints an empty line.
- The output lines and the collaborator calls are kept in two separate sequences. The order of a printed line relative to the calls is therefore not captured. Examples are the ineligibility message against DeleteAllInstallerDownloads (lines 206-207), and the final report against the disposal (lines 117 and 129).

Notes on the code:

- Cleanup runs only after a successful initialisation: `DeletedDownloadedAssets` is called inside `if (this.TryInitialize(...))` (lines 87-99). A failed initialisation therefore deletes nothing (`CleanupOnceAfterInitialization`).
- The newest-version query runs inside the "Downloading" spinner, together with the preflight checks and the download (lines 213-235).
- The git-not-found message is modelled as the code writes it. The interpolated string has no braces, so the message begins with the literal text `nameof(this.TryInitialize): ` (line 174).
