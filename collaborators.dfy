/** The collaborators of the upgrade orchestrator, reduced to the answers they give.

    The product upgrader, the pre-run checker, the git installation lookup and the
    upgrader factory are foreign code: each call is modelled by a scripted outcome,
    fixed before the attempt starts. The orchestrator's calls into them are recorded,
    in order, as a trace of events.
 */
module Collaborators {

  datatype Option<T> = None | Some(value: T)

  /** System.Version: major.minor.build.revision. */
  datatype Version = Version(major: nat, minor: nat, build: nat, revision: nat)

  /** A call shaped `bool TryX(out string error)`: Pass when it returned true,
      Fail with the error it reported otherwise. */
  datatype Outcome = Pass | Fail(message: string)

  /** ProductUpgrader.TryQueryNewestVersion(out Version newest, out string message):
      the query failed, succeeded with a null version (nothing newer), or found a version. */
  datatype QueryOutcome =
    | QueryFailed(message: string)
    | NoneNewer(message: string)
    | Found(version: Version)

  /** The answers of one ProductUpgrader: UpgradeAllowed, TryQueryNewestVersion,
      TryDownloadNewestVersion, TryRunInstaller and TryCleanup. */
  datatype UpgraderScript = UpgraderScript(
    allowed: Outcome,
    query: QueryOutcome,
    download: Outcome,
    install: Outcome,
    cleanup: Outcome)

  /** A ProductUpgrader instance: its scripted answers and its UpgradeInstanceId
      property (None while it is still null). */
  datatype Upgrader = Upgrader(script: UpgraderScript, instanceId: Option<string>)

  /** The answers of one InstallerPreRunChecker: TryRunPreUpgradeChecks, and
      IsInstallationBlockedByRunningProcess, which returns true (Pass) when the
      installation may go ahead. */
  datatype CheckerScript = CheckerScript(preflight: Outcome, notBlocked: Outcome)

  /** ProductUpgrader.TryCreateUpgrader: a new upgrader, or the error it reported. */
  datatype FactoryOutcome = Created(script: UpgraderScript) | Refused(message: string)

  /** What the process environment answers during one Execute call: the installed git
      binary path (None for null), the upgrader factory, the pre-run checker that
      Execute creates when none was injected, and Environment.NewLine. */
  datatype Environment = Environment(
    gitBinPath: Option<string>,
    factory: FactoryOutcome,
    checker: CheckerScript,
    newLine: string)

  /** The stages of an upgrade after the eligibility gate, in the order they run. */
  datatype Stage = Preflight | Query | Download | BlockCheck | Install

  /** One call of the orchestrator into a collaborator (or one logged error). */
  datatype Event =
    | CreateTracer
    | CreatePreRunChecker
    | LocateGit
    | CreateUpgrader(dryRun: bool, noVerify: bool)
    | UpgradeAllowed
    | DeleteAllDownloads
    | Ran(stage: Stage)
    | Cleanup
    | CleanupErrorLogged(message: string)
    | Dispose

  /** How many times `e` occurs in `trace`. */
  function Count(trace: seq<Event>, e: Event): (n: nat)
    ensures n <= |trace|
    ensures n == 0 <==> e !in trace
  {
    if trace == [] then 0
    else (if trace[0] == e then 1 else 0) + Count(trace[1..], e)
  }

  lemma {:induction false} CountAppend(a: seq<Event>, b: seq<Event>, e: Event)
    ensures Count(a + b, e) == Count(a, e) + Count(b, e)
  {
    if a == [] {
      assert a + b == b;
    } else {
      assert (a + b)[0] == a[0];
      assert (a + b)[1..] == a[1..] + b;
      CountAppend(a[1..], b, e);
    }
  }
}
