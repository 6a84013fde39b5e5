/**
 Runs of auto-update cycles. A cycle resolves the manifest, resolves it again,
 downloads, checks the digest, replaces the binary and restarts the service; each
 step may fail. Which version is installed is in the directory; which version is
 running changes only when the process is replaced.
 */
module AutoUpdate {
  import opened Common
  import opened ReleaseSelection
  import opened ReplaceBinary
  import opened SemVer
  import opened Text

  datatype UpdateStatus = UpdateAvailable | UpToDate | DowngradeAvailable | VersionUnknown

  /** Library behaviour: version parsing, the digest, and the version a binary reports when it runs. */
  datatype Library = Library(parse: Parser, digest: seq<byte> -> string, reports: seq<byte> -> string)

  /** The installed binary's file name, and whether a service manager is asked to restart it. */
  datatype Config = Config(name: string, managed: bool)

  /** What one cycle meets: two resolutions of the manifest, a download, and the outcome of every later step. */
  datatype Env = Env(first: Option<ResolvedUpdate>, second: Option<ResolvedUpdate>, download: Option<seq<byte>>,
                     faults: Faults, restarts: bool)

  datatype State = State(files: Files, running: string)

  datatype Event = CheckFailed | Checked | Updated | UpdateFailed

  datatype Report = Report(event: Event, status: Option<UpdateStatus>, target: Option<ResolvedUpdate>,
                           bytes: Option<nat>, applied: bool, restarted: bool, failed: bool)

  datatype SelfUpdate = SelfUpdate(status: UpdateStatus, target: ResolvedUpdate, bytes: nat, restarted: bool)

  function CompareVersions(parse: Parser, current: string, target: string): UpdateStatus {
    if parse(current).Some? && parse(target).Some? then
      var c := CompareVersion(parse(target).value, parse(current).value);
      if c > 0 then UpdateAvailable else if c == 0 then UpToDate else DowngradeAvailable
    else if current == target then UpToDate
    else VersionUnknown
  }

  predicate IsUpdate(lib: Library, current: string, target: string) {
    CompareVersions(lib.parse, current, target) == UpdateAvailable
  }

  predicate DigestMatches(lib: Library, bytes: seq<byte>, expected: string) {
    AsciiLower(lib.digest(bytes)) == AsciiLower(Trim(expected))
  }

  /** A self-update run by a cycle gets as far as replacing the binary. */
  predicate Proceeds(lib: Library, running: string, env: Env) {
    && env.second.Some? && IsUpdate(lib, running, env.second.value.version)
    && env.download.Some? && DigestMatches(lib, env.download.value, env.second.value.sha256)
  }

  /** The cycle's own check found an update. */
  predicate Found(lib: Library, running: string, env: Env) {
    env.first.Some? && IsUpdate(lib, running, env.first.value.version)
  }

  function FilesAfter(lib: Library, cfg: Config, s: State, env: Env): Files {
    if Proceeds(lib, s.running, env) then
      var states := Steps(s.files, cfg.name, env.download.value, env.faults).0;
      states[|states| - 1]
    else s.files
  }

  predicate Succeeds(lib: Library, cfg: Config, s: State, env: Env) {
    && Proceeds(lib, s.running, env) && Steps(s.files, cfg.name, env.download.value, env.faults).1
    && (cfg.managed ==> env.restarts)
  }

  /** The cycle put the new binary in place. */
  predicate Replaced(lib: Library, cfg: Config, s: State, env: Env) {
    && Found(lib, s.running, env) && Proceeds(lib, s.running, env)
    && Steps(s.files, cfg.name, env.download.value, env.faults).1
  }

  /** The new binary is in place and nothing failed afterwards. */
  predicate Applied(lib: Library, cfg: Config, s: State, env: Env) {
    Replaced(lib, cfg, s, env) && (cfg.managed ==> env.restarts)
  }

  /** One cycle, after which the process exits and is started anew if the update was applied. */
  function Next(lib: Library, cfg: Config, s: State, env: Env): State {
    State(if Found(lib, s.running, env) then FilesAfter(lib, cfg, s, env) else s.files,
          if Applied(lib, cfg, s, env) then lib.reports(env.download.value) else s.running)
  }

  function After(lib: Library, cfg: Config, s: State, envs: seq<Env>): State
    decreases |envs|
  {
    if envs == [] then s else Next(lib, cfg, After(lib, cfg, s, envs[..|envs| - 1]), envs[|envs| - 1])
  }

  lemma AfterOne(lib: Library, cfg: Config, s: State, envs: seq<Env>, n: nat)
    requires n < |envs|
    ensures After(lib, cfg, s, envs[..n + 1]) == Next(lib, cfg, After(lib, cfg, s, envs[..n]), envs[n])
  {
    hide Next;
    assert envs[..n + 1][..n] == envs[..n];
  }

  class AutoUpdater {
    const lib: Library
    const cfg: Config
    const directory: Directory
    var running: string

    constructor (lib: Library, cfg: Config, directory: Directory, running: string)
      ensures this.lib == lib && this.cfg == cfg && this.directory == directory && this.running == running
    {
      this.lib, this.cfg, this.directory, this.running := lib, cfg, directory, running;
    }

    ghost function Now(): State
      reads this, directory
    {
      State(directory.files, running)
    }

    /** `execute_self_update` as the cycle calls it, without `--force` and without `--dry-run`; None is an error. */
    method ExecuteSelfUpdate(env: Env) returns (r: Option<SelfUpdate>)
      modifies directory
      ensures directory.files == FilesAfter(lib, cfg, old(Now()), env)
      ensures r == if Succeeds(lib, cfg, old(Now()), env)
                   then Some(SelfUpdate(UpdateAvailable, env.second.value, |env.download.value|, cfg.managed)) else None
    {
      hide Steps, CompareVersions, DigestMatches;
      if env.second.None? {
        return None;
      }
      var status := CompareVersions(lib.parse, running, env.second.value.version);
      if status != UpdateAvailable || env.download.None? {
        return None;
      }
      if !DigestMatches(lib, env.download.value, env.second.value.sha256) {
        return None;
      }
      var replaced, _ := directory.ReplaceBinary(cfg.name, env.download.value, env.faults);
      if !replaced {
        return None;
      }
      if cfg.managed && !env.restarts {
        return None;
      }
      r := Some(SelfUpdate(status, env.second.value, |env.download.value|, cfg.managed));
    }

    method RunCycle(env: Env) returns (report: Report)
      modifies directory
      ensures directory.files == Next(lib, cfg, old(Now()), env).files
      ensures report.applied <==> Applied(lib, cfg, old(Now()), env)
      ensures report.event == Updated <==> report.applied
      ensures report.event == CheckFailed <==> env.first.None?
      ensures report.event == UpdateFailed <==> Found(lib, running, env) && !report.applied
      ensures report.failed <==> report.event.CheckFailed? || report.event.UpdateFailed?
      ensures report.target == if report.applied then env.second else env.first
    {
      hide Steps, CompareVersions, DigestMatches;
      report := Report(CheckFailed, None, None, None, false, false, false);
      if env.first.None? {
        report := report.(failed := true);
        return;
      }
      var status := CompareVersions(lib.parse, running, env.first.value.version);
      report := report.(status := Some(status), target := env.first);
      if status != UpdateAvailable {
        report := report.(event := Checked);
        return;
      }
      var r := ExecuteSelfUpdate(env);
      if r.None? {
        report := report.(event := UpdateFailed, failed := true);
        return;
      }
      report := report.(event := Updated, status := Some(r.value.status), target := Some(r.value.target),
                        bytes := Some(r.value.bytes), applied := true, restarted := r.value.restarted);
    }

    /** The loop: it ends once an update is applied, and the supervisor then starts the new binary. */
    method RunLoop(envs: seq<Env>) returns (reports: seq<Report>)
      modifies this, directory
      ensures |reports| <= |envs| && Now() == After(lib, cfg, old(Now()), envs[..|reports|])
      ensures ReportedAsApplied(lib, cfg, old(Now()), envs, reports)
      ensures forall i :: 0 <= i < |reports| - 1 ==> !reports[i].applied
      ensures |reports| < |envs| ==> reports != [] && reports[|reports| - 1].applied
    {
      hide After, Next, Applied, ReportedAsApplied;
      ghost var s0 := Now();
      reports := [];
      NothingReported(lib, cfg, s0, envs);
      while |reports| < |envs|
        invariant |reports| <= |envs|
        invariant Now() == After(lib, cfg, s0, envs[..|reports|])
        invariant ReportedAsApplied(lib, cfg, s0, envs, reports)
        invariant forall i :: 0 <= i < |reports| ==> !reports[i].applied
      {
        var env := envs[|reports|];
        AfterOne(lib, cfg, s0, envs, |reports|);
        NextRunning(lib, cfg, Now(), env);
        var report := RunCycle(env);
        ReportOne(lib, cfg, s0, envs, reports, report);
        reports := reports + [report];
        if report.applied {
          running := lib.reports(env.download.value);
          return;
        }
      }
    }
  }

  /** Each report says applied exactly when its cycle was. */
  ghost predicate ReportedAsApplied(lib: Library, cfg: Config, s: State, envs: seq<Env>, reports: seq<Report>)
    requires |reports| <= |envs|
  {
    forall i :: 0 <= i < |reports| ==>
        (reports[i].applied <==> Applied(lib, cfg, After(lib, cfg, s, envs[..i]), envs[i]))
  }

  lemma NothingReported(lib: Library, cfg: Config, s: State, envs: seq<Env>)
    ensures ReportedAsApplied(lib, cfg, s, envs, []) && After(lib, cfg, s, envs[..0]) == s
  {}

  lemma ReportOne(lib: Library, cfg: Config, s: State, envs: seq<Env>, reports: seq<Report>, report: Report)
    requires |reports| < |envs| && ReportedAsApplied(lib, cfg, s, envs, reports)
    requires report.applied <==> Applied(lib, cfg, After(lib, cfg, s, envs[..|reports|]), envs[|reports|])
    ensures ReportedAsApplied(lib, cfg, s, envs, reports + [report])
  {
    hide Applied, After;
  }

  lemma NextRunning(lib: Library, cfg: Config, s: State, env: Env)
    ensures Applied(lib, cfg, s, env) ==>
        env.download.Some? && Next(lib, cfg, s, env).running == lib.reports(env.download.value)
    ensures !Applied(lib, cfg, s, env) ==> Next(lib, cfg, s, env).running == s.running
  {}
}
