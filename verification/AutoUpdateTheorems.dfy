/**
 What runs of auto-update cycles keep: the installed version only ever increases,
 exactly as long as the process that checks is the version that is installed.
 */
module AutoUpdateTheorems {
  import opened Common
  import opened AutoUpdate
  import opened ReleaseSelection
  import opened ReplaceBinary
  import opened SemVer
  import opened Text

  /** A downloaded binary whose digest is the manifest's reports the manifest's version. */
  predicate Faithful(lib: Library, env: Env) {
    env.second.Some? && env.download.Some? && DigestMatches(lib, env.download.value, env.second.value.sha256) ==>
      lib.reports(env.download.value) == env.second.value.version
  }

  /** The digest is written without white space around it, as hex digits are. */
  ghost predicate PlainDigests(lib: Library) {
    forall b :: Trim(lib.digest(b)) == lib.digest(b)
  }

  /** The running process is the installed binary's. */
  predicate InSync(lib: Library, cfg: Config, s: State) {
    cfg.name in s.files ==> lib.reports(s.files[cfg.name]) == s.running
  }

  /** From `f` to `g` the binary became strictly newer. */
  predicate Newer(lib: Library, name: string, f: Files, g: Files) {
    name in f && name in g && IsUpdate(lib, lib.reports(f[name]), lib.reports(g[name]))
  }

  lemma UpdatesChain(lib: Library, a: string, b: string, c: string)
    requires IsUpdate(lib, a, b) && IsUpdate(lib, b, c)
    ensures IsUpdate(lib, a, c) && !IsUpdate(lib, b, a) && !IsUpdate(lib, a, a)
  {
    VersionTotalOrder();
    hide CompareVersion;
  }

  lemma NotSelfUpdate(lib: Library, a: string)
    ensures !IsUpdate(lib, a, a)
  {
    VersionTotalOrder();
    hide CompareVersion;
  }

  /**
   Any cycle: a binary put in place is strictly newer than the running version and
   has the digest the manifest states, with the replaced one kept as the backup;
   otherwise the target is as it was, or gone with the backup holding it.
   */
  lemma InstallIsNewerAndChecked(lib: Library, cfg: Config, s: State, env: Env)
    requires cfg.name in s.files
    ensures var after := Next(lib, cfg, s, env).files;
            var prev := PrevOf(cfg.name);
            if Replaced(lib, cfg, s, env) then
              && IsUpdate(lib, s.running, env.second.value.version)
              && AsciiLower(lib.digest(env.download.value)) == AsciiLower(Trim(env.second.value.sha256))
              && cfg.name in after && after[cfg.name] == env.download.value
              && prev in after && after[prev] == s.files[cfg.name]
            else if cfg.name in after then after[cfg.name] == s.files[cfg.name]
            else prev in after && after[prev] == s.files[cfg.name]
  {
    if Found(lib, s.running, env) && Proceeds(lib, s.running, env) {
      OldBinarySurvives(s.files, cfg.name, env.download.value, env.faults);
      hide Steps, IsUpdate, AsciiLower, Trim;
    } else {
      hide Steps;
    }
  }

  lemma GoneStaysGone(lib: Library, cfg: Config, s: State, env: Env)
    requires cfg.name !in s.files
    ensures cfg.name !in Next(lib, cfg, s, env).files && Next(lib, cfg, s, env).running == s.running
  {
    PathsAreDistinct(cfg.name);
    hide Found, Proceeds;
  }

  /**
   A cycle of the installed version whose restart did not fail leaves the next process
   in sync, and installs only something newer.
   */
  lemma SyncedCycle(lib: Library, cfg: Config, s: State, env: Env)
    requires InSync(lib, cfg, s) && Faithful(lib, env)
    requires Replaced(lib, cfg, s, env) ==> Applied(lib, cfg, s, env)
    ensures InSync(lib, cfg, Next(lib, cfg, s, env))
    ensures var after := Next(lib, cfg, s, env).files;
            Replaced(lib, cfg, s, env) && cfg.name in after ==> Newer(lib, cfg.name, s.files, after)
  {
    if cfg.name in s.files {
      InstallIsNewerAndChecked(lib, cfg, s, env);
      NextRunning(lib, cfg, s, env);
      hide FilesAfter, IsUpdate, Found, AsciiLower, Trim, Steps, Next;
    } else {
      GoneStaysGone(lib, cfg, s, env);
    }
  }

  /** In no cycle of the run did the new binary get into place and the restart then fail. */
  ghost predicate RestartsWork(lib: Library, cfg: Config, s: State, envs: seq<Env>) {
    forall i :: 0 <= i < |envs| ==>
      var at := After(lib, cfg, s, envs[..i]);
      Replaced(lib, cfg, at, envs[i]) ==> Applied(lib, cfg, at, envs[i])
  }

  ghost predicate AllFaithful(lib: Library, envs: seq<Env>) {
    forall i :: 0 <= i < |envs| ==> Faithful(lib, envs[i])
  }

  /** Cycle `k` of the run put a new binary in place. */
  predicate ReplacedAt(lib: Library, cfg: Config, s: State, envs: seq<Env>, k: nat)
    requires k < |envs|
  {
    Replaced(lib, cfg, After(lib, cfg, s, envs[..k]), envs[k])
  }

  lemma {:induction false} StaysInSync(lib: Library, cfg: Config, s: State, envs: seq<Env>, n: nat)
    requires InSync(lib, cfg, s) && AllFaithful(lib, envs) && RestartsWork(lib, cfg, s, envs) && n <= |envs|
    ensures InSync(lib, cfg, After(lib, cfg, s, envs[..n]))
    ensures n < |envs| ==>
              var (f, g) := (After(lib, cfg, s, envs[..n]).files, After(lib, cfg, s, envs[..n + 1]).files);
              ReplacedAt(lib, cfg, s, envs, n) && cfg.name in g ==> Newer(lib, cfg.name, f, g)
  {
    if n == 0 {
      assert After(lib, cfg, s, envs[..0]) == s;
    }
    hide InSync, Faithful, After, Next, Replaced, Applied, Newer;
    if n > 0 {
      StaysInSync(lib, cfg, s, envs, n - 1);
      AfterOne(lib, cfg, s, envs, n - 1);
      WorksAt(lib, cfg, s, envs, n - 1);
      SyncedCycle(lib, cfg, After(lib, cfg, s, envs[..n - 1]), envs[n - 1]);
    }
    if n < |envs| {
      AfterOne(lib, cfg, s, envs, n);
      WorksAt(lib, cfg, s, envs, n);
      SyncedCycle(lib, cfg, After(lib, cfg, s, envs[..n]), envs[n]);
    }
  }

  lemma WorksAt(lib: Library, cfg: Config, s: State, envs: seq<Env>, n: nat)
    requires RestartsWork(lib, cfg, s, envs) && n < |envs|
    ensures Replaced(lib, cfg, After(lib, cfg, s, envs[..n]), envs[n]) ==>
        Applied(lib, cfg, After(lib, cfg, s, envs[..n]), envs[n])
  {
    hide After, Replaced, Applied;
  }

  /** A cycle that puts no binary in place leaves the installed one, if it leaves any. */
  lemma IdleCycle(lib: Library, cfg: Config, s: State, envs: seq<Env>, n: nat)
    requires n < |envs| && !ReplacedAt(lib, cfg, s, envs, n)
    ensures var (f, g) := (After(lib, cfg, s, envs[..n]).files, After(lib, cfg, s, envs[..n + 1]).files);
            cfg.name in g ==> cfg.name in f && g[cfg.name] == f[cfg.name]
  {
    AfterOne(lib, cfg, s, envs, n);
    var at := After(lib, cfg, s, envs[..n]);
    hide After, Next, Replaced;
    if cfg.name in at.files {
      InstallIsNewerAndChecked(lib, cfg, at, envs[n]);
    } else {
      GoneStaysGone(lib, cfg, at, envs[n]);
    }
  }

  /** Some cycle from `i` to `j` put a new binary in place. */
  ghost predicate AnyReplaced(lib: Library, cfg: Config, s: State, envs: seq<Env>, i: nat, j: nat)
    requires j <= |envs|
  {
    exists k :: i <= k < j && ReplacedAt(lib, cfg, s, envs, k)
  }

  lemma AnyReplacedStep(lib: Library, cfg: Config, s: State, envs: seq<Env>, i: nat, j: nat)
    requires i < j <= |envs|
    ensures AnyReplaced(lib, cfg, s, envs, i, j) <==>
            AnyReplaced(lib, cfg, s, envs, i, j - 1) || ReplacedAt(lib, cfg, s, envs, j - 1)
  {
    hide ReplacedAt;
  }

  /** From `f` to `g` the binary is strictly newer if one was put in place, and the same otherwise, or it is gone. */
  predicate InstalledFrom(lib: Library, name: string, f: Files, g: Files, replaced: bool) {
    name in g ==> if replaced then Newer(lib, name, f, g) else name in f && g[name] == f[name]
  }

  lemma InstalledChain(lib: Library, name: string, f: Files, g: Files, h: Files, first: bool, second: bool)
    requires InstalledFrom(lib, name, f, g, first) && InstalledFrom(lib, name, g, h, second)
    ensures InstalledFrom(lib, name, f, h, first || second)
  {
    if name in f && name in g && name in h && first && second {
      UpdatesChain(lib, lib.reports(f[name]), lib.reports(g[name]), lib.reports(h[name]));
    }
    hide IsUpdate;
  }

  lemma NoCycle(lib: Library, cfg: Config, s: State, envs: seq<Env>, i: nat)
    requires i <= |envs|
    ensures var f := After(lib, cfg, s, envs[..i]).files;
            InstalledFrom(lib, cfg.name, f, f, AnyReplaced(lib, cfg, s, envs, i, i))
  {
    hide After;
  }

  lemma OneCycle(lib: Library, cfg: Config, s: State, envs: seq<Env>, n: nat)
    requires InSync(lib, cfg, s) && AllFaithful(lib, envs) && RestartsWork(lib, cfg, s, envs) && n < |envs|
    ensures InstalledFrom(lib, cfg.name, After(lib, cfg, s, envs[..n]).files, After(lib, cfg, s, envs[..n + 1]).files,
                          ReplacedAt(lib, cfg, s, envs, n))
  {
    hide After, InSync, AllFaithful, RestartsWork, ReplacedAt, Newer;
    if ReplacedAt(lib, cfg, s, envs, n) {
      StaysInSync(lib, cfg, s, envs, n);
    } else {
      IdleCycle(lib, cfg, s, envs, n);
    }
  }

  /**
   The main result. Over any run of cycles against any manifests and any faults, in
   which no restart failed after a replacement: if any cycle from `i` to `j` put a
   binary in place, what is installed then is strictly newer than what was installed
   before, so no version is ever installed again and none is downgraded; if none
   did, what is installed is the same binary.
   */
  lemma {:induction false} InstalledVersionIncreases(lib: Library, cfg: Config, s: State, envs: seq<Env>, i: nat,
                                                     j: nat)
    requires InSync(lib, cfg, s) && AllFaithful(lib, envs) && RestartsWork(lib, cfg, s, envs)
    requires i <= j <= |envs|
    ensures InstalledFrom(lib, cfg.name, After(lib, cfg, s, envs[..i]).files, After(lib, cfg, s, envs[..j]).files,
                          AnyReplaced(lib, cfg, s, envs, i, j))
  {
    hide *;
    if i == j {
      NoCycle(lib, cfg, s, envs, i);
    } else {
      AnyReplacedStep(lib, cfg, s, envs, i, j);
      InstalledVersionIncreases(lib, cfg, s, envs, i, j - 1);
      OneCycle(lib, cfg, s, envs, j - 1);
      InstalledChain(lib, cfg.name, After(lib, cfg, s, envs[..i]).files, After(lib, cfg, s, envs[..j - 1]).files,
                     After(lib, cfg, s, envs[..j]).files, AnyReplaced(lib, cfg, s, envs, i, j - 1),
                     ReplacedAt(lib, cfg, s, envs, j - 1));
    }
  }

  /** Nothing fails, and the manifest offers `bytes` under the version it reports. */
  function Offer(lib: Library, bytes: seq<byte>, restarts: bool): Env {
    var r := ResolvedUpdate(lib.reports(bytes), DEFAULT_CHANNEL, "", lib.digest(bytes), Target("", ""));
    Env(Some(r), Some(r), Some(bytes), Faults(Written, true, true, true, true, true), restarts)
  }

  lemma OfferIsTaken(lib: Library, cfg: Config, s: State, bytes: seq<byte>, restarts: bool)
    requires PlainDigests(lib) && cfg.name in s.files && IsUpdate(lib, s.running, lib.reports(bytes))
    ensures var env := Offer(lib, bytes, restarts);
            var next := Next(lib, cfg, s, env);
            && Faithful(lib, env) && Replaced(lib, cfg, s, env)
            && cfg.name in next.files && next.files[cfg.name] == bytes
            && next.running == if cfg.managed && !restarts then s.running else lib.reports(bytes)
  {
    var env := Offer(lib, bytes, restarts);
    hide IsUpdate, AsciiLower, Trim, Steps;
    OldBinarySurvives(s.files, cfg.name, bytes, env.faults);
  }

  /**
   One state, exactly: every install the next cycle can make is newer than what is
   installed if and only if what is installed is not newer than what is running.
   */
  lemma NextInstallIsNewerExactly(lib: Library, cfg: Config, s: State)
    requires PlainDigests(lib) && cfg.name in s.files
    requires lib.parse(s.running).Some? && lib.parse(lib.reports(s.files[cfg.name])).Some?
    ensures (forall env :: Faithful(lib, env) && Replaced(lib, cfg, s, env) ==>
               IsUpdate(lib, lib.reports(s.files[cfg.name]), env.second.value.version))
            <==> !IsUpdate(lib, s.running, lib.reports(s.files[cfg.name]))
  {
    var installed := lib.reports(s.files[cfg.name]);
    if IsUpdate(lib, s.running, installed) {
      var env := Offer(lib, s.files[cfg.name], true);
      OfferIsTaken(lib, cfg, s, s.files[cfg.name], true);
      NotSelfUpdate(lib, installed);
    } else {
      forall env | Faithful(lib, env) && Replaced(lib, cfg, s, env)
        ensures IsUpdate(lib, installed, env.second.value.version)
      {
        assert IsUpdate(lib, s.running, env.second.value.version);
        NewerThanBoth(lib, installed, s.running, env.second.value.version);
      }
    }
  }

  lemma NewerThanBoth(lib: Library, a: string, b: string, c: string)
    requires lib.parse(a).Some? && lib.parse(b).Some? && !IsUpdate(lib, b, a) && IsUpdate(lib, b, c)
    ensures IsUpdate(lib, a, c)
  {
    VersionTotalOrder();
    hide CompareVersion;
  }

  /** Whatever happens from `s` on, every binary put in place is strictly newer than the installed one. */
  ghost predicate OnlyAdvances(lib: Library, cfg: Config, s: State) {
    forall envs: seq<Env>, n: nat :: AllFaithful(lib, envs) && n < |envs| ==> AdvancesAt(lib, cfg, s, envs, n)
  }

  predicate AdvancesAt(lib: Library, cfg: Config, s: State, envs: seq<Env>, n: nat)
    requires n < |envs|
  {
    InstalledFrom(lib, cfg.name, After(lib, cfg, s, envs[..n]).files, After(lib, cfg, s, envs[..n + 1]).files,
                  ReplacedAt(lib, cfg, s, envs, n))
  }

  lemma UnmanagedRestartsWork(lib: Library, cfg: Config, s: State, envs: seq<Env>)
    requires !cfg.managed
    ensures RestartsWork(lib, cfg, s, envs)
  {
    hide After, Replaced;
  }

  /**
   All runs, exactly: with two newer binaries about, no run from a state in sync ever
   reinstalls or downgrades if and only if no service manager is asked to restart.
   When one is, a restart that fails after the replacement leaves the old version
   running, and its next check compares manifests against that.
   */
  lemma RunsAdvanceExactlyWithoutServiceManager(lib: Library, cfg: Config, s: State, older: seq<byte>, newer: seq<byte>)
    requires PlainDigests(lib) && cfg.name in s.files && InSync(lib, cfg, s)
    requires IsUpdate(lib, s.running, lib.reports(older)) && IsUpdate(lib, lib.reports(older), lib.reports(newer))
    ensures OnlyAdvances(lib, cfg, s) <==> !cfg.managed
  {
    if cfg.managed {
      DowngradeRun(lib, cfg, s, older, newer);
    } else {
      forall envs: seq<Env>, n: nat | AllFaithful(lib, envs) && n < |envs| ensures AdvancesAt(lib, cfg, s, envs, n) {
        UnmanagedRestartsWork(lib, cfg, s, envs);
        hide After, AllFaithful, InSync, RestartsWork, ReplacedAt;
        OneCycle(lib, cfg, s, envs, n);
      }
    }
  }

  /** The failing run: the newer binary is installed, its restart fails, and the older one then replaces it. */
  lemma DowngradeRun(lib: Library, cfg: Config, s: State, older: seq<byte>, newer: seq<byte>)
    requires cfg.managed && PlainDigests(lib) && cfg.name in s.files
    requires IsUpdate(lib, s.running, lib.reports(older)) && IsUpdate(lib, lib.reports(older), lib.reports(newer))
    ensures !OnlyAdvances(lib, cfg, s)
  {
    var (first, second) := (Offer(lib, newer, false), Offer(lib, older, true));
    var envs := [first, second];
    UpdatesChain(lib, s.running, lib.reports(older), lib.reports(newer));
    OfferIsTaken(lib, cfg, s, newer, false);
    var between := Next(lib, cfg, s, first);
    OfferIsTaken(lib, cfg, between, older, true);
    assert envs[..1] == [first] && [first][..0] == [];
    hide Next, IsUpdate, Faithful;
    assert After(lib, cfg, s, []) == s;
    assert After(lib, cfg, s, [first]) == between;
    assert After(lib, cfg, s, envs) == Next(lib, cfg, between, second);
    assert AllFaithful(lib, envs);
    assert envs[..2] == envs;
    UpdatesDiffer(lib, older, newer);
    assert ReplacedAt(lib, cfg, s, envs, 1);
    assert !AdvancesAt(lib, cfg, s, envs, 1);
  }

  lemma UpdatesDiffer(lib: Library, older: seq<byte>, newer: seq<byte>)
    requires IsUpdate(lib, lib.reports(older), lib.reports(newer))
    ensures older != newer && !IsUpdate(lib, lib.reports(newer), lib.reports(older))
  {
    VersionTotalOrder();
    hide CompareVersion;
  }
}
