/**
 * The one-time interception: `_patch` swaps pre-commit's entry point for the
 * wrapper, and the wrapper (`_new_main`) rebinds pre-commit's two Python hooks
 * before handing over to the original entry point.
 */
module Patch {
  import opened Wrappers
  import opened Decision
  import opened Provision

  /** The callables that pre-commit's rebindable attributes can hold. */
  datatype Fn =
    | HostFn(name: string)          // a function pre-commit itself defines
    | NewMainFn                     // pre_commit_uv._new_main, as a value
    | InstallVia(session: Session)  // the _install_environment closure of one _new_main call
    | ProbeVia(session: Session)    // the _version_info closure of one _new_main call

  /** pre-commit's four attributes this package rebinds, at one moment. */
  datatype HostView = HostView(
    main: Fn,                // pre_commit.main.main
    installEnvironment: Fn,  // pre_commit.languages.python.install_environment
    versionInfo: Fn,         // pre_commit.languages.python._version_info
    version: string)         // pre_commit.constants.VERSION

  /** The package global `_original_main` together with the host's attributes. */
  datatype PatchState = PatchState(originalMain: Option<Fn>, host: HostView)

  /** The version banner after `--version`: pre-commit's, then both package versions. */
  function Banner(version: string, selfVersion: string, uvVersion: string): string
  {
    version + " (pre-commit-uv=" + selfVersion + ", uv=" + uvVersion + ")"
  }

  /** The banner keeps pre-commit's own version text in front. */
  lemma BannerExtends(version: string, selfVersion: string, uvVersion: string)
    ensures |Banner(version, selfVersion, uvVersion)| > |version|
    ensures Banner(version, selfVersion, uvVersion)[..|version|] == version
  {
  }

  /**
   * One call of `_patch`, as a function of the state before it. `selfVersion`
   * and `uvVersion` are what the metadata lookups report.
   */
  function Step(s: PatchState, inv: Invocation, selfVersion: string, uvVersion: string): (r: Result<PatchState, DecisionError>)
    ensures r.Err? ==> s.originalMain.None? && Decide(inv).Err?
    ensures r.Ok? ==> r.value.host.installEnvironment == s.host.installEnvironment
    ensures r.Ok? ==> r.value.host.versionInfo == s.host.versionInfo
  {
    if s.originalMain.Some? then Ok(s)
    else match Decide(inv)
      case Err(e) => Err(e)
      case Ok(false) => Ok(s)
      case Ok(true) =>
        Ok(PatchState(
          Some(s.host.main),
          s.host.(main := NewMainFn,
                  version := if "--version" in inv.argv then Banner(s.host.version, selfVersion, uvVersion)
                             else s.host.version)))
  }

  /** Once patched, `_patch` changes nothing: the entry point is not wrapped twice and the banner not extended twice. */
  lemma StepWhenPatched(s: PatchState, inv: Invocation, selfVersion: string, uvVersion: string)
    requires s.originalMain.Some?
    ensures Step(s, inv, selfVersion, uvVersion) == Ok(s)
  {
  }

  /**
   * From the unpatched state, `_patch` installs the wrapper exactly when the
   * intended decision says so (unless it raises), keeps the old entry point as
   * the original, leaves the Python hooks alone, and extends the banner exactly
   * when `--version` is an argument.
   */
  lemma StepWhenUnpatched(s: PatchState, inv: Invocation, selfVersion: string, uvVersion: string)
    requires s.originalMain.None?
    ensures Step(s, inv, selfVersion, uvVersion).Err? <==> Decide(inv).Err?
    ensures Step(s, inv, selfVersion, uvVersion).Ok? ==>
      var t := Step(s, inv, selfVersion, uvVersion).value;
      && (t.originalMain.Some? <==> ShouldPatch(inv))
      && (t.originalMain.None? ==> t == s)
      && (t.originalMain.Some? ==>
            && t.originalMain == Some(s.host.main)
            && t.host.main == NewMainFn
            && t.host.installEnvironment == s.host.installEnvironment
            && t.host.versionInfo == s.host.versionInfo
            && t.host.version == (if "--version" in inv.argv then Banner(s.host.version, selfVersion, uvVersion)
                                  else s.host.version))
  {
  }

  /** `_patch` called once per invocation in turn; a call that raises leaves the state as it was. */
  function Run(s: PatchState, invs: seq<Invocation>, selfVersion: string, uvVersion: string): (t: PatchState)
    ensures t.host.installEnvironment == s.host.installEnvironment
    ensures t.host.versionInfo == s.host.versionInfo
    ensures s.originalMain.Some? ==> t.originalMain == s.originalMain
    decreases |invs|
  {
    if invs == [] then s
    else
      var next := match Step(s, invs[0], selfVersion, uvVersion)
        case Ok(t) => t
        case Err(_) => s;
      Run(next, invs[1..], selfVersion, uvVersion)
  }

  lemma {:induction false} RunWhenPatched(s: PatchState, invs: seq<Invocation>, selfVersion: string, uvVersion: string)
    requires s.originalMain.Some?
    ensures Run(s, invs, selfVersion, uvVersion) == s
    decreases |invs|
  {
    if invs != [] {
      RunWhenPatched(s, invs[1..], selfVersion, uvVersion);
    }
  }

  /**
   * However often `_patch` runs, the entry point is wrapped at most once, the
   * wrapper keeps the very first entry point as the original, the Python hooks
   * are untouched, and the banner is extended at most once. The wrapper is in
   * place exactly when some call decided to patch.
   */
  lemma {:induction false} RunWrapsAtMostOnce(s: PatchState, invs: seq<Invocation>, selfVersion: string, uvVersion: string)
    requires s.originalMain.None?
    ensures var t := Run(s, invs, selfVersion, uvVersion);
      && (t.originalMain.None? ==> t == s)
      && (t.originalMain.Some? ==>
            && t.originalMain == Some(s.host.main)
            && t.host.main == NewMainFn
            && t.host.installEnvironment == s.host.installEnvironment
            && t.host.versionInfo == s.host.versionInfo
            && (t.host.version == s.host.version || t.host.version == Banner(s.host.version, selfVersion, uvVersion)))
      && (t.originalMain.Some? <==> exists i :: 0 <= i < |invs| && Decide(invs[i]) == Ok(true))
    decreases |invs|
  {
    if invs != [] {
      var r := Step(s, invs[0], selfVersion, uvVersion);
      var next := if r.Ok? then r.value else s;
      assert Run(s, invs, selfVersion, uvVersion) == Run(next, invs[1..], selfVersion, uvVersion);
      if next.originalMain.Some? {
        RunWhenPatched(next, invs[1..], selfVersion, uvVersion);
        assert Decide(invs[0]) == Ok(true);
      } else {
        assert next == s;
        RunWrapsAtMostOnce(s, invs[1..], selfVersion, uvVersion);
        assert Decide(invs[0]) != Ok(true);
        forall i | 0 < i < |invs|
          ensures Decide(invs[i]) == Decide(invs[1..][i - 1])
        {
        }
      }
    }
  }

  // ---------------------------------------------------------------------------
  // The objects the code updates in place.
  // ---------------------------------------------------------------------------

  /** The attributes of pre-commit's modules that this package rebinds. */
  class Host {
    var main: Fn
    var installEnvironment: Fn
    var versionInfo: Fn
    var version: string

    function View(): HostView
      reads this
    {
      HostView(main, installEnvironment, versionInfo, version)
    }

    constructor (version: string)
      ensures View() == HostView(HostFn("main"), HostFn("install_environment"), HostFn("_version_info"), version)
    {
      main := HostFn("main");
      installEnvironment := HostFn("install_environment");
      versionInfo := HostFn("_version_info");
      this.version := version;
    }
  }

  /** What the wrapped entry point can end with besides pre-commit's exit code. */
  datatype MainError = AssertionError

  /** The module `pre_commit_uv`: its one global, and its two functions. */
  class Package {
    var originalMain: Option<Fn>

    function State(host: Host): PatchState
      reads this, host
    {
      PatchState(originalMain, host.View())
    }

    constructor ()
      ensures originalMain.None?
    {
      originalMain := None;
    }

    /**
     * `_patch()`. `selfVersion` and `uvVersion` are what
     * `importlib.metadata.version` reports for the two distributions.
     */
    method Patch(host: Host, inv: Invocation, selfVersion: string, uvVersion: string)
      returns (r: Result<(), DecisionError>)
      modifies this, host
      ensures match Step(old(State(host)), inv, selfVersion, uvVersion)
        case Ok(t) => r.Ok? && State(host) == t
        case Err(e) => r == Err(e) && State(host) == old(State(host))
    {
      if originalMain.Some? {
        return Ok(());
      }
      var callingPreCommit := ForceVariable in inv.environ;
      if !callingPreCommit && inv.argv != [] && inv.argv[0] != "" {
        var calling;
        if inv.argv[0] == inv.executable && |inv.argv| >= 1 {
          if |inv.argv| < 2 {
            return Err(IndexError);
          }
          calling := inv.argv[1];
        } else {
          calling := inv.argv[0];
        }
        if Text.SplitTail(calling, inv.separators) == CommandName(inv.platform) {
          callingPreCommit := true;
        }
      }
      if callingPreCommit && DisableVariable !in inv.environ {
        originalMain, host.main := Some(host.main), NewMainFn;
        if "--version" in inv.argv {
          host.version := Banner(host.version, selfVersion, uvVersion);
        }
      }
      return Ok(());
    }

    /**
     * `_new_main(argv)`: a fresh set of memo tables, both Python hooks rebound
     * to closures over them, then the original entry point. `exitCode` is what
     * the original entry point returns, given its arguments and the hooks bound
     * while it runs.
     */
    method NewMain(host: Host, argv: Option<seq<string>>, world: World,
                   exitCode: (Fn, Option<seq<string>>, HostView) -> int)
      returns (r: Result<int, MainError>, session: Session)
      modifies host
      ensures fresh(session) && session.Valid() && session.world == world
      ensures session.uvBin.None? && session.selfVersion.None? && session.uvVersion.None?
      ensures session.versionInfo == map[] && session.trace == []
      ensures host.View() == old(host.View()).(installEnvironment := InstallVia(session), versionInfo := ProbeVia(session))
      ensures originalMain.Some? ==> r == Ok(exitCode(originalMain.value, argv, host.View()))
      ensures originalMain.None? ==> r == Err(AssertionError)
    {
      session := new Session(world);
      host.installEnvironment := InstallVia(session);
      host.versionInfo := ProbeVia(session);
      if originalMain.None? {
        return Err(AssertionError), session;
      }
      r := Ok(exitCode(originalMain.value, argv, host.View()));
    }
  }
}
