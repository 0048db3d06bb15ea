/**
 * What one call of the wrapped entry point sets up: the four memoised accessors
 * and the replacement for pre-commit's Python `install_environment`.
 */
module Provision {
  import opened Wrappers
  import opened Text

  const SelfDistribution := "pre-commit-uv"
  const UvDistribution := "uv"
  const ParentInterpreterVariable := "UV_INTERNAL__PARENT_INTERPRETER"
  const FilesystemRoot := "/"
  /** The one-liner the version probe runs with `-S -c`. */
  const VersionProgram := "import sys;print(\".\".join(str(p) for p in sys.version_info[0:3]))"

  /** pre-commit's handle on one checked-out hook repository. */
  datatype Prefix = Prefix(prefixDir: string)

  /** The pre-commit functions the installer calls; their code is not part of this model. */
  datatype PreCommitApi = PreCommitApi(
    normVersion: string -> Option<string>,               // python.norm_version
    environmentDir: (Prefix, string, string) -> string,  // lang_base.environment_dir
    pythonEnvironmentDir: string)                        // python.ENVIRONMENT_DIR

  /**
   * The facts of the running interpreter the installer reads: `os.environ` and
   * `sys.executable`, the same process whose `Decision.Invocation` the patch
   * decision reads, at the later moment when a hook environment is installed.
   */
  datatype Process = Process(environ: map<string, string>, executable: string)

  /** What `cmd_output(exe, "-S", "-c", prog)` gives back: its standard output, or CalledProcessError. */
  datatype ProbeOutcome = Completed(stdout: string) | CalledProcessError

  /** Effects the installer has on the outside world, in order. */
  datatype Effect =
    | Info(message: string)                                          // logger.info on "pre_commit"
    | Spawn(argv: seq<string>, cwd: string, env: map<string, string>) // cmd_output_b(*argv, cwd=, env=)
    | Setup(prefix: Prefix, argv: seq<string>, activeVersion: string) // setup_cmd inside python.in_env(prefix, version)

  /** How one installation ends: normally, or with CalledProcessError from the named command. */
  datatype Outcome = Installed | Failed(command: Effect)

  /** The outside world the accessors and the installer consult. */
  datatype World = World(
    findUvBin: () -> string,                    // uv.find_uv_bin()
    metadataVersion: string -> string,          // importlib.metadata.version(name)
    probe: seq<string> -> ProbeOutcome,         // pre_commit.util.cmd_output(...)
    succeeds: Effect -> bool)                   // a child process exits with status 0

  // ---------------------------------------------------------------------------
  // Commands, environment and messages the installer builds.
  // ---------------------------------------------------------------------------

  /** `uv venv <envdir>`, followed by `-p <py>` only when the version normalises to something. */
  function VenvCommand(uv: string, envDir: string, py: Option<string>): seq<string>
  {
    [uv, "venv", envDir] + (if py.Some? then ["-p", py.value] else [])
  }

  /** Reads back the executable, directory and interpreter request from a venv command. */
  function ParseVenvCommand(cmd: seq<string>): Option<(string, string, Option<string>)>
  {
    if |cmd| == 3 && cmd[1] == "venv" then Some((cmd[0], cmd[2], None))
    else if |cmd| == 5 && cmd[1] == "venv" && cmd[3] == "-p" then Some((cmd[0], cmd[2], Some(cmd[4])))
    else None
  }

  /** The venv command carries exactly the executable, directory and version flag it was built from. */
  lemma VenvCommandRoundTrip(uv: string, envDir: string, py: Option<string>)
    ensures ParseVenvCommand(VenvCommand(uv, envDir, py)) == Some((uv, envDir, py))
    ensures "-p" in VenvCommand(uv, envDir, py)[3..] <==> py.Some?
  {
  }

  /** `uv pip install . <deps...>`. */
  function InstallCommand(uv: string, deps: seq<string>): seq<string>
  {
    [uv, "pip", "install", "."] + deps
  }

  /** The packages an install command asks for, after the project itself. */
  function Requirements(cmd: seq<string>): Option<seq<string>>
  {
    if |cmd| >= 4 && cmd[1..4] == ["pip", "install", "."] then Some(cmd[4..]) else None
  }

  /** The install command installs the project, then every extra dependency in the given order. */
  lemma InstallCommandRoundTrip(uv: string, deps: seq<string>)
    ensures Requirements(InstallCommand(uv, deps)) == Some(deps)
    ensures InstallCommand(uv, deps)[0] == uv
  {
  }

  /** A copy of the process environment with the parent-interpreter variable set. */
  function ChildEnv(environ: map<string, string>, executable: string): (env: map<string, string>)
    ensures env.Keys == environ.Keys + {ParentInterpreterVariable}
    ensures env[ParentInterpreterVariable] == executable
    ensures forall k :: k in environ && k != ParentInterpreterVariable ==> env[k] == environ[k]
  {
    environ[ParentInterpreterVariable := executable]
  }

  /** The one informational line logged per installation. */
  function UsingLine(uvVersion: string, selfVersion: string): string
  {
    "Using pre-commit with uv " + uvVersion + " via pre-commit-uv " + selfVersion
  }

  /** The argument list of the version probe. */
  function ProbeCommand(exe: string): seq<string>
  {
    [exe, "-S", "-c", VersionProgram]
  }

  function Placeholder(exe: string): string
  {
    "<<error retrieving version from " + exe + ">>"
  }

  /** `_version_info`'s value for one probe: trimmed output, or the placeholder on CalledProcessError. */
  function ProbeValue(exe: string, outcome: ProbeOutcome): string
  {
    match outcome
    case Completed(stdout) => Strip(stdout)
    case CalledProcessError => Placeholder(exe)
  }

  /** Every cached `_version_info` value is what probing that executable reports. */
  ghost predicate ProbesAnswered(world: World, cache: map<string, string>)
  {
    forall exe :: exe in cache ==> cache[exe] == ProbeValue(exe, world.probe(ProbeCommand(exe)))
  }

  /** Caching one more probe result keeps every cached value a probe result. */
  lemma ProbesAnsweredExtend(world: World, cache: map<string, string>, exe: string)
    requires ProbesAnswered(world, cache)
    ensures ProbesAnswered(world, cache[exe := ProbeValue(exe, world.probe(ProbeCommand(exe)))])
  {
  }

  /** A probe printing a version and then whitespace (`3.12.1\n`) reports just the version. */
  lemma ProbeValueMeaning(exe: string, version: string, trail: string)
    requires version == [] || (!IsSpace(version[0]) && !IsSpace(version[|version| - 1]))
    requires AllSpace(trail)
    ensures ProbeValue(exe, Completed(version + trail)) == version
  {
    StripPadded([], version, trail);
    assert [] + version + trail == version + trail;
  }

  // ---------------------------------------------------------------------------
  // The state one `_new_main` call creates: four memo tables and the effects so far.
  // ---------------------------------------------------------------------------

  class Session {
    const world: World
    var uvBin: Option<string>             // _uv's cache
    var selfVersion: Option<string>       // self_version's cache
    var uvVersion: Option<string>         // uv_version's cache
    var versionInfo: map<string, string>  // _version_info's cache, keyed by executable
    var trace: seq<Effect>                // log lines and child processes, in order

    // How often each expensive lookup has run in this session.
    ghost var uvBinLookups: nat
    ghost var selfVersionLookups: nat
    ghost var uvVersionLookups: nat
    ghost var probes: map<string, nat>

    /** Each lookup has run once if its result is cached, and never otherwise; every cached value is the lookup's answer. */
    ghost predicate Valid()
      reads this
    {
      && uvBinLookups == (if uvBin.Some? then 1 else 0)
      && selfVersionLookups == (if selfVersion.Some? then 1 else 0)
      && uvVersionLookups == (if uvVersion.Some? then 1 else 0)
      && probes.Keys == versionInfo.Keys
      && (forall exe :: exe in probes ==> probes[exe] == 1)
      && (uvBin.Some? ==> uvBin.value == world.findUvBin())
      && (selfVersion.Some? ==> selfVersion.value == world.metadataVersion(SelfDistribution))
      && (uvVersion.Some? ==> uvVersion.value == world.metadataVersion(UvDistribution))
      && ProbesAnswered(world, versionInfo)
    }

    constructor (world: World)
      ensures Valid() && this.world == world
      ensures uvBin == None && selfVersion == None && uvVersion == None
      ensures versionInfo == map[] && trace == []
    {
      this.world := world;
      uvBin, selfVersion, uvVersion := None, None, None;
      versionInfo, trace := map[], [];
      uvBinLookups, selfVersionLookups, uvVersionLookups, probes := 0, 0, 0, map[];
    }

    /** `_uv()`: the uv executable, looked up on the first call only. */
    method Uv() returns (uv: string)
      requires Valid()
      modifies this`uvBin, this`uvBinLookups
      ensures Valid() && uvBin == Some(uv) && uv == world.findUvBin()
      ensures uvBinLookups == 1
      ensures old(uvBin).Some? ==> uv == old(uvBin).value && uvBinLookups == old(uvBinLookups)
    {
      if uvBin.Some? {
        return uvBin.value;
      }
      uv := world.findUvBin();
      uvBinLookups := uvBinLookups + 1;
      uvBin := Some(uv);
    }

    /** `self_version()`: this package's installed version, looked up on the first call only. */
    method SelfVersion() returns (v: string)
      requires Valid()
      modifies this`selfVersion, this`selfVersionLookups
      ensures Valid() && selfVersion == Some(v) && v == world.metadataVersion(SelfDistribution)
      ensures selfVersionLookups == 1
      ensures old(selfVersion).Some? ==> v == old(selfVersion).value && selfVersionLookups == old(selfVersionLookups)
    {
      if selfVersion.Some? {
        return selfVersion.value;
      }
      v := world.metadataVersion(SelfDistribution);
      selfVersionLookups := selfVersionLookups + 1;
      selfVersion := Some(v);
    }

    /** `uv_version()`: uv's installed version, looked up on the first call only. */
    method UvVersion() returns (v: string)
      requires Valid()
      modifies this`uvVersion, this`uvVersionLookups
      ensures Valid() && uvVersion == Some(v) && v == world.metadataVersion(UvDistribution)
      ensures uvVersionLookups == 1
      ensures old(uvVersion).Some? ==> v == old(uvVersion).value && uvVersionLookups == old(uvVersionLookups)
    {
      if uvVersion.Some? {
        return uvVersion.value;
      }
      v := world.metadataVersion(UvDistribution);
      uvVersionLookups := uvVersionLookups + 1;
      uvVersion := Some(v);
    }

    /** `_version_info(exe)`: probes each executable once; a failed probe yields the placeholder, never an exception. */
    method VersionInfo(exe: string) returns (v: string)
      requires Valid()
      modifies this`versionInfo, this`probes
      ensures Valid()
      ensures versionInfo == old(versionInfo)[exe := v] && probes == old(probes)[exe := 1]
      ensures exe in old(versionInfo) ==> v == old(versionInfo)[exe] && probes == old(probes)
      ensures v == ProbeValue(exe, world.probe(ProbeCommand(exe)))
    {
      if exe !in versionInfo {
        ProbesAnsweredExtend(world, versionInfo, exe);
        probes := probes[exe := 1];
        versionInfo := versionInfo[exe := ProbeValue(exe, world.probe(ProbeCommand(exe)))];
      }
      v := versionInfo[exe];
    }

    /**
     * `_install_environment(prefix, version, additional_dependencies)`: logs one
     * line, creates the virtual environment with uv from `/`, then installs the
     * project and its extra dependencies inside it. A failing child process
     * raises CalledProcessError and ends the installation.
     */
    method InstallEnvironment(api: PreCommitApi, process: Process, prefix: Prefix, version: string, deps: seq<string>)
      returns (outcome: Outcome)
      requires Valid()
      modifies this`uvBin, this`selfVersion, this`uvVersion, this`trace
      modifies this`uvBinLookups, this`selfVersionLookups, this`uvVersionLookups
      ensures Valid()
      ensures uvBinLookups == selfVersionLookups == uvVersionLookups == 1
      ensures uvBin == Some(world.findUvBin())
      ensures uvVersion == Some(world.metadataVersion(UvDistribution))
      ensures selfVersion == Some(world.metadataVersion(SelfDistribution))
      ensures
        var venv := Spawn(
          VenvCommand(uvBin.value, api.environmentDir(prefix, api.pythonEnvironmentDir, version), api.normVersion(version)),
          FilesystemRoot,
          ChildEnv(process.environ, process.executable));
        var install := Setup(prefix, InstallCommand(uvBin.value, deps), version);
        && trace == old(trace) + [Info(UsingLine(uvVersion.value, selfVersion.value))] + [venv]
                    + (if world.succeeds(venv) then [install] else [])
        && outcome == (if !world.succeeds(venv) then Failed(venv)
                       else if !world.succeeds(install) then Failed(install)
                       else Installed)
    {
      var uvV := UvVersion();
      var selfV := SelfVersion();
      trace := trace + [Info(UsingLine(uvV, selfV))];
      var uv := Uv();
      var venvCmd := [uv, "venv", api.environmentDir(prefix, api.pythonEnvironmentDir, version)];
      var py := api.normVersion(version);
      if py.Some? {
        venvCmd := venvCmd + ["-p", py.value];
      }
      var env := process.environ;
      env := env[ParentInterpreterVariable := process.executable];
      assert venvCmd == VenvCommand(uv, api.environmentDir(prefix, api.pythonEnvironmentDir, version), py);
      assert env == ChildEnv(process.environ, process.executable);
      var venv := Spawn(venvCmd, FilesystemRoot, env);
      trace := trace + [venv];
      if !world.succeeds(venv) {
        return Failed(venv);
      }
      var install := Setup(prefix, [uv, "pip", "install", "."] + deps, version);
      assert install == Setup(prefix, InstallCommand(uvBin.value, deps), version);
      trace := trace + [install];
      if !world.succeeds(install) {
        return Failed(install);
      }
      return Installed;
    }
  }
}
