/**
 * Whether the running process is the `pre-commit` command, so that the
 * interception should be installed (`_patch`, the test before any rebinding).
 */
module Decision {
  import opened Wrappers
  import opened Text

  const ForceVariable := "FORCE_PRE_COMMIT_UV_PATCH"
  const DisableVariable := "DISABLE_PRE_COMMIT_UV_PATCH"

  /** The process facts the decision reads, as Python exposes them. */
  datatype Invocation = Invocation(
    argv: seq<string>,            // sys.argv
    executable: string,           // sys.executable
    platform: string,             // sys.platform
    separators: set<char>,        // the characters os.path.split cuts at
    environ: map<string, string>) // os.environ

  /** The exception the decision can raise. */
  datatype DecisionError = IndexError

  /** The host's command file name: `pre-commit`, or `pre-commit.exe` on win32. */
  function CommandName(platform: string): string
  {
    if platform == "win32" then "pre-commit.exe" else "pre-commit"
  }

  // ---------------------------------------------------------------------------
  // The decision as the code is written.
  // ---------------------------------------------------------------------------

  /**
   * The effective program name. The guard is `len(sys.argv) >= 1`, which always
   * holds here, so a lone interpreter path indexes `sys.argv[1]` and raises.
   */
  function CallingName(argv: seq<string>, executable: string): (r: Result<string, DecisionError>)
    requires |argv| >= 1
    ensures r.Err? <==> argv == [executable]
    ensures r.Ok? ==> r.value == IntendedCallingName(argv, executable)
  {
    if argv[0] == executable && |argv| >= 1 then
      if |argv| >= 2 then Ok(argv[1]) else Err(IndexError)
    else Ok(argv[0])
  }

  /** `calling_pre_commit` once the argument test has run. */
  function CallingPreCommit(inv: Invocation): (r: Result<bool, DecisionError>)
    ensures ForceVariable in inv.environ ==> r == Ok(true)
    ensures r.Err? ==> inv.argv == [inv.executable] && inv.executable != ""
  {
    if ForceVariable in inv.environ then Ok(true)
    else if inv.argv == [] || inv.argv[0] == "" then Ok(false)
    else match CallingName(inv.argv, inv.executable)
      case Err(e) => Err(e)
      case Ok(name) => Ok(SplitTail(name, inv.separators) == CommandName(inv.platform))
  }

  /** Whether `_patch` goes on to rebind the host's entry point. */
  function Decide(inv: Invocation): (r: Result<bool, DecisionError>)
    ensures r == Ok(true) ==> DisableVariable !in inv.environ
    ensures r == Ok(true) ==> ForceVariable in inv.environ || (inv.argv != [] && inv.argv[0] != "")
  {
    match CallingPreCommit(inv)
    case Err(e) => Err(e)
    case Ok(calling) => Ok(calling && DisableVariable !in inv.environ)
  }

  // ---------------------------------------------------------------------------
  // The decision as intended: a second argument is used only when it exists.
  // ---------------------------------------------------------------------------

  function IntendedCallingName(argv: seq<string>, executable: string): string
    requires |argv| >= 1
  {
    if argv[0] == executable && |argv| >= 2 then argv[1] else argv[0]
  }

  /** The decision with `len(sys.argv) >= 2` in place of `len(sys.argv) >= 1`. */
  function ShouldPatch(inv: Invocation): bool
  {
    && DisableVariable !in inv.environ
    && (|| ForceVariable in inv.environ
        || (&& inv.argv != []
            && inv.argv[0] != ""
            && SplitTail(IntendedCallingName(inv.argv, inv.executable), inv.separators)
               == CommandName(inv.platform)))
  }

  /** The code raises exactly when the argument list is the interpreter path alone and nothing forces the patch. */
  lemma DecideRaisesOnlyOnLoneInterpreter(inv: Invocation)
    ensures Decide(inv).Err? <==>
      ForceVariable !in inv.environ && inv.executable != "" && inv.argv == [inv.executable]
  {
  }

  /** Whenever the code does not raise, it decides as intended. */
  lemma DecideAgreesWithIntended(inv: Invocation)
    ensures Decide(inv).Ok? ==> Decide(inv).value == ShouldPatch(inv)
  {
  }

  /** A concrete input: `sys.argv == [sys.executable]` raises, where the intended decision is false. */
  lemma LoneInterpreterRaises()
    ensures var inv := Invocation(["/usr/bin/python3"], "/usr/bin/python3", "linux", {'/'}, map[]);
      Decide(inv) == Err(IndexError) && !ShouldPatch(inv)
  {
  }

  // ---------------------------------------------------------------------------
  // Properties of the decision.
  // ---------------------------------------------------------------------------

  /** With the force variable set, the arguments, interpreter and platform are not consulted. */
  lemma ForceIgnoresArguments(inv: Invocation, argv: seq<string>, executable: string, platform: string)
    requires ForceVariable in inv.environ
    ensures Decide(inv) == Ok(DisableVariable !in inv.environ)
    ensures Decide(inv.(argv := argv, executable := executable, platform := platform)) == Decide(inv)
  {
  }

  /** The disable variable vetoes the patch whatever its value, even the empty string. */
  lemma DisableVetoes(inv: Invocation)
    requires DisableVariable in inv.environ
    ensures Decide(inv).Ok? ==> !Decide(inv).value
    ensures !ShouldPatch(inv)
  {
  }

  /** Without the force variable, an empty argument list or an empty program name never patches. */
  lemma NoProgramNameNoPatch(inv: Invocation)
    requires ForceVariable !in inv.environ
    requires inv.argv == [] || inv.argv[0] == ""
    ensures Decide(inv) == Ok(false)
  {
  }

  /** Running `<dir>/pre-commit` directly installs the patch unless it is disabled. */
  lemma DirectCommandPatches(inv: Invocation, dir: string, sep: char)
    requires sep in inv.separators
    requires NoneIn(CommandName(inv.platform), inv.separators)
    requires |inv.argv| >= 1 && inv.argv[0] == dir + [sep] + CommandName(inv.platform)
    requires inv.argv[0] != inv.executable
    ensures Decide(inv) == Ok(DisableVariable !in inv.environ)
  {
    SplitTailOfJoin(dir, sep, CommandName(inv.platform), inv.separators);
  }

  /** Relaunching `<dir>/pre-commit` through the running interpreter installs the patch unless it is disabled. */
  lemma InterpreterRelaunchPatches(inv: Invocation, dir: string, sep: char)
    requires sep in inv.separators
    requires NoneIn(CommandName(inv.platform), inv.separators)
    requires |inv.argv| >= 2 && inv.argv[0] == inv.executable != ""
    requires inv.argv[1] == dir + [sep] + CommandName(inv.platform)
    ensures Decide(inv) == Ok(DisableVariable !in inv.environ)
  {
    SplitTailOfJoin(dir, sep, CommandName(inv.platform), inv.separators);
  }

  /**
   * A program whose file name is not the host's command, imported without the
   * force variable, never installs the patch: a script path, `python -c`, or the
   * interpreter relaunching some other program.
   */
  lemma UnrelatedProgramNeverPatches(inv: Invocation)
    requires ForceVariable !in inv.environ
    requires inv.argv != [] && (inv.argv[0] != inv.executable || |inv.argv| >= 2)
    requires SplitTail(IntendedCallingName(inv.argv, inv.executable), inv.separators) != CommandName(inv.platform)
    ensures Decide(inv) == Ok(false)
  {
  }

  /** `python script.py`: a bare script name other than the command never patches. */
  lemma ScriptNameNeverPatches(inv: Invocation, script: string)
    requires ForceVariable !in inv.environ
    requires NoneIn(script, inv.separators) && script != CommandName(inv.platform)
    requires inv.argv != [] && inv.argv[0] == script && script != inv.executable
    ensures Decide(inv) == Ok(false)
  {
  }
}
