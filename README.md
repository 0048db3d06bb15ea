# pre-commit-uv, modelled in Dafny

pre-commit-uv makes pre-commit build the virtual environments of Python hooks
with uv instead of virtualenv and pip. This project models the whole package,
`src/pre_commit_uv/__init__.py`, in five modules:

- `Decision` (decision.dfy): the test in `_patch` that decides whether the
  running process is the `pre-commit` command. It is modelled twice. `Decide`
  follows the code as written, including the `IndexError` of line 18.
  `ShouldPatch` is the intended rule: use the second argument only when it exists.
- `Patch` (patch.dfy): the package global `_original_main` and the four
  pre-commit attributes it rebinds (`main.main`, `python.install_environment`,
  `python._version_info`, `constants.VERSION`). `Package` and `Host` are classes
  updated in place. `Package.Patch` is `_patch`, and `Package.NewMain` is
  `_new_main`. The pure function `Step` says what one `_patch` call does, and
  `Run` says what a sequence of calls does. The lemmas about them state that
  the patch is idempotent.
- `Provision` (provision.dfy): one `Session` per `_new_main` call. A session
  holds the four `@cache` tables (`_uv`, `self_version`, `uv_version`,
  `_version_info`), the replacement `install_environment`, and the trace of
  log lines and child processes. Pure functions build the `uv venv` command,
  the `uv pip install` command, the child environment and the probe value.
- `Text` (text.dfy): the tail that `os.path.split` returns, and `str.strip()`.
- `Wrappers` (wrappers.dfy): `Option` and `Result`.

External calls are parameters. `World` holds `find_uv_bin`, the metadata
lookups, the version probe and whether a child process succeeds.
`PreCommitApi` holds `norm_version`, `environment_dir` and
`python.ENVIRONMENT_DIR`. `Process` holds `os.environ` and `sys.executable`.
`Invocation` holds `sys.argv`, `sys.executable`, `sys.platform`,
`os.environ` and the separator set of `os.path.split`.

Four points of the code's behaviour that are easy to misread:

- The memo tables are created inside `_new_main`, so they last for one call of
  the wrapped entry point, not for the whole process. Every `NewMain` call
  builds a fresh `Session` and binds both hooks to it.
- `_new_main` rebinds the two hooks every time it runs, not once per process.
- A lone interpreter path as the argument list raises `IndexError`. It does not
  give a false decision (see Findings).
- The probe only catches `CalledProcessError`. A spawn that fails counts only
  when pre-commit's `cmd_output` reports it as that error.

## Model

| member | source | states |
|---|---|---|
| `Text.SplitTail` | src/pre_commit_uv/__init__.py:19 | the tail is the longest separator-free suffix of the path: it is a suffix, it holds no separator, and it is the whole path or follows a separator |
| `Text.SplitTailUnique` | src/pre_commit_uv/__init__.py:19 | any suffix with those three properties is the tail, so the tail is well defined |
| `Text.SplitTailOfJoin` | src/pre_commit_uv/__init__.py:19 | the tail of `dir + sep + name` is `name` whenever `name` holds no separator |
| `Text.IsSpace` | src/pre_commit_uv/__init__.py:99 | `str.isspace()` on one character, written as the character ranges the 29 whitespace characters form |
| `Text.IsSpaceMatchesWhitespace` | src/pre_commit_uv/__init__.py:99 | those ranges hold exactly the 29 characters listed in `Whitespace`, the characters for which Python's `str.isspace()` is true |
| `Text.LeadingSpaces` | src/pre_commit_uv/__init__.py:99 | the length of the leading run `.strip()` removes: every character before it is whitespace, and the character at it, if any, is not |
| `Text.TrailingSpaces` | src/pre_commit_uv/__init__.py:99 | the length of the trailing run `.strip()` removes: every character in it is whitespace, and the character before it, if any, is not |
| `Text.TrimStart` | src/pre_commit_uv/__init__.py:99 | the text after the leading whitespace run |
| `Text.TrimEnd` | src/pre_commit_uv/__init__.py:99 | the text before the trailing whitespace run |
| `Text.Strip` | src/pre_commit_uv/__init__.py:99 | the result of `.strip()` neither starts nor ends with whitespace |
| `Text.TrimStartUnique` | src/pre_commit_uv/__init__.py:99 | the leading whitespace removed is exactly the run before the first non-space |
| `Text.TrimEndUnique` | src/pre_commit_uv/__init__.py:99 | the trailing whitespace removed is exactly the run after the last non-space |
| `Text.StripPadded` | src/pre_commit_uv/__init__.py:99 | stripping whitespace padding from a text without outer whitespace gives that text back |
| `Text.StripIdempotent` | src/pre_commit_uv/__init__.py:99 | stripping twice is stripping once |
| `Decision.CommandName` | src/pre_commit_uv/__init__.py:19 | the command's file name: `pre-commit.exe` when `sys.platform` is `win32`, `pre-commit` otherwise |
| `Decision.IntendedCallingName` | src/pre_commit_uv/__init__.py:18 | the corrected program name: the second argument when the first is the interpreter and a second exists, otherwise the first |
| `Decision.CallingName` | src/pre_commit_uv/__init__.py:18 | the program name as written: it raises exactly when `sys.argv` is `[sys.executable]`, and otherwise it is the intended name (the second argument after the interpreter, else the first) |
| `Decision.CallingPreCommit` | src/pre_commit_uv/__init__.py:16-20 | `calling_pre_commit`: true whenever the force variable is set; it can raise only on a lone non-empty interpreter path |
| `Decision.Decide` | src/pre_commit_uv/__init__.py:16-22 | the decision as written; a true decision implies no disable variable, and either the force variable or a non-empty program name |
| `Decision.ShouldPatch` | src/pre_commit_uv/__init__.py:16-22 | the corrected decision (a second argument used only when it exists): not disabled, and forced or the program's file name is the command; it never raises |
| `Decision.DecideRaisesOnlyOnLoneInterpreter` | src/pre_commit_uv/__init__.py:16-18 | the code raises iff the force variable is absent and `sys.argv` is exactly `[sys.executable]` with a non-empty executable |
| `Decision.DecideAgreesWithIntended` | src/pre_commit_uv/__init__.py:16-22 | whenever the code does not raise, its decision equals the intended rule: force or a matching program name, and no disable variable |
| `Decision.LoneInterpreterRaises` | src/pre_commit_uv/__init__.py:18 | for `argv == ["/usr/bin/python3"]` with that interpreter, the code raises `IndexError` while the intended decision is false |
| `Decision.ForceIgnoresArguments` | src/pre_commit_uv/__init__.py:16-22 | with the force variable set, the decision is "not disabled", whatever the arguments, interpreter and platform |
| `Decision.DisableVetoes` | src/pre_commit_uv/__init__.py:22 | any value of the disable variable, even empty, makes every decision that does not raise false; the line-18 `IndexError` can still come first |
| `Decision.NoProgramNameNoPatch` | src/pre_commit_uv/__init__.py:17 | without the force variable, an empty `sys.argv` or an empty `sys.argv[0]` decides false |
| `Decision.DirectCommandPatches` | src/pre_commit_uv/__init__.py:17-22 | running `<dir>/pre-commit` (`pre-commit.exe` on win32) patches unless disabled |
| `Decision.InterpreterRelaunchPatches` | src/pre_commit_uv/__init__.py:17-22 | `<python> <dir>/pre-commit`, with `<python>` equal to `sys.executable`, patches unless disabled |
| `Decision.UnrelatedProgramNeverPatches` | src/pre_commit_uv/__init__.py:16-22 | without the force variable, any invocation that does not raise and whose program name (the second argument after the interpreter, otherwise the first) has a file name other than the command decides false |
| `Decision.ScriptNameNeverPatches` | src/pre_commit_uv/__init__.py:17-20 | `python script.py`: a bare script name other than the command decides false |
| `Provision.VenvCommand` | src/pre_commit_uv/__init__.py:64-67 | builds `[uv, "venv", envdir]`, followed by `-p py` only when `norm_version` gave a value; its partner is `ParseVenvCommand` |
| `Provision.InstallCommand` | src/pre_commit_uv/__init__.py:73 | builds `[uv, "pip", "install", "."]` followed by the extra dependencies; its partner is `Requirements` |
| `Provision.UsingLine` | src/pre_commit_uv/__init__.py:62 | the formatted log line, with the uv version first and the pre-commit-uv version second |
| `Provision.ProbeCommand` | src/pre_commit_uv/__init__.py:97-99 | the probe runs `<exe> -S -c <program>`, where the program prints `sys.version_info[0:3]` joined with dots |
| `Provision.Placeholder` | src/pre_commit_uv/__init__.py:101 | the text reported for an executable whose probe raised `CalledProcessError` |
| `Provision.ProbeValue` | src/pre_commit_uv/__init__.py:98-101 | the stripped standard output of a completed probe, or the placeholder on `CalledProcessError` |
| `Provision.VenvCommandRoundTrip` | src/pre_commit_uv/__init__.py:64-67 | the venv command gives back exactly its uv path, environment directory and version request; `-p` follows the directory iff `norm_version` gave a value |
| `Provision.InstallCommandRoundTrip` | src/pre_commit_uv/__init__.py:73 | the install command starts with the uv path and asks for `.` followed by every extra dependency in the given order |
| `Provision.ChildEnv` | src/pre_commit_uv/__init__.py:68-69 | the child environment has the parent's keys plus `UV_INTERNAL__PARENT_INTERPRETER`, which is set to `sys.executable`, and every other value is the parent's |
| `Provision.ProbeValueMeaning` | src/pre_commit_uv/__init__.py:97-99 | a probe printing a version followed by whitespace (`3.12.1\n`) reports just the version |
| `Provision.ProbesAnsweredExtend` | src/pre_commit_uv/__init__.py:93-101 | caching one more probe result keeps every cached `_version_info` value equal to what probing that executable reports |
| `Provision.Session.constructor` | src/pre_commit_uv/__init__.py:75-94 | a new call of the wrapper starts with four empty memo tables and no lookups |
| `Provision.Session.Uv` | src/pre_commit_uv/__init__.py:75-79 | returns `find_uv_bin()`, and the lookup has run exactly once after any number of calls |
| `Provision.Session.SelfVersion` | src/pre_commit_uv/__init__.py:81-85 | returns the installed version of `pre-commit-uv`; the lookup runs once |
| `Provision.Session.UvVersion` | src/pre_commit_uv/__init__.py:87-91 | returns the installed version of `uv`; the lookup runs once |
| `Provision.Session.VersionInfo` | src/pre_commit_uv/__init__.py:93-101 | each executable is probed once; every call, cache hit or not, returns the stripped probe output or the placeholder on `CalledProcessError`, never an exception |
| `Provision.Session.InstallEnvironment` | src/pre_commit_uv/__init__.py:51-73 | logs exactly one "Using pre-commit with uv A via pre-commit-uv B" line, runs the venv command from `/` with the child environment, then the install command inside the activated environment only if the venv command succeeded; a failing command ends it with that failure |
| `Patch.Banner` | src/pre_commit_uv/__init__.py:31-36 | the `--version` banner: pre-commit's version, then `(pre-commit-uv=A, uv=B)` |
| `Patch.BannerExtends` | src/pre_commit_uv/__init__.py:31-36 | the extended banner keeps pre-commit's version text as its prefix |
| `Patch.Step` | src/pre_commit_uv/__init__.py:12-36 | one `_patch` call: it raises only from the unpatched state when the decision raises, and it never rebinds `install_environment` or `_version_info` |
| `Patch.StepWhenPatched` | src/pre_commit_uv/__init__.py:13-15 | once `_original_main` is set, `_patch` changes nothing |
| `Patch.StepWhenUnpatched` | src/pre_commit_uv/__init__.py:16-36 | from the unpatched state, `_patch` raises iff the decision raises; otherwise it wraps iff the intended decision holds, keeps the old entry point as the original, leaves the hooks alone, and sets the banner to the extended one if `--version` is an argument and leaves it unchanged otherwise |
| `Patch.Run` | src/pre_commit_uv/__init__.py:12-36 | any sequence of `_patch` calls, a raising call leaving the state as it was: the two Python hooks are never rebound, and a set `_original_main` never changes |
| `Patch.RunWhenPatched` | src/pre_commit_uv/__init__.py:13-15 | any number of further `_patch` calls leave a patched state unchanged |
| `Patch.RunWrapsAtMostOnce` | src/pre_commit_uv/__init__.py:12-36 | over any sequence of `_patch` calls, the entry point is wrapped at most once around the first entry point, the banner is extended at most once, and the wrapper is in place iff some call decided to patch |
| `Patch.Host.constructor` | src/pre_commit_uv/__init__.py:23-25 | pre-commit's attributes before any patch: its own `main`, `install_environment` and `_version_info`, and its version text |
| `Patch.Package.constructor` | src/pre_commit_uv/__init__.py:9 | `_original_main` starts as `None` |
| `Patch.Package.Patch` | src/pre_commit_uv/__init__.py:12-36 | the new global and host attributes are those `Step` gives; when the code raises, nothing has changed |
| `Patch.Package.NewMain` | src/pre_commit_uv/__init__.py:39-106 | binds both hooks to closures over a fresh session, leaves `main` and the banner alone, then returns the original entry point's exit code for the same arguments with the hooks already rebound; without an original it fails the assertion after rebinding |

## Left out

- Child processes, `find_uv_bin` and `importlib.metadata.version` are not run. Their results come from `World`, and `World` gives one fixed answer per argument. Memoisation therefore never changes a value here. What the model checks is how many lookups run: once per key per session.
- `python.norm_version`, `lang_base.environment_dir` and `python.ENVIRONMENT_DIR` belong to pre-commit, so they are parameters (`PreCommitApi`).
- `python.in_env`, `setup_cmd` and `cmd_output_b` belong to pre-commit. The install command is recorded as a `Setup` effect together with the version it runs under. Saving and restoring the environment variables inside `in_env` is not part of this model.
- Logging is recorded as an `Info` effect carrying the formatted message. Logger configuration is not modelled.
- Python imports and attribute assignment are modelled as field updates on `Host` and `Package`.
- `Provision.Session.Uv`: `find_uv_bin()` is taken to succeed. In the code it can raise `FileNotFoundError`, which in `_install_environment` comes after the log line and before any venv command, ends the installation, and leaves the `@cache` table empty, so a later call looks up again.
- `Provision.Session.SelfVersion`: `importlib.metadata.version("pre-commit-uv")` is taken to succeed. In the code it can raise `PackageNotFoundError`; `functools.cache` then stores nothing and the next call looks up again, so "once per key per session" holds only for lookups that succeed.
- `Provision.Session.UvVersion`: `importlib.metadata.version("uv")` is taken to succeed, with the same `PackageNotFoundError` path and the same repeated lookup after a failure as `SelfVersion`.
- `Provision.Session.InstallEnvironment`: the three lookups are taken to succeed. In the code a `PackageNotFoundError` from `uv_version()` or `self_version()` ends the installation before the log line, and a `FileNotFoundError` from `_uv()` ends it after the log line and before the venv command; neither path is modelled.
- In `_patch`, the metadata lookups for the `--version` banner are taken to succeed. A `PackageNotFoundError` there would come after `main.main` was swapped, and the model does not cover that.
- `Text.SplitTail` splits on a set of separators. It does not model `ntpath.splitdrive`, so a Windows path like `C:pre-commit.exe` keeps its drive prefix in the tail.
- On Windows, `os.environ` matches keys case-insensitively. The model compares keys exactly.
- `Patch.Package.NewMain`: the calls that the original entry point makes back into the rebound hooks while it runs are not modelled inside it. Its exit code is a function of the hooks bound at that moment, and the `Session` methods model what those calls do.
- The `assert` in `_new_main` is modelled as `AssertionError`. Running under `python -O`, which removes it, is not modelled.
- `task/dev_pth.py` only copies a `.pth` file. `tests/test_main.py` needs git, the network and a real pre-commit run. It is used only as evidence that one install logs exactly one "Using pre-commit with uv" line.

## Findings

| source | as written | input that shows it | evidently intended | confidence | as-written member | corrected member |
|---|---|---|---|---|---|---|
| src/pre_commit_uv/__init__.py:18 | the guard `len(sys.argv) >= 1` always holds after line 17, so `sys.argv[1]` is indexed whenever `sys.argv[0] == sys.executable` | `sys.argv == [sys.executable]` with a non-empty executable and no force variable: `_patch` raises `IndexError` | `len(sys.argv) >= 2`, falling back to `sys.argv[0]` (the interpreter path) when there is no second argument, so the decision is false unless the interpreter's own file name is the command, as `ShouldPatch` computes | medium; not executed | `Decision.LoneInterpreterRaises` | `Decision.ShouldPatch` |

`Decision.DecideRaisesOnlyOnLoneInterpreter` shows this is the only input on
which the code raises. `Decision.DecideAgreesWithIntended` shows that on every
other input the code decides as `ShouldPatch` does. `Package.Patch` keeps the
code's behaviour and returns the `IndexError` with nothing changed.
`Patch.StepWhenUnpatched` states the result of every call that does not raise
in terms of `ShouldPatch`.
