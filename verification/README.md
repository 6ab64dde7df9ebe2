# A verified model of the code-execution judging pipeline

The code-execution service takes a judging request. The request holds:
- source code;
- an ordered list of test cases, each a standard input and an expected standard output;
- a language name.

The service resolves the language to a handler through a case-insensitive registry. It creates a scratch workspace. It asks the handler to "compile" the code into an artifact inside that workspace. If the compile fails, it stops. Otherwise it runs every test case against the artifact, in submission order, and returns:
- the compile output;
- one output per case;
- an aggregate `all_passed` flag.

The workspace is removed in a `finally` clause, on every path. If the workspace is no longer there by then (a submitted program may delete it), the removal raises, and its exception replaces the reply.

There are two handlers:
- **C++ (compiled).** The code goes into a temporary `.cpp` file, and the handler calls `g++ -std=c++20 -o <artifact> <file>` with a 60-second budget. Once the source is staged, the temporary file is deleted on every path. Each run gets a 120-second budget.
- **Python (interpreted).** The handler writes the script to the artifact path. This compile always passes. Each run is `python3 <artifact>` with a 30-second budget.

Both handlers judge a run by one rule. A case passes exactly when the run's standard output, with leading and trailing whitespace stripped as Python's `str.strip()` does, equals the expected output stripped the same way. The exit status plays no part. A run that exceeds its budget gives the fixed sentinel text `Error: Timed out` on both streams.

## How the model is built

- **Child processes.** They are replaced by an oracle `Machine = (Invocation, FileSystem) -> ChildRun`. An `Invocation` is the argv, the standard input and the time budget. The oracle sees the files as they are when the child starts. It returns the child's `ProcessResult` and the files as the child leaves them, so a child (the toolchain or a submitted program) may create, change or delete any file. A `ProcessResult` is one of:
  - `Exited(returnCode, stdout, stderr, elapsed)`;
  - `TimedOut(elapsed)`, for `subprocess.TimeoutExpired`;
  - `Raised(reason)`, for any other exception, such as a missing `g++`.

  The code catches only `TimeoutExpired`. Any other exception leaves the handler and the endpoint; the `finally` blocks still run.
- **Filesystem.** It is a plain value, a set of directories and a map from paths to contents. Writing the script, writing the compiled artifact, unlinking the temporary file, `mkdtemp` and `rmtree` are functions on this value. So "the temporary file and the workspace are released on every path" is an equation between filesystems. It is not a flag.
- **No sandbox.** The service does not confine the programs it runs. The files each case sees are those the compile and the earlier cases left, so a later case can observe what an earlier one wrote (`Scenarios.LaterCaseSeesEarlierWrites`). A file written outside the workspace survives the request (`Scenarios.StrayWriteSurvives`). A later request starts from the filesystem an earlier one left, so a program that leaves state behind can get a different verdict when it is submitted again (`Scenarios.RememberingAgain`); `Pipeline.RepeatedRunsAgree` compares two runs only from the same filesystem with the same fresh names. A case that deletes its own workspace makes the cleanup raise, so the request ends in that exception (`Scenarios.SelfDeletingScriptCrashes`). That a request leaves the filesystem as it found it is proved only for oracles that keep every write inside the workspace (`Process.Confined`).
- **Names.** The names `mkdtemp` and `NamedTemporaryFile` would pick are parameters (`dir`, `scratch`). The predicate `Pipeline.Fresh` states what those calls guarantee about them.
- **Elapsed time.** It comes from the oracle. It is a `real` that the judging copies into `timeSeconds`. Properties that should not depend on timing are stated with `SameExceptTime`: equal in every field except the measured time.
- **Reference definition and loop.** `Pipeline.Judge` is the functional reference definition of `execute_code`. `Pipeline.ExecuteCode` is the loop as written, and it is proved to compute the same run. The case loop itself is `CaseLoop.RunCases`. It is written for any way of running one case, and `Pipeline.Runner` instantiates it with the handler's `execute`.

Modules: `Types` (records), `Text` (`str.strip`, `str.lower`, `str.join`), `Process` (oracle and filesystem), `Judging` (the shared run rule), `Cpp`, `Python`, `Languages` (the handler interface), `Registry`, `CaseLoop` (the loop over the cases), `Pipeline` (the endpoint), `Scenarios` (whole requests on concrete oracles).

## Where the code and its documentation disagree (the model follows the code)

- **Exceptions other than a timeout.** They are not turned into failed outputs. They escape the request; the model's reply is `Crashed`. The workspace and the temporary file are still removed, unless the removal of the workspace raises itself.
- **Python compile and syntax errors.** The Python "compile" never reports a syntax error; only the run shows it. With an expected output that is empty, a script with a syntax error prints nothing and therefore PASSES. tests/test_python_execution.py:125-141 expects the compile to fail with `SyntaxError` in its stderr, and expects the verdict to fail. `Scenarios.SyntaxErrorWithEmptyExpectedOutputPasses` shows what the code does instead.

## Model

| member | source | states |
|---|---|---|
| Text.StripLeft | src/code_execution/languages/cpp.py:73 | the result is a suffix of the input, everything dropped is whitespace, and the result does not start with whitespace |
| Text.StripRight | src/code_execution/languages/cpp.py:73 | the result is a prefix of the input, everything dropped is whitespace, and the result does not end with whitespace |
| Text.Strip | src/code_execution/languages/cpp.py:73 | the stripped text has no whitespace at either end and is no longer than the input |
| Text.StripLeftAbsorbs | src/code_execution/languages/cpp.py:73 | leading whitespace in front of a text does not change its left strip |
| Text.StripRightAbsorbs | src/code_execution/languages/cpp.py:73 | trailing whitespace after a text does not change its right strip |
| Text.StripOfPadded | src/code_execution/languages/cpp.py:73 | a whitespace-free-ended text padded with whitespace on both sides strips back to itself |
| Text.StripTrimmed | src/code_execution/languages/cpp.py:73 | a text with no whitespace at either end strips to itself |
| Text.StripSlice | src/code_execution/languages/cpp.py:73 | the strip of s is a slice s[i..j] with only whitespace before i and after j |
| Text.StripIsStripOf | src/code_execution/languages/cpp.py:73 | the strip of s is a trimmed text that s is made of, padded with whitespace |
| Text.StripOfUnique | src/code_execution/languages/cpp.py:73 | any trimmed text that s is made of, padded with whitespace, is the strip of s |
| Text.StripCharacterization | src/code_execution/languages/cpp.py:73 | m is the strip of s exactly when m is trimmed and s is m padded with whitespace on both sides |
| Text.StripIgnoresPadding | src/code_execution/languages/cpp.py:73 | adding whitespace at either end does not change the strip |
| Text.StripIdempotent | src/code_execution/languages/python.py:39 | stripping twice is stripping once |
| Text.Lower | src/code_execution/languages/__init__.py:13 | lower-casing keeps the length, maps each ASCII capital to its small letter, keeps every other character, and leaves no capital |
| Text.LowerIdempotent | src/code_execution/languages/__init__.py:13 | lower-casing a lower-cased name changes nothing |
| Text.JoinContainsEach | src/code_execution/languages/__init__.py:15 | every joined item occurs in the joined text |
| Process.WriteFile | src/code_execution/languages/python.py:13-14 | after writing, the path holds exactly the written content, and every other file and every directory is unchanged |
| Process.Unlink | src/code_execution/languages/cpp.py:55-57 | after unlinking, the path is absent, and every other file and every directory is unchanged |
| Process.MakeDir | main.py:19 | creating the workspace adds exactly that directory and no file |
| Process.RemoveTree | main.py:48-50 | after removal, nothing at or under the workspace remains, and everything outside it is unchanged |
| Process.RemoveTreeChecked | main.py:50 | `shutil.rmtree` succeeds exactly when the workspace is a directory, and then removes it and everything inside it; otherwise it raises FileNotFoundError, or NotADirectoryError when a file is there |
| Process.RemoveTreeUndoesMakeDir | main.py:48-50 | removing a fresh workspace, after changes that all stayed inside it, gives back exactly the filesystem from before the workspace was created |
| Judging.JudgeRun | src/code_execution/languages/cpp.py:59-86 | a completed run passes exactly when the stripped actual and expected outputs are equal, and reports both streams verbatim; a timeout gives the sentinel text on both streams and fails; timedOut is set exactly on the timeout path; any other exception propagates |
| Judging.PassedIffOutputIsPaddedExpected | src/code_execution/languages/python.py:38-44 | a completed run passes exactly when its output is the stripped expected output padded with whitespace |
| Judging.ExitCodeIgnored | src/code_execution/languages/python.py:28-39 | two completed runs that differ only in exit status are judged identically |
| Judging.PaddingTolerated | src/code_execution/languages/cpp.py:73 | whitespace added around the actual or the expected output never changes whether a completed run passes |
| Judging.PassedExcludesTimeout | src/code_execution/languages/python.py:43-51 | no run output is both passed and timed out |
| Judging.JudgeIgnoresTiming | src/code_execution/languages/cpp.py:70-84 | runs that differ only in elapsed time are judged the same apart from the reported time |
| Cpp.InvocationsFixed | src/code_execution/languages/cpp.py:24-68 | the compiler is called (lines 24-28) as g++ -std=c++20 -o out src with a 60 s budget, and the artifact runs (lines 63-68) alone, fed the case input, with a 120 s budget |
| Cpp.CompileVerdict | src/code_execution/languages/cpp.py:32-54 | the compile passes exactly on exit status 0; stdout is always empty; stderr is the toolchain's text on a non-zero exit, empty on success, "Compilation timed out" on timeout; timedOut is set exactly on timeout; other exceptions propagate |
| Cpp.Compile | src/code_execution/languages/cpp.py:13-57 | the verdict is that of the toolchain run on the staged source; the temporary file is gone on every path; on success the artifact is built from the code; apart from what the toolchain changes, no other file or directory changes; after a failed or timed-out compile the artifact path holds whatever the toolchain left there |
| Python.InvocationFixed | src/code_execution/languages/python.py:28-34 | a run is python3 on the script, fed the case input, with a 30 s budget |
| Python.Compile | src/code_execution/languages/python.py:11-21 | the compile always passes with empty streams, time 0 and no timeout, and leaves the script holding exactly the submitted code, changing nothing else |
| Python.CompileIgnoresCode | src/code_execution/languages/python.py:11-21 | the compile verdict does not depend on the code, so syntax errors are not caught here |
| Languages.Handler.Compile | src/code_execution/languages/base.py:14-17 | apart from what the toolchain changes, each handler's compile keeps every directory and every unrelated file; only the C++ handler can raise; the Python handler always passes; a passing compile leaves the runnable artifact |
| Languages.RunInvocationShape | src/code_execution/languages/base.py:19-22 | both handlers feed the case input to a launcher that ends with the artifact path; the budgets are 120 s and 30 s |
| Languages.VariantsJudgeAlike | src/code_execution/languages/python.py:38-52 | when the child behaves the same under both launchers, both handlers give the same output |
| Languages.CompileIgnoresTiming | src/code_execution/languages/base.py:14-17 | compiling under oracles that differ only in timing leaves the same files and the same verdict apart from time |
| Languages.ExecuteIgnoresTiming | src/code_execution/languages/base.py:19-22 | running a case under oracles that differ only in timing gives the same output apart from time |
| Registry.Lookup | src/code_execution/languages/__init__.py:14-19 | a hit is an entry under that key; a miss means no entry has that key |
| Registry.UnsupportedMessageNames | src/code_execution/languages/__init__.py:15-17 | the rejection message contains the rejected name and every registered name, quoted |
| Registry.GetLanguageHandler | src/code_execution/languages/__init__.py:11-19 | a name resolves exactly when its lower-cased form is "cpp" or "python", and then to the handler with that identifier; any other name is rejected with exactly the message `Language '<name>' is not supported. Supported languages: <list>`, with the name lower-cased, which names it and every registered name, quoted |
| Registry.RegistryKeysAreIdentifiers | src/code_execution/languages/__init__.py:6-9 | each handler is stored under its own identifier, and no key repeats |
| Registry.CaseInsensitive | src/code_execution/languages/__init__.py:13 | a name and its lower-cased form resolve identically |
| Registry.SupportedListText | src/code_execution/languages/__init__.py:15 | the supported list reads 'cpp', 'python', in table order |
| Registry.ResolvesAnyCase | src/code_execution/languages/__init__.py:13-19 | "CPP" resolves to the C++ handler and "Python" to the Python handler |
| Registry.RejectsRuby | src/code_execution/languages/__init__.py:13-18 | "Ruby" is rejected with the message for its lower-cased form, which names ruby and lists 'cpp', 'python' |
| Pipeline.CodePathShape | main.py:20 | the artifact lies inside the workspace and ends in ".py" exactly for the Python handler |
| Pipeline.AllPassedIff | main.py:45 | the fold over the outputs holds exactly when every output passed, vacuously for none |
| Pipeline.Respond | main.py:28-46 | the compile output is returned unchanged; a failed compile gives no case outputs; otherwise the case outputs are kept; the verdict passes exactly when the compile and every case passed |
| CaseLoop.RunCases | main.py:36-40 | as long as no case has raised, the loop has one output per iteration |
| CaseLoop.RunCasesOutputs | main.py:36-40 | when the loop finishes, output i is case i run against the files the earlier cases left, whatever those cases gave, and the files are those the last case left |
| CaseLoop.RunCasesRaised | main.py:38-40 | when the loop raises, it is with the exception of the first case that raised, every earlier case having completed, and with the files as that case left them |
| CaseLoop.RunCasesCompletes | main.py:38-40 | the loop completes exactly when no case raises |
| CaseLoop.RaisedStaysRaised | main.py:38-40 | once a case has raised, no later case runs: the exception and the files stay as they were |
| CaseLoop.CasesStayInside | main.py:38-40 | when no case run changes anything outside the workspace, neither does the loop |
| CaseLoop.RunCasesIgnoresTiming | main.py:38-40 | the case loop under case runs that differ only in timing leaves the same files, raises the same exception if any, and otherwise gives outputs that differ only in the times |
| Pipeline.RunnerConfined | main.py:39 | when no child process writes outside the workspace, no case run does |
| Pipeline.RunnersAgree | main.py:39 | under oracles that differ only in timing, every case run leaves the same files and gives the same outcome apart from the time |
| Pipeline.CompileStaysInside | main.py:19-24 | with fresh names and a confined toolchain, the compile changes nothing outside the new workspace: the temporary file it stages outside is gone again |
| Pipeline.TryBlock | main.py:22-46 | what the `try` block returns: a verdict that passes exactly when the compile and every case passed, with no case outputs after a failed compile and one per case after a passing one |
| Pipeline.Judge | main.py:12-50 | unknown languages get status 400 with the registry's message and the filesystem untouched; otherwise the workspace is gone afterwards, and so is everything under it whenever the `try` block left the workspace in place; the verdict passes exactly when the compile and every case passed; a failed compile gives no case outputs; a passing one gives one per case |
| Pipeline.RunEachCase | main.py:36-40 | the `for` loop as written, appending each output and stopping at the first exception, computes exactly the case loop of the reference definition |
| Pipeline.ExecuteCode | main.py:12-50 | the compile, the case loop and the `finally` clause as written compute exactly the reply and the filesystem of the reference definition |
| Pipeline.CompileFailureShortCircuits | main.py:28-33 | a failed compile ends the `try` block with that compile output, no case outputs and a failed verdict, and with the files as the compile left them, so no case runs; the request returns that response when the workspace is still there |
| Pipeline.CasesRunInOrder | main.py:36-50 | after a passing compile, a verdict is returned exactly when no case raises and the workspace is still there for the cleanup; then the compile output is returned unchanged, there is one output per case, and output i is case i run against the artifact and the files the compile and the earlier cases left |
| Pipeline.NoCasesAfterPassingCompilePasses | main.py:45 | with no cases, a passing compile gives a passing verdict |
| Pipeline.CrashIffSomeStepRaised | main.py:22-50 | an exception escapes exactly when the compile raised, or the compile passed and some case raised, or the workspace is gone when the `finally` clause removes it |
| Pipeline.WorkspaceGoneCrashes | main.py:48-50 | when the workspace is gone after the `try` block, the removal's exception escapes whatever the block gave, and the files stay as the block left them; otherwise the block's reply stands and the workspace is removed |
| Pipeline.FilesystemRestored | main.py:48-50 | with fresh workspace and temporary-file names, and child processes that write only inside the workspace, every request, including one that crashes, leaves the filesystem exactly as it found it, and the cleanup cannot raise |
| Pipeline.TryBlocksAgree | main.py:22-46 | the `try` block under oracles that differ only in timing leaves the same files and gives the same reply up to the measured times |
| Pipeline.RepeatedRunsAgree | main.py:12-50 | two runs of one request from the same filesystem, with the same workspace and temporary-file names, whose child processes behave alike leave the same filesystem and give the same reply apart from the times |
| Scenarios.EmptyIsFresh | main.py:19 | the workspace and temporary-file names used by the scenarios are fresh in the empty filesystem |
| Scenarios.CompiledGreetingPasses | tests/test_server.py:20 | a C++ greeting that prints Hello, World! and a newline passes whether or not the expected output has the newline |
| Scenarios.GreetingLeavesNoTrace | main.py:48-50 | judging the greeting with fresh names, whose toolchain and program write nothing, leaves the filesystem as it found it |
| Scenarios.GreetingRunPasses | test_server.py:23 | the greeting run passes against the expected output without the trailing newline as well as with it |
| Scenarios.GreetingStrips | tests/test_server.py:20 | Hello, World! with and without a trailing newline strips to the same text |
| Scenarios.CompileErrorStopsRequest | src/code_execution/languages/cpp.py:32-39 | a toolchain error gives its stderr in the compile output, no case outputs and a failed verdict |
| Scenarios.InterpretedTimeout | tests/test_python_execution.py:143-159 | an endless Python loop passes compile, and its only case times out with the sentinel texts and fails the verdict |
| Scenarios.SyntaxErrorWithEmptyExpectedOutputPasses | tests/test_python_execution.py:125-141 | a Python syntax error with an empty expected output passes compile and the run, and the verdict passes |
| Scenarios.UnknownLanguageRejected | main.py:13-16 | "Ruby" is rejected with status 400 and the registry's message for ruby, and the filesystem is untouched because no workspace is created |
| Scenarios.OneCaseJudged | main.py:36-50 | with a passing compile and one case that completes, the `try` block returns a verdict built from that case's output; when the case left the workspace, the request returns it and the workspace is removed from the files the case left |
| Scenarios.TwoCasesJudged | main.py:36-50 | with a passing compile and two cases that complete, the second case runs against the files the first left and the `try` block returns a verdict built from both outputs; when the workspace is still there, the request returns it |
| Scenarios.RespondToOne | main.py:42-46 | after a passing compile, one case's verdict is the request's verdict |
| Scenarios.RespondToTwo | main.py:42-46 | after a passing compile, the request passes exactly when both cases pass |
| Scenarios.StrayWriteSurvives | main.py:48-50 | a Python case that writes a file outside the workspace is judged as usual, and the file is still there after the workspace is removed |
| Scenarios.RememberingFirst | main.py:38-39 | a script run with no marker file prints what the case expects and leaves the marker |
| Scenarios.RememberingAgain | main.py:38-39 | the same script run with the marker present prints something else, and the case fails |
| Scenarios.SelfDeletingScriptCrashes | main.py:48-50 | a Python case that deletes its own workspace passes, but the request ends in FileNotFoundError from the cleanup instead of a response |
| Scenarios.LaterCaseSeesEarlierWrites | main.py:38-40 | two identical cases of a script that leaves a marker file get different verdicts, the first passing and the second failing, so the request fails |

## Left out

- Real process spawning and real files. `subprocess.run`, `tempfile`, `os.unlink` and `shutil.rmtree` are replaced by the process oracle and the filesystem value. The names `mkdtemp` and `NamedTemporaryFile` choose are parameters.
- Wall-clock time. `time.time()` differences are the oracle's `elapsed`, a `real`. Float rounding is not modelled.
- Text decoding. `text=True` decoding and universal-newline translation of the child's streams are the oracle's business. Streams are character sequences.
- Text.Lower: lower-cases ASCII letters only, whereas Python's `str.lower()` also folds non-ASCII capitals. Which names are accepted is unaffected: the only non-ASCII characters that lower-case to text containing ASCII letters are U+0130, which gives "i" and a combining dot, and U+212A, which gives "k", and neither can spell "cpp" or "python". What differs is the rejection message. For "RÜBY" the service reports 'rüby' where the model reports 'rÜby', and U+0130 changes the length of the reported name.
- Text.IsSpace: carries no contract of its own. It is the set of code points for which Python's `str.isspace()` holds: bidirectional class WS, B or S, or general category Zs. `Text.StripCharacterization` states what stripping with it means.
- Text.Join: carries no contract of its own. It is `", ".join`, and `Text.JoinContainsEach` and `Registry.SupportedListText` carry its properties.
- Registry.UnsupportedMessage: carries no contract of its own. It is the f-string at src/code_execution/languages/__init__.py:16-18, and `Registry.UnsupportedMessageNames` and `Registry.RejectsRuby` carry its properties.
- Pipeline.CodePath: carries no contract of its own. It is the `os.path.join` at main.py:20, and `Pipeline.CodePathShape` carries its properties.
- Pipeline.AllPassed: carries no contract of its own. It is `all(...)` at main.py:45, and `Pipeline.AllPassedIff` relates it to "every output passed".
- Cpp.Compile: the staging write of the temporary file is taken to succeed. In the source that write comes before the `try`, so if it failed (a full disk, say) the exception would escape without the unlink and the temporary file would be left behind.
- Python.Compile: writing the script is taken to succeed. In the source that write can raise, and the exception would escape the compile instead of giving a passing output.
- Process.RemoveTreeError: carries no contract of its own. It is the text of the exception `shutil.rmtree` raises when the workspace is not a directory. `Process.RemoveTreeChecked` states when it is raised, and `Pipeline.WorkspaceGoneCrashes` states that it becomes the reply.
- Process.MakeDir: `tempfile.mkdtemp()` is taken to succeed. At main.py:19 it runs before the `try`, so if it raised (no writable temporary directory, a full disk) the exception would escape before any compile. `Pipeline.CrashIffSomeStepRaised` therefore does not list that fourth cause.
- Cpp.CompilerRun: carries no contract of its own. It is the `g++` call on the staged source at src/code_execution/languages/cpp.py:15-29. `Cpp.Compile` states its effect on the compile, and `Cpp.InvocationsFixed` states its argument vector and time budget.
- Pipeline.CompileIn: carries no contract of its own. It is the compile call at main.py:19-24, inside the new workspace. `Pipeline.CompileStaysInside` and `Pipeline.CompileFailureShortCircuits` carry its properties.
- Pipeline.Runner: carries no contract of its own. It is the per-case `handler.execute` call at main.py:39. `Pipeline.RunnerConfined` and `Pipeline.RunnersAgree` carry its properties.
- Cpp.CompilerInvocation: carries no contract of its own. It is the `g++` argument vector, input and timeout at src/code_execution/languages/cpp.py:24-29, and `Cpp.InvocationsFixed` states them.
- Cpp.RunInvocation: carries no contract of its own. It is the launch of the built executable at src/code_execution/languages/cpp.py:63-69, and `Cpp.InvocationsFixed` and `Languages.RunInvocationShape` state it.
- Python.RunInvocation: carries no contract of its own. It is the `python3` launch at src/code_execution/languages/python.py:28-35, and `Python.InvocationFixed` and `Languages.RunInvocationShape` state it.
- Languages.Handler.RunInvocation: carries no contract of its own. It picks the variant's launch, and `Languages.RunInvocationShape` states what both variants share.
- Registry.Quote: carries no contract of its own. It is the `f"'{lang}'"` quoting at src/code_execution/languages/__init__.py:15, and `Registry.UnsupportedMessageNames` and `Registry.SupportedListText` carry its properties.
- Registry.SupportedList: carries no contract of its own. It is the quoted `", ".join` of the registered names at src/code_execution/languages/__init__.py:15, and `Registry.SupportedListText` states its exact text.
- Pipeline.Finally: carries no contract of its own. It is the `finally` clause at main.py:48-50, and `Pipeline.WorkspaceGoneCrashes` and `Pipeline.CrashIffSomeStepRaised` state what it does.
- Process.Unlink: the temporary source file is taken to be still there when it is unlinked. The model's toolchain could delete it, and then `os.unlink` in the `finally` at cpp.py:55-57 would raise FileNotFoundError and replace the compile's outcome. The model does not make that call fail, because `g++` never deletes its input file.
- Process.RemoveTreeChecked: fails only when the workspace is not a directory. Other `rmtree` failures, such as a permission error on something a program left inside the workspace, are not modelled.
- Languages.Handler.Compile: "only the compiled variant can raise" holds only because file writes are taken to succeed; a failing write in either variant would escape too.
- Cpp.Compile: after a successful compile the artifact path holds `Executable(code)`, whatever the toolchain wrote there. The model does not say what `g++` actually writes to its output file. After a failed or timed-out compile the path keeps whatever the toolchain left, and no case runs.
- The HTTP layer. This covers FastAPI, uvicorn and response serialisation, the status an escaping exception becomes (`Crashed` is left without a status), and the debug prints at main.py:25-26.
- Languages.Handler.Execute: carries no contract of its own. It is `Judging.JudgeRun` applied to the oracle's result for `RunInvocation`, and those two members carry the properties.
- Languages.Handler.LanguageId: carries no contract of its own. Its values are stated by `Registry.RegistryKeysAreIdentifiers` and `Registry.GetLanguageHandler`.
- The stale client at test_server.py:40-47. It reads response keys that the service does not produce.
