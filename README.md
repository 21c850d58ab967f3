# conda module: a verified model

A Dafny model of the core of the Ansible `conda` module (`conda.py`). The module
manages one Python package through the `conda` command-line tool. It builds argument lists for the
dry-run query, the install and the removal, and splices in the `channels` and
`extra_args` parameters. It parses conda's `--json` standard output, which may
start with progress reports. It classifies each command's outcome, and decides
from the dry-run answer whether to install; with state `absent` it always
attempts the removal.

Modules, one per component:

- `Wrappers` (wrappers.dfy): `Option`, Python's `None`-or-value.
- `PyText` (pytext.dfy): the Python string operations the code calls: `strip()`,
  `split()` on white space, `split("\n")` and `sep.join(...)`, with Python 3's
  set of white-space characters.
- `Json` (json.dfy): decoded JSON values. `json.loads` is a parameter
  `decode: string -> Option<Object>`, and `None` means it raised `ValueError`.
  Python's `len()` is modelled on these values.
- `Commands` (commands.dfy): the command builder. `AddChannelsToCommand`,
  `ChannelFlags`, `BuildInstallCommand` and `BuildRemoveCommand` are methods
  that follow the code step by step: a `for` loop appending to `dashc`, and
  a list built and then given `insert(-1, "--dry-run")`. The list is a local
  `seq` variable that each step reassigns. Each method is proved equal to the
  function that the rest of the model uses.
- `Parser` (parser.dfy): `parse_conda_stdout`. `ParseCondaStdout` is the `while`
  loop with `pop(0)` and `insert(0, line)`. It is proved equal to `Parse`. The lemmas
  about progress lines and the fallback are proved about `ScanLines`, the
  line-by-line reading that `Parse` applies to `Lines(stdout)`.
- `Runner` (runner.dfy): `_run_conda_command` and `_run_conda_package_command`.
  The process is a parameter `run: seq<string> -> Process` giving the exit
  code, stdout and stderr. Exceptions become `Outcome.Raised(Failure)`, with one
  variant per exception class.
- `Reconciler` (reconciler.dfy): `_check_package_installed`, `_install_package`,
  `_uninstall_package` and `main` from line 303 on. `exit_json` and `fail_json`
  become the returned `Report`. `Reconcile` is the decision itself, given the
  outcomes of the installed check, the install and the removal. `Main` wires it
  to the process. The `Invocation` result also holds a `Step` tag for each
  command handed to the process, in order, so the model can say which
  commands ran and when none did. `Sent` gives each command's argument list.

Behaviour of the code that the model keeps:

- `_run_conda_command` splices channels first and extras second, both at
  index 2. The final command is therefore
  `[conda, sub, extras..., --channel c..., rest...]`
  (`Commands.FinalCommand`).
- The `__init__` methods of `CondaPackageNotFoundError` and
  `CondaUnexpectedOutputError` are misspelt `__int__` (conda.py:257, 269), so
  the attributes `name`, `version`, `output` and `stderr` that their
  `__str__` methods read are never set. The arguments survive only in
  `args`, which nothing reads. The model's `CondaPackageNotFoundError` and
  `CondaUnexpectedOutputError` carry nothing.
- `_check_package_installed` also raises `TypeError` when `actions` is
  present but has no length (a number, a boolean or `null`). The model calls
  this `LenTypeError`.
- `PackageNotFoundError` is recognised only on a failed command. The same
  answer with exit code 0 is a success (`Runner.PackageNotFoundExactly`).
- A `message` whose value is JSON `null` reads back as Python's `None`, so the
  command error then carries no message.

## Model

| member | source | states |
|---|---|---|
| `PyText.SkipSpace` | conda.py:85 | the forward scan of `strip()`: the first index at or after `i` that does not hold white space, everything before it from `i` on being white space |
| `PyText.SkipSpaceBack` | conda.py:85 | the backward scan of `strip()`: scanning down from `j` but not below `lo`, the end of the last character that is not white space, everything after it being white space |
| `PyText.Strip` | conda.py:85 | `strip()` (also at lines 102 and 115) is no longer than its input and has white space at neither end; `StripIsInfix` says what it keeps |
| `PyText.StripIsInfix` | conda.py:85 | `s.strip()` is the part of `s` that starts at its first character that is not white space and has only white space before and after it |
| `PyText.Words` | conda.py:85 | `split()` yields non-empty tokens without white space, and no token exactly when the string is all white space |
| `PyText.StripAllSpace` | conda.py:115 | a string made only of white space strips to the empty string |
| `PyText.WordsOfStrip` | conda.py:102 | `s.strip().split()` equals `s.split()` |
| `PyText.WordsOfJoin` | conda.py:85 | round trip: splitting words joined by single spaces gives back the words |
| `PyText.SplitOn` | conda.py:115 | `split("\n")` yields at least one piece, and no piece contains the separator |
| `PyText.Join` | conda.py:128 | `sep.join(parts)` is empty for no parts and starts with the first part; `JoinSplitOn` and `ConcatSplitOn` relate it to `split` |
| `PyText.JoinSplitOn` | conda.py:115 | round trip: `"\n".join(s.split("\n")) == s` |
| `PyText.ConcatSplitOn` | conda.py:128 | `"".join(s.split("\n"))` is `s` with its line breaks removed |
| `Json.Len` | conda.py:205 | `len()` has a value exactly for strings, lists and dicts |
| `Commands.InjectChannels` | conda.py:79-93 | `add_channels_to_command` adds two tokens per channel token; the positions are stated by `ChannelInjection` and `ChannelPositions` |
| `Commands.ChannelPairs` | conda.py:86-89 | two tokens per channel |
| `Commands.ChannelPairsAt` | conda.py:86-89 | the pair for channel j is `--channel`, `cj` at positions 2j and 2j+1 |
| `Commands.ChannelFlags` | conda.py:86-89 | the loop builds exactly the `--channel c` pairs in channel order |
| `Commands.AddChannelsToCommand` | conda.py:79-93 | the method as written returns the same list as `InjectChannels` |
| `Commands.ChannelInjection` | conda.py:79-93 | a falsy value leaves the command unchanged; otherwise the length grows by 2n for n channel tokens and both halves of the command are kept around them |
| `Commands.ChannelPositions` | conda.py:86-93 | the j-th channel token `cj` sits at index 2 + 2j + 1 after a `--channel` at 2 + 2j (from the end of a command shorter than two tokens) |
| `Commands.BlankChannelsUnchanged` | conda.py:84-91 | `None` or a whitespace-only string leaves the command unchanged |
| `Commands.TokensOfJoin` | conda.py:85 | channels written `c1 c2 ... cn` split into exactly `c1..cn` |
| `Commands.ChannelsOfWords` | conda.py:79-91 | channels `c1 ... cn` give `command[:2] + [--channel, c1, ..., --channel, cn] + command[2:]` |
| `Commands.InjectExtras` | conda.py:96-105 | a falsy value leaves the command unchanged; otherwise the tokens sit at index 2 and the rest of the command is unchanged |
| `Commands.FinalCommand` | conda.py:144-145 | the command sent grows by the number of extras plus two per channel and is the command itself when neither parameter is truthy; on a command of two or more tokens it is executable and sub-command, then the extras, then the channel pairs, then the rest |
| `Commands.InstallTarget` | conda.py:178-188 | `get_install_target`: the name first, then `=` and the version exactly when there is a version |
| `Commands.SplitTarget` | conda.py:185-187 | reading a target back at its first `=` gives a name without `=`, and the target is recovered from the parts |
| `Commands.InstallTargetRoundTrip` | conda.py:178-188 | for a name without `=`, the install target determines name and version (`name` when there is no version, `name=version` otherwise) |
| `Commands.InsertBeforeLast` | conda.py:217 | `insert(-1, t)` grows the list by one, places `t` second to last and keeps the last token last |
| `Commands.BuildInstallCommand` | conda.py:215-217 | the list built and then given `insert(-1, "--dry-run")` in check mode equals `[conda, install, --yes, --json, (--dry-run,) target]` |
| `Commands.BuildRemoveCommand` | conda.py:227-229 | the list built and then given `insert(-1, "--dry-run")` in check mode equals `[conda, remove, --yes, --json, (--dry-run,) name]` |
| `Commands.QueryCommand` | conda.py:201 | the query has five tokens: executable and `install` first, the target last; `CommandShapes` gives the two tokens between |
| `Commands.InstallCommand` | conda.py:215-217 | the install has five tokens, or six in check mode, with executable and `install` first and the target last |
| `Commands.RemoveCommand` | conda.py:227-229 | the removal has five tokens, or six in check mode, with executable and `remove` first and the name last |
| `Commands.CommandShapes` | conda.py:201-229 | the exact lists: query `[conda, install, --json, --dry-run, target]`; install `[conda, install, --yes, --json, target]` and remove `[conda, remove, --yes, --json, name]`, each with `--dry-run` before the last token in check mode, which is `insert(-1, "--dry-run")` on the plain list |
| `Parser.ScanLines` | conda.py:116-130 | the line-by-line reading of the loop and the fallback; a progress report can be the result only through the fallback decoding of some suffix of the lines |
| `Parser.Parse` | conda.py:108-130 | the result of `parse_conda_stdout` on the stripped, split output; blank output is decoded as the empty text |
| `Parser.ParseCondaStdout` | conda.py:108-130 | the pop/insert loop returns exactly the line-by-line reference result `Parse` |
| `Parser.SkipsProgress` | conda.py:116-122 | after any number N of progress lines, the first decoded non-progress object is the result, whatever N is |
| `Parser.FallsBackAfterProgress` | conda.py:123-128 | after progress lines, a line that fails to decode makes the result the decoding of that line joined with all later ones |
| `Parser.OnlyProgressIsNone` | conda.py:116-130 | output made only of progress lines gives `None` |
| `Parser.SingleLine` | conda.py:115-130 | a one-line output gives its decoded object, if that is not a progress report, and `None` if it does not decode |
| `Parser.NonJsonIsNone` | tests/unit/test_conda.py:18-19 | `fail` parses to `None` |
| `Parser.MultiLineDocument` | conda.py:123-128 | a document whose first line does not decode parses to the decoding of the stripped output without line breaks |
| `Runner.Classify` | conda.py:147-156 | an error exactly when the exit code is non-zero or nothing parsed; the error carries the command, exactly the parsed result and the raw output, and a message exactly when the parsed result has a non-`null` `message` |
| `Runner.RunCondaCommand` | conda.py:133-156 | success exactly when the process accepts the command after channel/extra injection, returning the pair of parsed stdout and stderr; the error carries that injected command, the parsed result and the raw stdout and stderr |
| `Runner.RunCondaPackageCommand` | conda.py:159-175 | an error reporting `PackageNotFoundError` becomes the not-found error; every other outcome passes through unchanged; it succeeds exactly when the command does, and raises only a command error or the not-found error |
| `Runner.PackageNotFoundExactly` | conda.py:150-173 | not found exactly on a non-zero exit whose parsed answer has `exception_name == "PackageNotFoundError"` |
| `Runner.NoiseFailureKeepsDiagnostics` | conda.py:150-154 | a failing exit with unparseable output is a command error with no message, no parsed result, and the raw stdout and stderr |
| `Runner.UnparsedOutputIsCommandError` | conda.py:148-154 | unparseable output is a command error even with exit code 0, and never a missing package |
| `Reconciler.InterpretQuery` | conda.py:203-208 | installed exactly on the exact message; not installed exactly on non-empty `actions` otherwise; `TypeError` when `actions` has no length; unexpected output in every other case |
| `Reconciler.EmptyActionsIsUnexpected` | conda.py:205-208 | `{"actions": {}}` without the message is unexpected output |
| `Reconciler.CheckPackageInstalled` | conda.py:191-208 | a result only when the query is accepted, and then the decision on its answer; otherwise exactly the exception of the package command |
| `Reconciler.InstallPackage` | conda.py:211-220 | changed, with name, version, answer and stderr, exactly when the install is accepted; otherwise exactly the exception of the package command |
| `Reconciler.UninstallPackage` | conda.py:223-232 | changed, with answer and stderr, exactly when the removal is accepted; otherwise exactly the exception of the package command |
| `Reconciler.Reconcile` | conda.py:303-317 | `latest` with a version fails with no command; the query runs first and its exceptions end the run; not installed and not `absent` installs; `absent` always removes, and not-found there is no change; installed and not `absent` is no change with only the query |
| `Reconciler.Main` | conda.py:298-317 | fails exactly on `latest` with a version; reports an install or a removal only after running it and conda accepting it |
| `Reconciler.AlreadyInstalledIsNoop` | conda.py:306-317 | the system already in the requested state: an accepted query saying installed gives no change and runs only the query |
| `Reconciler.MissingPackageIsInstalled` | conda.py:306-309 | planned actions with state `present` run the install, which reports changed with conda's answer |
| `Reconciler.RemovalNotFound` | conda.py:227-232 | a failed removal answering `PackageNotFoundError` raises the not-found error |
| `Reconciler.AbsentMissingPackageIsNoop` | conda.py:311-317 | state `absent` with a not-found removal ends with no change after the query and the removal |
| `Reconciler.QueryNotFoundCrashes` | conda.py:306 | a not-found error from the query is not caught, even for state `absent` |
| `Reconciler.InstallNotFoundCrashes` | conda.py:308-309 | a not-found error from the install is not caught: the run ends with it after the query and the install |

## Left out

- `_find_conda` (conda.py:62-76) searches the file system and `PATH`. The executable is a parameter `conda`.
- `module.run_command` and `AnsibleModule` (argument parsing, `check_mode`, `exit_json`, `fail_json`) are not modelled. The process is the parameter `run`, the parameters are `Params` and `Config`, and the module's exit is the returned `Report`.
- `run` is a function of the command. The model therefore cannot express a system whose answer to the same command changes between two calls. A run of the module never sends the same command twice.
- The JSON grammar is not modelled: `json.loads` is the parameter `decode`. Decoded top-level values are restricted to objects, because the `in` tests at conda.py:120 behave differently on lists, strings and numbers. Numbers are `real`.
- `Parser.MultiLineDocument`: weaker than "a pretty-printed object parses to the same value as decoding it directly". That also needs `json.loads` to ignore line breaks between tokens, which is a property of the real decoder. The lemma stops at the decoding of the text without its line breaks.
- The progress-report test with `\x00` separators (tests/unit/test_conda.py:25-29) is not modelled. Whether it parses depends on the real decoder's white-space rules.
- The exception `__str__` methods (conda.py:246-250, 261-262, 273-276) are not modelled. They format text only, and the last two would read fields that are never set.
- The `DOCUMENTATION` and `EXAMPLES` strings are not modelled.
