# kdevcargo in Dafny

A model of the core of kdevcargo, the KDevelop plugin that builds and runs Rust
projects with `cargo`. The model covers four parts:

- **The output classifier** (`CargoFilterStrategy`, module `OutputFilter`). Every line
  cargo or rustc prints becomes a `FilteredItem`:
  - error and warning headers and `Compiling`/`Finished` progress lines are typed by
    their prefix;
  - `--> file:line:col` lines locate the diagnostic and set the current file;
  - `|` and `= note` lines are information;
  - `<n> | <code>` context lines are located in the current file, with a column
    found by a scan for the first non-space character.

  The classifier keeps the current file and the previous line's type across calls.
  `ErrorInLine` is a class method with that scan loop. It is proved equal to the pure
  `Classify`, and the properties are lemmas about `Classify` and its fold
  `ClassifyAll` (module `OutputFilterProperties`).
- **The build job** (`CargoBuildJob`, module `BuildJob`). The job's fields and the error
  state it sets are a class. Each method is proved equal to a step function on a
  `JobState` value. A trace of events (`Start`, `Kill`, `ProcError`, `ProcFinished`)
  carries the lifecycle lemmas in `BuildJobProperties`.
- **The plugin's job factories and the `cargo run` argument builder** (`CargoPlugin`,
  module `Plugin`).
- **The launcher** (`CargoLauncher::start`, `supportedModes`, `dependencies`), the URL
  check of the launch-configuration type, and `readProcess`, the first-word listing of
  a process's output (module `ExecutionConfig`).

Supporting modules:

- `QtText` models the QString operations the code relies on: `startsWith`,
  `split` with and without empty parts, `indexOf`, `QChar::isSpace` and `toInt`.
- `Host` holds the values the IDE passes in: projects and items, URLs, launch
  configurations and `QProcess::ProcessError`.

Some behaviours of the code as written are stated as they are:

- The context-line column counts from the width of the line number plus three. When
  rustc pads a short line number to the width of a longer one, the column depends on
  the padding:
  - one space of padding (`9  | code` next to `10 | code`) makes the column one too
    large (`OutputFilterProperties.PaddedContextLineColumn`);
  - two or more spaces (`9   | code` next to `100 | code`) put the bar at or after the
    place the scan starts. The scan then stops at the bar, and the column is the padding
    minus two, whatever the code's indentation
    (`OutputFilterProperties.WidePaddedContextLine`).
- A non-numeric line or column field reads as 0, so the stored number is -1.
- The classifier's `currentItemType` is never initialised. A `-->` line at the very
  start of the output inherits that unknown value. The constructor therefore takes it
  as a parameter, and `UnassignedTypeOnlyAtStart` shows where it can surface.

## Model

| member | source | states |
|---|---|---|
| QtText.IndexOf | src/cargoexecutionconfig.cpp:60 | -1 exactly when the character is absent; otherwise the index of its first occurrence |
| QtText.Split | src/cargobuildjob.cpp:86 | splitting keeping empty parts yields at least one part, and no part contains the separator |
| QtText.JoinSplit | src/cargobuildjob.cpp:86 | joining the parts of a split with the separator gives the string back |
| QtText.SplitJoin | src/cargobuildjob.cpp:86 | splitting a join of separator-free parts gives the parts back |
| QtText.SplitSkipEmpty | src/cargobuildjob.cpp:82 | every token of a split that skips empty parts is non-empty and separator-free |
| QtText.TokensAreTheLineWithoutSeparators | src/cargobuildjob.cpp:82 | the tokens, concatenated, are the line with its separators removed: nothing else is lost |
| QtText.SkipLeadingSeparators | src/cargobuildjob.cpp:82 | leading separators produce no token |
| QtText.Join | src/cargobuildjob.cpp:86 | definition, no contract of its own: the parts with the separator between each two; JoinSplit and SplitJoin tie it to Split |
| QtText.LeadingToken | src/cargobuildjob.cpp:82 | the first token sits in the line right after a run of separators |
| QtText.ToInt | src/cargobuildjob.cpp:101 | toInt gives a 32-bit value that is 0 unless the text parses as that integer, and gives the parsed value whenever it is in range |
| QtText.ToIntDecimal | src/cargobuildjob.cpp:101-105 | toInt reads back the decimal notation of every number up to INT_MAX |
| OutputFilter.FirstNonSpaceFrom | src/cargobuildjob.cpp:128-135 | the first index at or after i holding a non-space character, with only spaces before it, or the line's length |
| OutputFilter.ContextColumn | src/cargobuildjob.cpp:124-135 | the column is non-negative; when non-zero, it is below the line's length minus idx, points at a non-space character and only spaces precede it from idx; when zero, the character at idx is non-space or only spaces follow idx |
| OutputFilter.Classify | src/cargobuildjob.cpp:64-144 | definition, no contract of its own: the item and the fields one call of errorInLine leaves, branch by branch in the code's order; ErrorInLine is proved equal to it, and the OutputFilterProperties lemmas state its properties |
| OutputFilter.ClassifyAll | src/cargobuildjob.cpp:64-144 | definition, no contract of its own: successive calls over a stream of lines, each starting from the fields the previous call left; OneItemPerLine, ClassifyInChunks, UnassignedTypeOnlyAtStart and AssignedFrom state its properties |
| OutputFilter.CargoFilterStrategy.constructor | src/cargobuildjob.cpp:55-58 | the classifier starts with an empty current file and the given (uninitialised) type |
| OutputFilter.CargoFilterStrategy.ErrorInLine | src/cargobuildjob.cpp:64-144 | the item returned and the fields left behind are those of Classify on the line and the previous fields; the column scan loop is proved to compute ContextColumn |
| OutputFilter.CargoFilterStrategy.ActionInLine | src/cargobuildjob.cpp:146-149 | every line is handed back as an unclassified, unlocated item |
| OutputFilterProperties.PrefixedLines | src/cargobuildjob.cpp:67-79 | `error:`/`error[` lines are errors; otherwise `warning:`/`warning[` lines are warnings; otherwise `   Compiling`/`    Finished` lines are actions; prefixed lines locate nothing and keep the current file |
| OutputFilterProperties.UnprefixedByLeadingToken | src/cargobuildjob.cpp:67-82 | a line whose first token starts with none of e, w, C, F is decided by its tokens |
| OutputFilterProperties.LocationLine | src/cargobuildjob.cpp:83-106 | a `-->` line with a second token inherits the previous type, sets the current file to the text before the first ':', is activatable on that file, and has a line number if and only if there is a second field (its toInt minus one) and a column if and only if there is a third |
| OutputFilterProperties.NoteLine | src/cargobuildjob.cpp:109-112 | a line whose first token is a bar or `=` is an unlocated information item and keeps the current file |
| OutputFilterProperties.ContextLine | src/cargobuildjob.cpp:113-135 | a line whose second token is a bar is information located in the current file at line toInt(first token) - 1, with the scanned column and its bounds |
| OutputFilterProperties.StateUpdate | src/cargobuildjob.cpp:85-142 | every call stores the item's type and keeps the build directory; only `-->` lines change the current file and inherit the previous type; every other line gets one of the five assigned types |
| OutputFilterProperties.OtherLinesStandard | src/cargobuildjob.cpp:137-140 | a line that is no header, action, location, note or context line is an unlocated, non-activatable StandardItem; only the stored type changes |
| OutputFilterProperties.LocatedItems | src/cargobuildjob.cpp:91-118 | an item has a url if and only if it is activatable, which exactly location and context lines are; a column implies a line number |
| OutputFilterProperties.LocationLineNumbers | src/cargobuildjob.cpp:83-106 | `--> file:l:c` (any indentation) gives exactly the item at line l-1, column c-1 of that file, and moves the current file there |
| OutputFilterProperties.LocationLineOfDigits | src/cargobuildjob.cpp:83-106 | `--> file:<digits>:<digits>` gives the item at toInt of each field minus one, in that file |
| OutputFilterProperties.LocationLinePathOnly | src/cargobuildjob.cpp:86-103 | `--> file` with no ':' locates the file with no line and no column |
| OutputFilterProperties.ContextLineNumbers | src/cargobuildjob.cpp:113-135 | a number, a bar, then indentation and code gives line n-1 and the indentation as column |
| OutputFilterProperties.ContextLineOfDigits | src/cargobuildjob.cpp:113-135 | digits, at most one space of padding, then a bar, the indentation and code, gives line toInt(digits) - 1 and column pad + indent |
| OutputFilterProperties.ContextColumnAt | src/cargobuildjob.cpp:128-135 | the scan stops at the first non-space character: its offset is the column |
| OutputFilterProperties.PaddedContextLineColumn | src/cargobuildjob.cpp:124-135 | with one space of padding after the number, the column is the indentation plus one |
| OutputFilterProperties.WidePaddedContextLine | src/cargobuildjob.cpp:113-135 | digits, two or more spaces of padding, a bar, then anything: a context line at toInt(digits) - 1 whose column is the padding minus two, where the scan meets the bar |
| OutputFilterProperties.ClassifyInChunks | src/cargobuildjob.cpp:89-142 | classifying two chunks of output one after the other equals classifying them together |
| OutputFilterProperties.OneItemPerLine | src/cargobuildjob.cpp:66 | one item per line, each carrying its own line's text |
| OutputFilterProperties.UnassignedTypeOnlyAtStart | src/cargobuildjob.cpp:52-58 | an item with the uninitialised type can only be a location line preceded only by location lines |
| OutputFilterProperties.AssignedFrom | src/cargobuildjob.cpp:142 | once an assigned type is stored, every later item has one |
| OutputFilterProperties.HeaderThenLocation | src/cargobuildjob.cpp:85 | a `-->` line right after a header takes the header's type |
| Plugin.Build | src/cargoplugin.cpp:84-87 | definition, no contract of its own: a job with command "build" on the item; stated by JobCommands |
| Plugin.Clean | src/cargoplugin.cpp:99-102 | definition, no contract of its own: a job with command "clean" on the item; stated by JobCommands |
| Plugin.Configure | src/cargoplugin.cpp:104-107 | definition, no contract of its own: a job with an empty command on the project root; stated by JobCommands and BuildJobProperties.ConfigureFails |
| Plugin.Install | src/cargoplugin.cpp:140-145 | definition, no contract of its own: an "install" job given the install prefix; stated by JobCommands and BuildJobProperties.InstallArgv |
| Plugin.Prune | src/cargoplugin.cpp:147-150 | definition, no contract of its own: clean of the project root; stated by JobCommands |
| Plugin.BuildDirectory | src/cargoplugin.cpp:89-92 | definition, no contract of its own: the path of the item's project; stated by BuildDirectoryIsProjectRoot |
| Plugin.WorkingDirectory | src/cargoplugin.cpp:209-212 | definition, no contract of its own: the path of the configuration's project; stated by BuildDirectoryIsProjectRoot |
| Plugin.JobCommands | src/cargoplugin.cpp:84-150 | build, clean and install jobs carry those commands; configure has an empty command on the project root; prune is clean of the project root; only install sets a prefix |
| Plugin.BuildDirectoryIsProjectRoot | src/cargoplugin.cpp:89-92 | every item builds in its project's root path, the same directory a launch of that project works in |
| Plugin.Arguments | src/cargoplugin.cpp:186-201 | the list is never empty, starts with "run", and its second element, if any, is `--bin` or `--`; `--bin` is second if and only if the identifier is non-empty, and the identifier follows it; `--` comes right after `run` or after `--bin id` if and only if the argument string is non-empty |
| Plugin.ParseRunArguments | src/cargoplugin.cpp:188-199 | definition, no contract of its own: reads a `run` list back into its binary and pass-through arguments, refusing a `--bin` with no name or an empty one; ArgumentsRoundTrip ties it to Arguments |
| Plugin.ArgumentsRoundTrip | src/cargoplugin.cpp:188-199 | the list parses back as the configured identifier and, exactly when the argument string is non-empty, its split: `--bin id` appears if and only if the identifier is non-empty, `--` if and only if the arguments are, `--bin` first |
| BuildJob.Code | src/cargobuildjob.h:43-51 | each error type's code is UserDefinedError plus its declaration position |
| BuildJob.CodesConsecutive | src/cargobuildjob.h:43-51 | the seven codes are consecutive from UserDefinedError and distinct |
| BuildJob.StartArgv | src/cargobuildjob.cpp:183-193 | the command comes first, then `--root` and the prefix's local file if and only if the prefix is non-empty; the length counts the command, that pair and the run arguments |
| BuildJob.StartArgvEndsWithRunArguments | src/cargobuildjob.cpp:190-193 | the run arguments end the list, unchanged and in order |
| BuildJob.CollectArguments | src/cargobuildjob.cpp:183-193 | the list built by appending is StartArgv |
| BuildJob.StartStep | src/cargobuildjob.cpp:173-218 | definition, no contract of its own: what start() does to the job; stated by StartOutcome and the trace lemmas |
| BuildJob.KillStep | src/cargobuildjob.cpp:220-225 | definition, no contract of its own: what doKill does to the job; stated by KilledAfter and KillSuppressesProcError |
| BuildJob.ProcErrorStep | src/cargobuildjob.cpp:227-242 | definition, no contract of its own: what procError does to the job; stated by KilledKeepsExecError, ErrorsStayReported and CrashWithoutKill |
| BuildJob.ProcFinishedStep | src/cargobuildjob.cpp:249-260 | definition, no contract of its own: what procFinished does to the job; stated by BuildThenExit, OutputStaysOwn and ResultsAfter |
| BuildJob.Run | src/cargobuildjob.cpp:173-260 | definition, no contract of its own: the job after a sequence of events, handled in order; the BuildJobProperties lemmas quantify over it |
| BuildJob.CargoBuildJob.constructor | src/cargobuildjob.cpp:152-171 | a new job runs "cargo" in the item's build directory, shows the build view, is not killed and has no error, executor or output |
| BuildJob.CargoBuildJob.Start | src/cargobuildjob.cpp:173-218 | the new state is StartStep of the old one |
| BuildJob.CargoBuildJob.StartExecutor | src/cargobuildjob.cpp:181-217 | with a command, the new state is StartStep of the old one: tool view set, executor created with StartArgv, output reset to the echo line |
| BuildJob.CargoBuildJob.DoKill | src/cargobuildjob.cpp:220-225 | sets killed, asks the executor to kill, returns true |
| BuildJob.CargoBuildJob.ProcError | src/cargobuildjob.cpp:227-242 | the new state is ProcErrorStep of the old one |
| BuildJob.CargoBuildJob.ProcFinished | src/cargobuildjob.cpp:249-260 | the new state is ProcFinishedStep of the old one |
| BuildJob.CargoBuildJob.SetInstallPrefix | src/cargobuildjob.h:57 | only the install prefix changes |
| BuildJob.CargoBuildJob.SetRunArguments | src/cargobuildjob.h:58 | only the run arguments change |
| BuildJob.CargoBuildJob.SetStandardViewType | src/cargobuildjob.h:59 | only the standard view type changes |
| BuildJob.NewJob | src/cargoplugin.cpp:140-145 | a fresh job in the state a plugin factory describes: constructed, then given its prefix and run arguments |
| BuildJobProperties.StartOutcome | src/cargobuildjob.cpp:175-216 | an empty command sets NoCommand with its text, emits once, and creates no executor and no output; otherwise the executor runs cargo in the build directory with StartArgv, whose first element is the command, and the output is that command line's echo |
| BuildJobProperties.KilledAfter | src/cargobuildjob.cpp:156-222 | after any trace, killed holds if and only if it held before or the trace contains a kill |
| BuildJobProperties.SameJobAfter | src/cargobuildjob.cpp:173-260 | no event changes the command, project, program, build directory, prefix, run arguments or view type |
| BuildJobProperties.ResultsAfter | src/cargobuildjob.cpp:179-259 | the result is emitted once per start without a command and once per process outcome |
| BuildJobProperties.RunAppend | src/cargobuildjob.cpp:173-260 | running two traces in turn is running their concatenation |
| BuildJobProperties.KilledOnlyByKill | src/cargobuildjob.cpp:156-222 | a new job is not killed, and is killed after a trace exactly when the trace contains a kill |
| BuildJobProperties.KilledKeepsExecError | src/cargobuildjob.cpp:227-241 | once killed, no process error is set: any process error in the final state was there before |
| BuildJobProperties.KillSuppressesProcError | src/cargobuildjob.cpp:220-241 | a process error in the final state of a trace containing a kill was already set when the kill arrived |
| BuildJobProperties.ErrorsStayReported | src/cargobuildjob.cpp:175-260 | the job only ever reports no error, NoCommand, FailedToStart, Crashed, UnknownExecError or FailedShownError |
| BuildJobProperties.UnusedErrorTypes | src/cargobuildjob.h:44-49 | UndefinedBuildType, WrongArgs and ToolDisabled are never set |
| BuildJobProperties.OutputStaysOwn | src/cargobuildjob.cpp:215-258 | every output line the job writes is the echo of its own command line or one of the two trailers |
| BuildJobProperties.NoCommandNeverSpawns | src/cargobuildjob.cpp:175-180 | a job without a command never gets an executor |
| BuildJobProperties.BuildThenExit | src/cargobuildjob.cpp:249-260 | `cargo build` in the project root: exit 0 finishes without error after `*** Finished ***`; any other code sets FailedShownError after `*** Failed ***`; the result is emitted once |
| BuildJobProperties.ConfigureFails | src/cargoplugin.cpp:104-107 | starting a configure job ends in NoCommand with no executor and no output, and no trace ever creates one |
| BuildJobProperties.KillThenCrash | src/cargobuildjob.cpp:220-242 | a running job killed and then crashed reports no error and emits once |
| BuildJobProperties.CrashWithoutKill | src/cargobuildjob.cpp:233-235 | without a kill, a crash sets Crashed and "Command crashed." |
| BuildJobProperties.InstallArgv | src/cargoplugin.cpp:140-145 | an install job with a prefix runs `install --root <prefix>` |
| ExecutionConfig.SupportedModes | src/cargoexecutionconfig.cpp:157-160 | the one supported mode is "execute" |
| ExecutionConfig.Start | src/cargoexecutionconfig.cpp:120-143 | a job is returned if and only if there is a configuration and the mode is supported; it is a "run" job on the project root whose run arguments, behind "run", are the plugin's argument list |
| ExecutionConfig.ExecuteArgv | src/cargoexecutionconfig.cpp:128-135 | the argv an execute launch finally runs is the plugin's argument list: it starts with exactly one "run", and cargo runs in the configuration's working directory |
| ExecutionConfig.CanLaunchUrl | src/cargoexecutionconfig.cpp:210-213 | no URL can be launched |
| ExecutionConfig.CalculateDependencies | src/cargoexecutionconfig.cpp:145-149 | a launch has no dependency job |
| ExecutionConfig.Dependencies | src/cargoexecutionconfig.cpp:151-154 | a launch has no dependency job |
| ExecutionConfig.FirstWord | src/cargoexecutionconfig.cpp:60-63 | definition, no contract of its own: the text before the first space, when that space is not the first character; stated by FirstWordOfLine |
| ExecutionConfig.FirstWords | src/cargoexecutionconfig.cpp:55-66 | definition, no contract of its own: the first words of the lines, in order; stated by FirstWordsAppend and FirstWordsShape, and ReadProcess is proved equal to it |
| ExecutionConfig.ReadProcess | src/cargoexecutionconfig.cpp:55-66 | the loop returns the first words of the lines, in order |
| ExecutionConfig.FirstWordOfLine | src/cargoexecutionconfig.cpp:60-63 | a line gives at most one word, and gives one if and only if it has a space and does not start with one; the word and a space begin the line, and the word holds no space |
| ExecutionConfig.FirstWordsAppend | src/cargoexecutionconfig.cpp:58-64 | lines are handled one at a time and in order: the words of two blocks are the words of each, concatenated |
| ExecutionConfig.FirstWordsShape | src/cargoexecutionconfig.cpp:55-66 | there are at most as many words as lines; each is non-empty, holds no space, and begins one of the lines followed by a space |

## Left out

- Process spawning, signal and slot wiring, the output model and `OutputModel::appendLines`: host I/O. Process outcomes are the `ProcError` and `ProcFinished` events, and the lines the job writes itself are the `output` field.
- `KShell::joinArgs`: a foreign library call. The echo line keeps the argument list (`Echo`) instead of the joined text.
- `KShell::splitArgs`: a foreign library call. It is the function parameter `splitArgs`.
- `Path(buildDir, file).toUrl()` and QUrl parsing: path resolution is the opaque pair `FileUrl(buildDir, file)`, and a QUrl is its text and its local file.
- i18n, `qWarning` logging, titles, icons, delegates and output-view behaviours.
- `QStandardPaths::findExecutable` in `CargoPlugin::executable`: an environment lookup.
- KConfig reading and writing beyond the two entries `arguments` reads, the launch-configuration page, `canLaunch` on project items, `canLaunchMetadataFile`, `launcherSuggestions` and `suggestionTriggered`: UI, file I/O and project enumeration.
- The `CargoPlugin` overrides that only return false, empty or null, other than those modelled, and plugin registration (src/kdevcargo.cpp).
- The `enabled` and `environment` fields of the job: the code never reads them.
- QChar::isSpace outside the Basic Multilingual Plane: strings are sequences of code points, not UTF-16 units.
- QtText.ToInt: `toInt` is modelled for decimal text only, with surrounding whitespace, one sign and ASCII digits. Other forms QString accepts are not modelled.
- BuildJob.CargoBuildJob.DoKill: requires an executor, because the code dereferences it and it exists only after a start with a command. A kill before start, or on a job without a command, is a null dereference in the code; the class method excludes it.
- BuildJob.CargoBuildJob.ProcFinished: requires an executor, because the code appends to the output model, which exists only after such a start.
- BuildJob.Run: the trace model over-approximates. `KillStep` and `ProcFinishedStep` also accept a job without an executor, and `Run` applies any event in any order. A trace may therefore contain a kill or a process outcome where the code would dereference a null executor. The BuildJobProperties lemmas hold for every trace, so they hold for the traces the code can reach, but a trace does not by itself show that the code can reach it.
- The 32-bit overflow of `toInt() - 1` for INT_MIN: the model subtracts on unbounded integers.
- The fixed item fields FilteredItem gets from the framework (its default line, column and url) are not modelled. `None` stands for "not set by the classifier".
