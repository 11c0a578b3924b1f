# rust-creator build and output-parsing core in Dafny

This project models the logic at the centre of rust-creator, a Qt Creator plugin for Rust/Cargo
projects whose C++ sources still use the names of the Nim plugin it was derived from. The model
covers:

- **The compiler-output parsers.** These are line-by-line state machines that gather an
  `error…`/`warning…` block from cargo's output, record a `--> file:line:col` location and emit
  one task when a blank line ends the block.
  - `NimParser::handleLine` (module `TaskParser`) keeps the block as a list of lines, lets the
    first location win and turns http(s) URLs into link spans.
  - `LineStateMachine::addLine` (module `LineMachine`) concatenates lines with no separator and
    lets the last location win. Its `NimParser` wrapper keeps one machine per output channel.
  - The regular expressions are decided by explicit predicates in module `Patterns`.
- **The build steps.**
  - The cargo command line of `NimCompilerBuildStep` and the persistence of its options
    (module `CompilerStep`).
  - The arguments and command of `NimbleBuildStep` (module `NimbleStep`).
- **The build configuration.** Its "set only if different" setters, the initializer, the build
  generator and the default build directory (module `BuildConfig`).
- **The project scanner.** What happens when a tree scan finishes: files are disabled, the
  watched directories follow the scan, and the tree is replaced only on change (module
  `Scanner`).
- **The build system.** The metadata selection, targets and tasks, the parse guard, the
  change filters and `supportsAction` (module `NimbleSystem`).

Modules `Host` and `Text` hold the shared types (options, variants, command lines, paths) and the
string functions that stand in for QString (split, join, trimming, `toInt`).

### How each kind of code is modelled

- State that the C++ updates in place is a Dafny `class`. Each of its methods ensures its new
  state in terms of a specification function: `Step` and `Run` for `TaskParser`, `Next` and
  `RunMachine` for `LineMachine`, `Plan` for the scanner.
- The properties of those functions are proved as lemmas.
- Qt signals are modelled as lists or counters of emissions.
- Host services whose code is not part of this model are parameters or constant fields:
  - `absoluteFilePath`, `FilePath::fromUserInput`;
  - link targets, macro expansion, `isAbsolutePath`, `absolutePath`;
  - executable lookup, the kit's compiler;
  - cargo's JSON output.

### Notes on the code

- **The nimble step's parser is a duplicate.** The `LineStateMachine` and `NimParser` in
  project/nimblebuildstep.cpp:44-150 are the same text as the ones in
  project/nimcompilerbuildstep.cpp:46-150, apart from the namespace. One model, `LineMachine`,
  covers both.
- **The header and the source use different names for the build type.**
  project/nimbuildconfiguration.h declares `NimBuildType` and `nimBuildType()`, but the .cpp
  defines `DefaultBuildOptions` and `defaultCompilerOptions()`. The model follows the .cpp:
  - the options are an integer with Empty = 0, Debug = 1 and Release = 2;
  - `updateCommand`'s `nimBuildType() == Release` test is read as "the default options are
    Release".
- **A parse request is dropped, not queued.** `triggerParsing` returns without scanning while a
  run holds the guard, so the model's `TriggerParsing` drops the request.
- **One shape of block breaks the span bound.** A link span recorded for a block stays inside
  the task's details (`RunSpansWithinDetails`) as long as no location line opens the block.
  Such a line becomes the first message line, which is the summary, but its span is measured as
  if it were in the details. The host's summary/details split is not part of this model, so
  this is stated as a precondition rather than as a finding.

## Model

| member | source | states |
|---|---|---|
| Text.SplitJoin | project/nimcompilerbuildstep.cpp:190-198 | splitting on '\|' the '\|'-join of a non-empty list without '\|' gives the list back |
| Text.JoinSplit | project/nimcompilerbuildstep.cpp:190-198 | joining the parts of a split restores any string |
| Text.JoinConcat | project/nimoutputtaskparser.cpp:93 | joining two non-empty line lists is joining each with the separator between them |
| Text.DigitsToInt | project/nimoutputtaskparser.cpp:61 | QString::toInt of a digit capture is its decimal value when that is at most INT_MAX, and 0 exactly when it is larger |
| Text.DecimalOfNumeral | project/nimoutputtaskparser.cpp:61 | reading a decimal numeral gives back its value, so a line number that fits an int is recovered exactly |
| Text.ParseInt32 | project/nimbuildconfiguration.cpp:131 | QVariant::toInt of a stored string (trimmed, then an optional sign and digits) always lies in the 32-bit range; what it reads is stated by IntRoundTrip and SpaceAroundIgnored |
| Text.IntRoundTrip | project/nimbuildconfiguration.cpp:131 | every 32-bit int written in decimal is read back as itself |
| Text.SpaceAroundIgnored | project/nimbuildconfiguration.cpp:131 | white space before and after a stored number does not change what it reads as |
| Host.PathAppended | project/nimbuildconfiguration.cpp:67 | an empty name changes nothing; a non-empty name is joined to the directory with exactly one inserted '/' unless the directory is empty or ends with '/', so the result lies below the directory and ends with the name |
| Patterns.CodedMarkerMeaning | project/nimoutputtaskparser.cpp:40-41 | a marker is its word, optionally a bracketed code, then ": ", exactly when such a code exists |
| Patterns.ErrorMarkerMeaning | project/nimoutputtaskparser.cpp:40 | `^error(\[E\d+\])?: ` matches exactly "error: " or "error[E<digits>]: " at the start |
| Patterns.WarningMarkerMeaning | project/nimoutputtaskparser.cpp:41 | `^warning(\[.\d+\])?: ` matches exactly "warning: " or "warning[<char but newline><digits>]: " at the start |
| Patterns.MarkersDisjoint | project/nimoutputtaskparser.cpp:45-55 | no line is both an error and a warning marker |
| Patterns.IndentedLineIsNoMarker | project/nimoutputtaskparser.cpp:40-41 | a line starting with whitespace is no marker |
| Patterns.MarkerIsNotIndentedLocation | project/nimoutputtaskparser.cpp:40-42 | a marker line never matches the location pattern |
| Patterns.CaptureEnd | project/nimoutputtaskparser.cpp:42 | the greedy `(.*)` ends at the last position followed by `:digits:digits`, and none exists when it fails |
| Patterns.CaptureFrom | project/nimoutputtaskparser.cpp:42 | a capture starts at the given column, holds no line feed and is followed by `:line:col` with the recorded line digits |
| Patterns.PlainCapture | project/nimoutputtaskparser.cpp:42 | for `file:ln:col` with a line-feed-free file the capture is exactly that file and `ln` |
| Patterns.IndentedLocationMeaning | project/nimoutputtaskparser.cpp:42 | after any whitespace and "--> " the location is the capture from the column after the arrow |
| Patterns.PrefixedLocationMeaning | project/nimcompilerbuildstep.cpp:63 | `^\S*--> ` has at most one arrow position, and the location is the capture after it exactly when it exists |
| Patterns.ArrowPosition | project/nimcompilerbuildstep.cpp:63 | an arrow after only non-space characters ends the leading non-space run |
| Patterns.IndentedLineIsNotPrefixed | project/nimcompilerbuildstep.cpp:63 | a line starting with whitespace is never a `^\S*-->` location |
| Patterns.FirstUrl | project/nimoutputtaskparser.cpp:43 | the URL match is the leftmost start of "http://" or "https://" followed by a non-space, and none exists when it fails |
| Patterns.UrlMatchText | project/nimoutputtaskparser.cpp:78-82 | the matched URL starts with a scheme, holds no whitespace and ends at whitespace or the end of the line |
| Patterns.BlankLineMatchesNothing | project/nimoutputtaskparser.cpp:88-93 | a whitespace-only line is no marker, no location of either kind and holds no URL |
| Patterns.BlankIsNoMarker | project/nimoutputtaskparser.cpp:45-55 | a whitespace-only line is no marker |
| Patterns.BlankHasNoLocation | project/nimoutputtaskparser.cpp:57-58 | a whitespace-only line is no location |
| Patterns.BlankHasNoUrl | project/nimoutputtaskparser.cpp:78-79 | a whitespace-only line holds no URL |
| TaskParser.AdjustedLinkSpecs | project/nimoutputtaskparser.cpp:119-127 | the loop keeps the number, lengths and targets of the spans and adds the details offset of the message to every start |
| TaskParser.NimParser.HandleLine | project/nimoutputtaskparser.cpp:38-104 | the parser's new fields, result and scheduled tasks are those of `Step` on its old state |
| TaskParser.NimParser.HandleLocation | project/nimoutputtaskparser.cpp:57-72 | a location line appends the line, adds the shifted file span and records file and line only when none is recorded |
| TaskParser.NimParser.HandlePlain | project/nimoutputtaskparser.cpp:74-103 | the remaining lines follow `PlainStep`: not handled when idle, appended (with a URL span) inside a block, and a blank line schedules the task and resets every field |
| TaskParser.NimParser.AppendUrlLine | project/nimoutputtaskparser.cpp:78-86 | inside a block, a line holding a URL is appended and its one URL span is shifted to where the line starts in the details |
| TaskParser.NimParser.FinishTask | project/nimoutputtaskparser.cpp:93-103 | a blank line inside a block schedules the task built from every buffered member, counted as one output line per buffered line, and then the parser is idle |
| TaskParser.HandleLink | project/nimoutputtaskparser.cpp:106-117 | a link is handled exactly when it contains an http(s) URL somewhere |
| TaskParser.MarkerLineStep | project/nimoutputtaskparser.cpp:45-55 | a marker sets Error or Warning, appends the line, returns InProgress with no spans, schedules nothing and keeps file, line and spans |
| TaskParser.LocationLineStep | project/nimoutputtaskparser.cpp:57-72 | a location line is taken even with no block open; it returns its file span and records the resolved file and line only if no file is recorded; its spans are added after the old ones, shifted by the offset of the line |
| TaskParser.IdleLineStep | project/nimoutputtaskparser.cpp:74-76 | with no message, any other line is NotHandled and changes nothing |
| TaskParser.BodyLineStep | project/nimoutputtaskparser.cpp:78-91 | inside a block a non-blank line is appended and returns InProgress; it has one span exactly when it holds a URL, and the span covers exactly the matched URL |
| TaskParser.ScheduleStep | project/nimoutputtaskparser.cpp:93-103 | a task is scheduled exactly for a blank line with a message; it carries the joined message, kind, file, line and spans for that many lines, and the state returns to idle |
| TaskParser.DescriptionLines | project/nimoutputtaskparser.cpp:93 | the description split at line feeds gives the buffered lines back |
| TaskParser.MessageDetails | project/nimoutputtaskparser.cpp:121 | the details of the joined message are lines 2..n joined, empty for fewer than two lines |
| TaskParser.LinkOffsetValue | project/nimoutputtaskparser.cpp:121-122 | the offset is 0 below two lines and otherwise the length of lines 2..n joined plus one |
| TaskParser.DetailsAppend | project/nimoutputtaskparser.cpp:121-122 | appending a line makes the old details plus the separator a prefix of the new details, with the line at the old offset |
| TaskParser.ShiftedSpanWithin | project/nimoutputtaskparser.cpp:124-125 | shifting a span of a line by the line's offset in a text covers the same characters in that text |
| TaskParser.AppendKeepsWellformed | project/nimoutputtaskparser.cpp:83-84 | appending a line with spans inside it keeps every recorded span inside the details |
| TaskParser.FileLinksWithin | project/nimoutputtaskparser.cpp:63 | the file span lies inside the location line, on the captured file name |
| TaskParser.StepKeepsWellformed | project/nimoutputtaskparser.cpp:38-104 | one line keeps all recorded spans inside the details, unless it is a location opening a block |
| TaskParser.RunConcat | project/nimoutputtaskparser.cpp:38-104 | running two line lists in a row is running their concatenation |
| TaskParser.RunSpansWithinDetails | project/nimoutputtaskparser.cpp:59-85 | over any lines in which no location opens a block, every task's spans lie inside its details |
| TaskParser.RunBlockBody | project/nimoutputtaskparser.cpp:66-70 | over the body of a block the lines accumulate, nothing is scheduled and the first recorded location stays |
| TaskParser.ErrorBlockScenario | project/nimoutputtaskparser.cpp:182-219 | an error block, a blank line, "error: aborting…" and a blank line give exactly two tasks: the block's with its first location, then one with no file and line 0 |
| TaskParser.AbortTail | project/nimoutputtaskparser.cpp:194-196 | "error: …" and a blank line give one Error task of one line with no file and line 0, and a trailing line adds nothing |
| TaskParser.WarningThenLocation | project/nimoutputtaskparser.cpp:252-303 | a warning and an indented location record the file, line and one span at the capture, and later locations do not change what is recorded |
| LineMachine.LineStateMachine.AddLine | project/nimcompilerbuildstep.cpp:59-107 | the machine's new fields and returned task are those of `Next` on its old state |
| LineMachine.NimParser.StdOutput | project/nimcompilerbuildstep.cpp:125-134 | a stdout line goes to the stdout machine only, its task is added tagged as stdout, the stderr machine is untouched and the line is passed on: the parser's state moves exactly as `FeedOne`, so ChannelsIndependent holds of the class |
| LineMachine.NimParser.StdError | project/nimcompilerbuildstep.cpp:136-145 | a stderr line goes to the stderr machine only, its task is added tagged as stderr, the stdout machine is untouched and the line is passed on: the parser's state moves exactly as `FeedOne` |
| LineMachine.MarkerLineNext | project/nimcompilerbuildstep.cpp:65-75 | a marker sets the type, concatenates the line and yields no task |
| LineMachine.LocationLineNext | project/nimcompilerbuildstep.cpp:77-84 | a `^\S*-->` location overwrites file and line, concatenates the line and yields no task |
| LineMachine.IndentedArrowIsText | project/nimcompilerbuildstep.cpp:90-93 | an indented `--> f:1:2` inside a block is plain text: only concatenated |
| LineMachine.IdleLineNext | project/nimcompilerbuildstep.cpp:86-88 | with an empty message any other line yields nothing and changes nothing |
| LineMachine.TaskNext | project/nimcompilerbuildstep.cpp:95-106 | a task comes exactly from a blank line with a message, carries message, file, line and type, and resets the machine |
| LineMachine.LastLocationWins | project/nimcompilerbuildstep.cpp:77-84 | over a block body the message is the concatenation and the last location's file and line are recorded |
| LineMachine.ConcatIsJoin | project/nimcompilerbuildstep.cpp:77-84 | the message concatenation is the join of the lines with the empty separator |
| LineMachine.ChannelsIndependent | project/nimcompilerbuildstep.cpp:116-150 | each machine ends where its own channel's lines alone take it; the tasks reported from stdout (stderr) are exactly the tasks the stdout (stderr) machine produces from the stdout (stderr) lines, in order; no task is lost or added; and every line is passed on in order |
| LineMachine.OwnLinesOnly | project/nimcompilerbuildstep.cpp:125-145 | a channel's machine ends where that channel's lines take it, and the sequence of tasks reported from that channel is the earlier one followed by exactly the tasks its machine produces from those lines |
| LineMachine.TasksOnConcat | project/nimcompilerbuildstep.cpp:125-145 | selecting one channel's reported tasks distributes over concatenation |
| LineMachine.TasksOnSplit | project/nimcompilerbuildstep.cpp:125-145 | every reported task comes from exactly one of the two channels |
| LineMachine.EveryLinePassedOn | project/nimcompilerbuildstep.cpp:133-144 | the forwarded lines are exactly the events in their order |
| CompilerStep.NonEmpty | project/nimcompilerbuildstep.cpp:242-245 | the kept options are exactly the non-empty ones, none of them empty |
| CompilerStep.NonEmptyConcat | project/nimcompilerbuildstep.cpp:242-245 | the filter distributes over concatenation, so the options keep their order |
| CompilerStep.NonEmptyKeepsAll | project/nimcompilerbuildstep.cpp:242-245 | options with no empty string pass through unchanged |
| CompilerStep.ArgumentsOrder | project/nimcompilerbuildstep.cpp:240-251 | the user options come first, then "--release" exactly for a Release configuration, then the target directory, and the manifest path last |
| CompilerStep.ComposeCommand | project/nimcompilerbuildstep.cpp:240-251 | the loop builds the compiler command with exactly `Arguments` |
| CompilerStep.OptionsRoundTrip | project/nimcompilerbuildstep.cpp:190-198 | a non-empty option list without '\|' survives toMap then fromMap |
| CompilerStep.OptionsRoundTripCommand | project/nimcompilerbuildstep.cpp:190-198 | an empty list comes back as [""], and any '\|'-free list comes back with the same cargo arguments |
| CompilerStep.StoredOptionsRoundTrip | project/nimcompilerbuildstep.cpp:190-198 | a stored string survives fromMap then toMap |
| CompilerStep.NimCompilerBuildStep.UpdateCommand | project/nimcompilerbuildstep.cpp:229-254 | with toolchain and configuration present the command is the compiler with the built arguments; when an assert fails it stays as it was |
| CompilerStep.NimCompilerBuildStep.UpdateProcessParameters | project/nimcompilerbuildstep.cpp:214-220 | the command is updated, then processParametersChanged is emitted once |
| CompilerStep.NimCompilerBuildStep.SetUserCompilerOptions | project/nimcompilerbuildstep.cpp:207-212 | the options are stored and always signalled, and the command follows them |
| CompilerStep.NimCompilerBuildStep.ToMap | project/nimcompilerbuildstep.cpp:195-200 | the options are stored '\|'-joined under their key |
| CompilerStep.NimCompilerBuildStep.FromMap | project/nimcompilerbuildstep.cpp:187-193 | the options are the stored string split on '\|', the command is rebuilt and the result is true |
| NimbleStep.DefaultArguments | project/nimblebuildstep.cpp:213-225 | "--debugger:native" exactly for a Debug configuration, the empty string for every other type and without a configuration |
| NimbleStep.NimbleCommand | project/nimblebuildstep.cpp:173 | the command is the nimble executable with exactly "build" and the arguments |
| NimbleStep.ArgumentsRoundTrip | project/nimblebuildstep.cpp:200-211 | arguments written by toMap are read back by fromMap |
| NimbleStep.MissingArgumentsDefault | project/nimblebuildstep.cpp:202 | without the key fromMap yields the default arguments |
| NimbleStep.NimbleBuildStep.constructor | project/nimblebuildstep.cpp:152-161 | without a configuration the arguments stay empty; otherwise they are reset to the default, signalling only for Debug |
| NimbleStep.NimbleBuildStep.OnArgumentsChanged | project/nimblebuildstep.cpp:227-231 | the command is nimble build with the current arguments |
| NimbleStep.NimbleBuildStep.SetArguments | project/nimblebuildstep.cpp:187-193 | equal arguments change and signal nothing; others are stored, signalled once and the connected slot updates the command |
| NimbleStep.NimbleBuildStep.ResetArguments | project/nimblebuildstep.cpp:195-198 | the arguments become the default under the same no-op rule |
| NimbleStep.NimbleBuildStep.Init | project/nimblebuildstep.cpp:163-175 | the command is nimble build with the arguments, and the base result is returned |
| NimbleStep.NimbleBuildStep.FromMap | project/nimblebuildstep.cpp:200-204 | the arguments are the stored value or the default, with no signal |
| NimbleStep.NimbleBuildStep.ToMap | project/nimblebuildstep.cpp:206-211 | the arguments are stored under their key |
| NimbleStep.SetArgumentsTwice | project/nimblebuildstep.cpp:187-193 | a second call with the same arguments signals nothing more |
| BuildConfig.OptionsFor | project/nimbuildconfiguration.cpp:91-102 | Release gives Release, Debug gives Debug, every other type Empty, each in both directions |
| BuildConfig.TomlFiles | project/nimbuildconfiguration.cpp:107-109 | the kept files are exactly the project files ending in ".toml", in order |
| BuildConfig.FirstToml | project/nimbuildconfiguration.cpp:111-113 | the chosen file is the first ".toml" file: every earlier file has another suffix |
| BuildConfig.DefaultBuildDirectory | project/nimbuildconfiguration.cpp:52-68 | an absolute expansion is returned as is, a relative one appended to the project directory |
| BuildConfig.RelativeBuildDirectory | project/nimbuildconfiguration.cpp:66-67 | a non-empty relative expansion gives a path below the project directory (separated by '/') ending with the expansion; an empty one gives the project directory |
| BuildConfig.BuildInfosShape | project/nimbuildconfiguration.cpp:229-243 | exactly two infos, Debug then Release; display name and directory only for a setup |
| BuildConfig.ConfigRoundTrip | project/nimbuildconfiguration.cpp:129-146 | the default options and the target file survive toMap then fromMap under distinct keys |
| BuildConfig.NimBuildConfiguration.SetDefaultCompilerOptions | project/nimbuildconfiguration.cpp:155-161 | equal options are a no-op; others are stored, signalled once, and the processParametersChanged that follows makes each existing step rebuild its command once |
| BuildConfig.NimBuildConfiguration.SetTargetNimFile | project/nimbuildconfiguration.cpp:170-176 | an equal file is a no-op; another is stored, signalled once, and the processParametersChanged that follows makes each existing step rebuild its command once |
| BuildConfig.NimBuildConfiguration.UpdateTargetNimFile | project/nimbuildconfiguration.cpp:187-196 | a non-empty target stays; otherwise the first ".toml" file becomes the target (and each existing step updates once), or nothing changes if there is none |
| BuildConfig.NimBuildConfiguration.Initialize | project/nimbuildconfiguration.cpp:80-114 | the directory is set, and a changed directory makes each existing step rebuild its command; without both steps nothing else changes; with both steps, the options follow the build type, the steps get exactly ["build"] and ["clean"] and their commands (unchanged without a compiler), the first ".toml" file becomes the target, optionsChanged, targetChanged and parametersChanged grow only for a value that actually changed, and each step updates once per changed directory, options and target plus once for its own options |
| BuildConfig.NimBuildConfiguration.ConfigureSteps | project/nimbuildconfiguration.cpp:87-113 | the initializer after both steps are found: options, the steps' options and commands, the target, and every signal and step update they cause |
| BuildConfig.NimBuildConfiguration.NotifySteps | project/nimcompilerbuildstep.cpp:158-163 | a signal the steps are connected to makes each existing step run updateProcessParameters once, keeping its options |
| BuildConfig.NimBuildConfiguration.SetBuildDirectory | project/nimcompilerbuildstep.cpp:158-159 | a changed build directory is stored and reaches each existing step once through buildDirectoryChanged; an equal one changes nothing |
| BuildConfig.NimBuildConfiguration.FromMap | project/nimbuildconfiguration.cpp:129-138 | options and target are read from their keys, and the result is the conjunction of the base results |
| BuildConfig.NimBuildConfiguration.ToMap | project/nimbuildconfiguration.cpp:140-146 | options and target are written under their keys |
| Scanner.Scanned | project/nimbuildsystem.cpp:49-51 | the scan keeps exactly the files not ending in ".toml.user" |
| Scanner.PlanProperties | project/nimbuildsystem.cpp:69-84 | added and removed directories are disjoint, common ones untouched, the watched set becomes the scanned one, and the tree is replaced exactly when the file sets differ |
| Scanner.PlanIdempotent | project/nimbuildsystem.cpp:69-84 | a second sync with the same scan adds nothing, removes nothing and keeps the tree |
| Scanner.NimProjectScanner.OnScanFinished | project/nimbuildsystem.cpp:58-87 | exactly the non-".toml" nodes are disabled, the watched set is the scanned directories, the tree is the scan exactly when the files changed, and finished is signalled |
| Scanner.NimProjectScanner.AddFiles | project/nimbuildsystem.cpp:100-105 | only a reparse is requested, and the result is true |
| Scanner.NimProjectScanner.RemoveFiles | project/nimbuildsystem.cpp:107-112 | only a reparse is requested, and the result is Ok |
| Scanner.NimProjectScanner.RenameFile | project/nimbuildsystem.cpp:114-119 | only a reparse is requested, and the result is true |
| Scanner.SyncTwice | project/nimbuildsystem.cpp:58-87 | two syncs with one scan: the second plans nothing, and finished is signalled twice |
| Scanner.NimPathFromKit | project/nimbuildsystem.cpp:121-127 | no toolchain or an empty command gives the empty path, otherwise the command's directory |
| NimbleSystem.MetadataArgs | project/nimblebuildsystem.cpp:49-54 | exactly metadata, --no-deps, --offline, --manifest-path=<p>, --format-version=1, in that order |
| NimbleSystem.OwnPackages | project/nimblebuildsystem.cpp:61-63 | the kept packages are exactly those whose manifest_path is the path, and when the first package matches it comes first |
| NimbleSystem.FirstOwnPackage | project/nimblebuildsystem.cpp:61-63 | the package taken is the first in the document whose manifest_path is the path: it matches, and no earlier package does |
| NimbleSystem.BinsConcat | project/nimblebuildsystem.cpp:69-75 | the binaries of concatenated target lists are concatenated in order |
| NimbleSystem.BinsOne | project/nimblebuildsystem.cpp:70-74 | a target contributes its name exactly when its first kind is "bin" |
| NimbleSystem.BinsAreBinTargets | project/nimblebuildsystem.cpp:69-75 | every binary is the name of a "bin" target, and there are no more binaries than targets |
| NimbleSystem.CollectBins | project/nimblebuildsystem.cpp:69-75 | the loop collects exactly `Bins` of the targets |
| NimbleSystem.ParseMetadataAsWritten | project/nimblebuildsystem.cpp:61-77 | defined only when a package matches; the name and binaries of the first match |
| NimbleSystem.ParseMetadata | project/nimblebuildsystem.cpp:61-77 | the empty metadata when no package matches, otherwise the first match's name and binaries |
| NimbleSystem.DirectoryNeverMatches | project/nimblebuildsystem.cpp:119-122 | when every manifest is a Cargo.toml file, no package matches a path that is not one |
| NimbleSystem.ProjectDirectoryMissesOwnPackage | project/nimblebuildsystem.cpp:119-122 | for a project in /p, the directory matches no package while the project file matches its own |
| NimbleSystem.TargetsFor | project/nimblebuildsystem.cpp:127-138 | one target per binary, in order, named and keyed by it, running in the build directory an executable below it that ends with the binary plus the suffix; none without an active configuration |
| NimbleSystem.TasksFor | project/nimblebuildsystem.cpp:140-145 | one task per binary, in order, with name and description the binary; none without an active configuration |
| NimbleSystem.TargetsMatchTasks | project/nimblebuildsystem.cpp:124-146 | targets and tasks line up one to one by binary |
| NimbleSystem.ReparseOnFileChange | project/nimblebuildsystem.cpp:85-88 | a file change asks for a parse exactly for the project file |
| NimbleSystem.ReparseOnDirectoryChange | project/nimblebuildsystem.cpp:95-101 | a directory change asks for a parse exactly when it is not the project root |
| NimbleSystem.SupportsAction | project/nimblebuildsystem.cpp:168-180 | files allow exactly Rename and RemoveFile, folders and projects exactly AddNewFile, RemoveFile and AddExistingFile, others defer to the base |
| NimbleSystem.RemoveFileEverywhere | project/nimblebuildsystem.cpp:168-180 | RemoveFile is allowed on files, folders and projects; Rename only on files, AddNewFile only on non-files |
| NimbleSystem.NimbleBuildSystem.constructor | project/nimblebuildsystem.cpp:80-104 | the constructor requests one delayed parse |
| NimbleSystem.NimbleBuildSystem.TriggerParsing | project/nimblebuildsystem.cpp:106-115 | while the guard is held a request is dropped; otherwise the guard is taken and one scan starts |
| NimbleSystem.NimbleBuildSystem.UpdateProject | project/nimblebuildsystem.cpp:117-161 | targets, display name and tasks come from the project file's package; tasks are replaced and signalled only when different; the guard is released |
| NimbleSystem.NimbleBuildSystem.ApplyMetadata | project/nimblebuildsystem.cpp:124-161 | from the metadata read: one target and one task per binary, the display name, tasks signalled only when they differ, and the guard released |
| NimbleSystem.NimbleBuildSystem.OnFileChanged | project/nimblebuildsystem.cpp:85-88 | a parse is requested only for the project file |
| NimbleSystem.NimbleBuildSystem.OnDirectoryChanged | project/nimblebuildsystem.cpp:95-101 | a parse is requested for every directory but the project root |
| NimbleSystem.NimbleBuildSystem.OnReparseRequested | project/nimblebuildsystem.cpp:90-91 | the scanner's reparse request asks for a parse |
| NimbleSystem.NimbleBuildSystem.AddFiles | project/nimblebuildsystem.cpp:182-185 | delegated to the scanner: one reparse request, which the connected requestDelayedParse turns into one parse request; true |
| NimbleSystem.NimbleBuildSystem.RemoveFiles | project/nimblebuildsystem.cpp:187-192 | delegated to the scanner: one reparse request, which the connected requestDelayedParse turns into one parse request; Ok |
| NimbleSystem.NimbleBuildSystem.DeleteFiles | project/nimblebuildsystem.cpp:194-197 | always true, nothing changes |
| NimbleSystem.NimbleBuildSystem.RenameFile | project/nimblebuildsystem.cpp:199-202 | delegated to the scanner: one reparse request, which the connected requestDelayedParse turns into one parse request; true |
| NimbleSystem.TriggerTwice | project/nimblebuildsystem.cpp:106-115 | two triggers in a row start exactly one scan |
| NimbleSystem.UpdateTwice | project/nimblebuildsystem.cpp:151-154 | two updates from the same document end with the targets, display name and tasks one update gives, tasksChanged raised only when the first update changed the tasks (so the second changes nothing), the guard released and two updates signalled |

## Left out

- Process and file-system I/O are parameters or left out:
  - running cargo and `QJsonDocument::fromJson` in `parseMetadata`; the model starts from the parsed JSON value;
  - `QStandardPaths::findExecutable` and `nimblePathFromKit`, which is existence checks and path canonicalisation;
  - `TreeScanner::asyncScanForFiles` and `FileSystemWatcher`; the scan result and the notifications are inputs;
  - `watchProjectFilePath`.
- Asynchrony and host services are left out:
  - Qt's signal and slot machinery (emissions are recorded, connections are written out where they matter);
  - `requestDelayedParse` debouncing;
  - what `guardParsingRun`/`markAsSuccess` do beyond holding a flag;
  - `emitBuildSystemUpdated`'s listeners.
- Host parsing helpers are function parameters, and their behaviour is not modelled:
  - `absoluteFilePath`, `FilePath::fromUserInput`, `addLinkSpecForAbsoluteFilePath`;
  - `setDetailsFormat`;
  - the `CompileTask` summary/details split, for which "details" is taken as lines 2..n of the message.
- The format ranges that the tests expect, such as `formatRange(38, 7)`, are produced by the host and not by this code.
- `handleLink`'s `QDesktopServices::openUrl` is left out, and only the URL test is kept.
- `ProjectMacroExpander` and the build directory template are a function parameter. `FileUtils::isAbsolutePath` and `FilePath::absolutePath` are parameters too.
- Translations (`tr`) are left out, and the generator's type names are the untranslated "Debug" and "Release".
- The nim-format tests in project/nimcompilerbuildstep.cpp do not match the current regular expressions, and they are not used.
- The widgets, plugin registration, settings and project node icons are not part of this model.
- `outFilePath`, `nimCompilerBuildStep`/`nimCompilerCleanStep` lookups, `init`'s parser set-up and `createConfigWidget` are left out. The step lookups are given as possibly-null fields.
- CompilerStep.NimCompilerBuildStep.UpdateProcessParameters: the working directory and the environment that updateProcessParameters also refreshes are not modelled, because they come from host objects.
- BuildConfig.NimBuildConfiguration.SetBuildDirectory: the base class's setBuildDirectory is not part of this model; it is taken to emit buildDirectoryChanged exactly when the directory changes. The steps' reaction to environmentChanged is left out with the environment.
- TaskParser.RunSpansWithinDetails: requires that no location line opens a block, because such a line becomes the summary while its span is measured as if it were in the details (see the notes above).
- NimbleSystem.NimbleBuildSystem.UpdateProject: reads the package of the project file and takes the empty metadata when none matches. This is the corrected behaviour from the findings below, not the code as written.
- Host.VariantToInt: reads a stored string as QString::toInt does. Qt 5's QVariant converts a string through a 64-bit conversion and then narrows it to int, so a string outside the 32-bit range may read differently there; only settings written outside this plugin can hold one, because toMap writes integers.
- Scanner.NimPathFromKit: the directory is what the host's `absolutePath` gives, a parameter, because FilePath's implementation is not part of this model.
- TaskParser.FileLinks: span starts and lengths count Unicode code points (Dafny's `char`), where Qt's `capturedStart`/`capturedLength` count UTF-16 code units, so the two differ once a character outside the Basic Multilingual Plane comes before or inside the span. Text is not modelled as UTF-16 anywhere in this model.
- TaskParser.LinkOffset: the offset is the code-point length of the joined details, where Qt's `QString::length` counts UTF-16 code units (same difference as above).
- TaskParser.AdjustedLinkSpecs: shifts by that code-point offset, so its starts differ from Qt's after a character outside the Basic Multilingual Plane.
- Patterns.FirstUrl: the URL match's start and length count code points, not UTF-16 units; the URL spans that TaskParser.PlainStep and TaskParser.NimParser.AppendUrlLine record inherit this, e.g. on a note line with the character U+1F600 before "https://a.io" the model's start is one less than Qt's.
- Scanner.NimProjectScanner.OnScanFinished: the scan result is an input. It is not tied to Scanner.Scanned (the asynchronous `TreeScanner` that applies the filter is left out), so the model does not promise that the nodes it receives already had ".toml.user" files removed.
- Scanner.NimProjectScanner.OnScanFinished: requires the scanned nodes to be distinct objects, because each is owned by one `unique_ptr`.

## Findings

| source | as written | input that shows it | evidently intended | confidence | as-written member | corrected member |
|---|---|---|---|---|---|---|
| project/nimblebuildsystem.cpp:119-122 | `updateProject` passes `projectDirectory()` to `parseMetadata`, which uses it both as `--manifest-path=` and as the `manifest_path` to look for | a project in `/p` with manifest `/p/Cargo.toml`: cargo reports `manifest_path` `/p/Cargo.toml`, so no package equals `/p` | pass the project file path | medium, not executed | NimbleSystem.ProjectDirectoryMissesOwnPackage | NimbleSystem.NimbleBuildSystem.UpdateProject |
| project/nimblebuildsystem.cpp:61-63 | `filtered(...)[0]` is taken without checking that some package matched | cargo output with no package for the path (or no output at all): the filtered list is empty and element 0 has no defined value | fall back to the empty metadata when nothing matches | high, not executed | NimbleSystem.ParseMetadataAsWritten | NimbleSystem.ParseMetadata |
