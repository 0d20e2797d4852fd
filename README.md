# NetworkGuardian plugin engine, in Dafny

NetworkGuardian runs a set of plugins on the machine it is started on and turns what they return
into a report. This project models the engine's core in Dafny and proves what it does. It covers
both generations of the code.

- The current framework (`networkguardian/framework/`):
  - `@executor` tags a plugin's functions with the platforms they run on, a template and an
    elevation flag;
  - the `MetaPlugin` metaclass folds the tagged functions into a platform-to-executor dict;
  - `AbstractPlugin.load` runs a fixed sequence of checks before a plugin counts as loaded;
  - the registry loads every plugin and collects their failures;
  - report processors run the usable plugins into a report and keep a progress figure.
- The earlier framework (`src/networkguardian/framework/`): the same design with a different
  macOS value, no empty-executor check, `process` returning the template too, and a catalog
  keyed by report name.
- The earlier drafts:
  - the `PluginExecutor` (`src/networkguardian/executor.py`);
  - two plugin base classes with a plain platform list (`src/networkguardian/plugin.py`,
    `networkguardian/plugin.py`);
  - the first report (`src/networkguardian/report.py`);
  - the pool-sizing prototype (`prototyping/thread_count_util.py`);
  - `format_bytes` (`src/networkguardian/standard_plugins.py`, and the same code in
    `src/networkguardian/plugin.py:230-244`).

## How the model is built

- **Exceptions are values.** Anything that can raise returns a `Result` (`Ok` or
  `Raise(error)`) or an `Option<Error>`. The error classes of `networkguardian/exceptions.py` and
  the built-in exceptions the code raises form one datatype, `Exceptions.Error`.
- **Objects stay objects.** Plugins, registries, reports, catalogs and processors are classes
  whose methods update their fields.
- **Dicts are values.** A Python `dict` is `PyDict.Dict`, a map that also remembers the order in
  which keys were first inserted. Assigning to an existing key keeps its position, as in Python.
- **Plugin code and the environment are parameters.** These are given from outside the model:
  - what a plugin's `initialize()` raises (`initializeRaises`);
  - what its executor returns or raises (`invoke`, `execute`);
  - the text of its template;
  - the name `platform.system()` reports;
  - the core count, the elevation status, the clock, the host name and the configured reports directory.
- **Thread pools are a completion order.** The `as_completed` loops are sequential loops over
  `order`, which may be any permutation of the submitted plugins.
- **One copy of shared code.** The decorator and the metaclass are the same code in both
  framework generations. They are modelled once, in module `Tagging`, at
  `networkguardian/framework/plugin.py:60-111` (the earlier copy is at
  `src/networkguardian/framework/plugin.py:59-97`). The `get_thread_count` of both registries is
  modelled once, as `FrameworkRegistry.GetThreadCount`; the earlier copy is at
  `src/networkguardian/framework/registry.py:77-100`.

Where the documented design and the code disagree, the model follows the code:

- **Pool size.** The design promises a pool size of at least 1. The code has no lower bound: an
  empty plugin set sizes the pool at 0, and `ThreadPoolExecutor` then raises `ValueError`.
- **Reloading.** The design treats a failed load as terminal. The code never clears `_loaded`
  or `loading_exception`, so a failed reload of a loaded plugin leaves it loaded.
- **Load failures.** The design says loading never throws. The current `load_plugins` lets the
  `ValueError` of platform detection escape.
- **Execution failures.** The design says they are always caught. The draft `PluginExecutor`
  catches only `PluginProcessingError` and lets every other exception escape.
- **Missing exception classes.** The earlier `src/networkguardian/framework/plugin.py:6-7`
  imports `PluginUnsupportedPlatformError` and `PluginRequiresElevationError`, but
  `src/networkguardian/exceptions.py:8-28` defines only `PluginException`,
  `PluginInitializationError` and `PluginProcessingError`. When `networkguardian` resolves to
  `src/networkguardian`, as the package layout of `src/setup.py` suggests, that module fails on
  import as written. The model gives the two errors their own constructors, as the later generation
  defines them, and models the code past the import.

## Model

| member | source | states |
|---|---|---|
| PyDict.SetPlacement | networkguardian/framework/registry.py:32 | `d[k] = v` overwrites the value of an existing key in place, appends a new key at the end, and leaves every other entry as it was |
| PyDict.FromKeys | networkguardian/framework/report.py:162 | `{k: v for k in ks}` has exactly the keys of `ks`, all mapped to `v`, in the order of `ks` when they are distinct |
| Tagging.MembersComplete | networkguardian/framework/plugin.py:85 | iterating `SystemPlatform` yields every member |
| Tagging.Lookup | src/networkguardian/framework/plugin.py:18-28 | the enum call returns the member whose value is the string, and raises `ValueError` exactly when no member has that value |
| Tagging.Executor | networkguardian/framework/plugin.py:60-91 | with no platform given the function claims every member, in the enum's order, otherwise exactly the given ones; template and elevation flag (default false) are recorded |
| Tagging.ClaimAllGet | networkguardian/framework/plugin.py:106-107 | after the inner loop, a claimed platform maps to the function and every other platform keeps its earlier entry |
| Tagging.ExecutorsLastWriterWins | networkguardian/framework/plugin.py:99-111 | the metaclass maps each platform to the last tagged function claiming it; a platform is a key exactly when some tagged function claims it; untagged functions and attributes add nothing |
| Tagging.MetaPluginNew | networkguardian/framework/plugin.py:101-109 | the nested loops build exactly the dict of the fold `ExecutorsOf` |
| FrameworkPlugin.ReplaceDarwin | networkguardian/framework/plugin.py:28 | replacing "Darwin" by "Mac OS X" maps "Darwin" to "Mac OS X", leaves a name without "Darwin" unchanged, and makes every other name containing it unrecognisable |
| FrameworkPlugin.DetectCases | networkguardian/framework/plugin.py:18-29 | detection yields WINDOWS for "Windows", LINUX for "Linux", MAC_OS for "Darwin" and for "Mac OS X", and `ValueError` for every other name |
| FrameworkPlugin.LoadStep | networkguardian/framework/plugin.py:152-176 | `load` records the platform first, then checks in order: no executor (`PluginExecutorError`), platform not a key (`PluginUnsupportedPlatformError` listing the supported platforms), `initialize()`, elevation; `execute`/`template` are bound only past `initialize()`; `loaded` becomes true exactly on success and is never cleared; coherence of `execute` and `template` is kept |
| FrameworkPlugin.ProcessIn | networkguardian/framework/plugin.py:191-199 | before a successful load `process` raises `PluginProcessingError`; after one it returns or raises what the bound executor does |
| FrameworkPlugin.AbstractPlugin.Process | networkguardian/framework/plugin.py:191-199 | an unloaded plugin refuses with `PluginProcessingError`; a loaded one gives what its bound executor returns or raises |
| FrameworkPlugin.LoadThenProcess | networkguardian/framework/plugin.py:191-199 | after a successful load `process` runs the executor the class maps the platform to; while no load has succeeded it raises `PluginProcessingError` |
| FrameworkPlugin.AbstractPlugin.constructor | networkguardian/framework/plugin.py:137-146 | identity fields as given, description from the docstring or the default text, executors from the metaclass, nothing loaded or bound |
| FrameworkPlugin.AbstractPlugin.Load | networkguardian/framework/plugin.py:152-176 | the state and the raised exception are exactly those of `LoadStep`; `loading_exception` is untouched; coherence is preserved |
| FrameworkPlugin.AbstractPlugin.SupportedPlatforms | networkguardian/framework/plugin.py:208-213 | the executor dict's keys, each once: exactly the supported platforms |
| FrameworkRegistry.UsableAmong | networkguardian/framework/registry.py:20 | the filter keeps exactly the plugins that are loaded and supported |
| FrameworkRegistry.UsableAmongInOrder | networkguardian/framework/registry.py:20 | two selected plugins appear in the result in the order they have in the input |
| FrameworkRegistry.UsableAmongOnce | networkguardian/framework/registry.py:20 | an input that holds each plugin once gives a result that holds each plugin once |
| FrameworkRegistry.Registry.constructor | networkguardian/framework/registry.py:12 | the registry starts empty |
| FrameworkRegistry.Registry.RegisterPlugin | networkguardian/framework/registry.py:23-34 | one fresh, unloaded instance with the given identity is stored under `name`; a re-registered name keeps its position; every other entry is untouched; distinct names keep distinct instances |
| FrameworkRegistry.Registry.UsablePlugins | networkguardian/framework/registry.py:15-20 | `usable_plugins()` returns exactly the registered plugins that are loaded and supported, in registry order, each once while every name holds its own instance |
| FrameworkRegistry.Registry.LoadPlugins | networkguardian/framework/registry.py:63-77 | a failed detection raises its `ValueError` and touches no plugin; otherwise every plugin is loaded once and the result is true exactly when some plugin is usable |
| FrameworkRegistry.Registry.LoadDetected | networkguardian/framework/registry.py:69-77 | each plugin ends in the state its `load` leaves; what `load` raised replaces `loading_exception`, and a success leaves an earlier one in place; nothing propagates |
| FrameworkRegistry.LoadEach | networkguardian/framework/registry.py:69-75 | the loop loads each distinct plugin exactly once, with the same effect as `LoadDetected` |
| FrameworkRegistry.GetThreadCount | networkguardian/framework/registry.py:91-114 | the core count, lowered to `max_required` when given and smaller; never above either, with no lower bound |
| FrameworkReport.NewPluginResult | networkguardian/framework/report.py:27-39 | identity copied from the plugin; a supplied exception is kept; otherwise missing data gives "Plugin returned no data to render" (winning over the template message), and a missing template alone gives "No plugin template was found"; no exception exactly when both are present |
| FrameworkReport.Report.constructor | networkguardian/framework/report.py:53-61 | the report records its name, date, host, platform and version, with no results and no path |
| FrameworkReport.Report.AddResult | networkguardian/framework/report.py:66-67 | exactly one result, built from the data and template, is appended; earlier results are unchanged |
| FrameworkReport.Report.AddException | networkguardian/framework/report.py:69-70 | exactly one result carrying the exception is appended; earlier results are unchanged |
| FrameworkReport.Catalog.constructor | networkguardian/framework/report.py:18 | the report list starts empty |
| FrameworkReport.Catalog.StoreReport | networkguardian/framework/report.py:91-96 | the report is appended and given the path `export_report` returns, the generated file name joined to the reports directory; the returned index finds it in the list |
| FrameworkReport.JoinPath | networkguardian/framework/report.py:118 | the joined path ends with the file name; it starts with the directory unless the name is absolute, in which case it is the name |
| FrameworkReport.GenerateReportFilename | networkguardian/framework/report.py:99-111 | the name is "name (system - platform) date", followed by "." and the extension exactly when the extension is non-empty |
| FrameworkReport.ExportedNameIsLoadable | networkguardian/framework/report.py:73-77 | a report exported under its default name ends with the report extension, so `load_reports` picks it up again, and so does the path `store_report` records |
| FrameworkReport.Percentage | networkguardian/framework/report.py:180 | `c * (100 / n)` lies in [0, 100], grows with `c`, and is 100 exactly at `c == n` and 0 exactly at `c == 0` |
| FrameworkReport.ProgressOf | networkguardian/framework/report.py:178-180 | the progress raises `ZeroDivisionError` exactly for an empty plugin set |
| FrameworkReport.ProgressBounds | networkguardian/framework/report.py:178-180 | the progress lies in [0, 100]; it is 100 exactly when every flag is set and 0 exactly when none is |
| FrameworkReport.ProgressComplete | networkguardian/framework/report.py:180 | once every flag is set the progress is exactly 100 |
| FrameworkReport.ProgressGrows | networkguardian/framework/report.py:180 | setting more flags never lowers the progress |
| FrameworkReport.ProgressMonotone | networkguardian/framework/report.py:172 | marking a plugin complete never lowers the progress |
| FrameworkReport.Completion | networkguardian/framework/report.py:203-208 | a plugin whose `process` returns gets a result with its data and template; one whose `process` raises gets a result carrying that exception |
| FrameworkReport.CompletionsInOrder | networkguardian/framework/report.py:200-208 | the completion loop records one result per plugin, in completion order |
| FrameworkReport.NotCallableResult | networkguardian/framework/report.py:169 | calling the `template` attribute raises `TypeError`, which is recorded with no data |
| FrameworkReport.NotCallableResultsAt | networkguardian/framework/report.py:166-176 | as written, `start` records one `TypeError` result per plugin, in order |
| FrameworkReport.MarkAllFlags | networkguardian/framework/report.py:202 | marking plugins keeps the plugins and their order and sets exactly the marked flags |
| FrameworkReport.MarkPermutation | networkguardian/framework/report.py:200-202 | completing every plugin once, in any order, sets every flag and brings the progress to 100 |
| FrameworkReport.MarkSucceededFlags | networkguardian/framework/report.py:167-172 | processing the plugins in order sets exactly the flags of those whose `process` returns |
| FrameworkReport.ReportProcessor.constructor | networkguardian/framework/report.py:160-164 | a fresh report under the given name, every plugin flagged incomplete, no report id |
| FrameworkReport.ReportProcessor.Start | networkguardian/framework/report.py:166-176 | as written: every plugin gets a `TypeError` result, in order, and no flag is set |
| FrameworkReport.ReportProcessor.CallTemplates | networkguardian/framework/report.py:167-176 | the loop of `start` as written appends the `TypeError` results in plugin order |
| FrameworkReport.ReportProcessor.CallTemplate | networkguardian/framework/report.py:168-176 | one iteration as written appends exactly one `TypeError` result |
| FrameworkReport.ReportProcessor.StartCorrected | networkguardian/framework/report.py:166-176 | reading the attribute: a plugin's flag is set exactly when its `process` returns, and its data or exception is recorded, in plugin order |
| FrameworkReport.ReportProcessor.AttemptAll | networkguardian/framework/report.py:167-176 | the corrected loop sets the flags of the succeeding plugins and records one result per plugin, in order |
| FrameworkReport.ReportProcessor.Attempt | networkguardian/framework/report.py:168-176 | one corrected iteration: the flag is set only on success, and exactly one result is appended |
| FrameworkReport.ReportProcessor.Complete | networkguardian/framework/report.py:201-208 | one completion sets the plugin's flag before its outcome is looked at, then appends exactly one result |
| FrameworkReport.ReportProcessor.CompleteAll | networkguardian/framework/report.py:200-208 | the `as_completed` loop marks every completed plugin and records the results in completion order |
| FrameworkReport.ReportProcessor.RunPool | networkguardian/framework/report.py:194-210 | after the completions the report is stored once, with the path its generated file name gives in the reports directory, and its index is kept as the report id |
| FrameworkReport.ReportProcessor.Run | networkguardian/framework/report.py:189-210 | an empty plugin set raises `ValueError` from the pool and changes nothing; otherwise every flag is set, the progress is 100, one result per plugin is recorded in completion order, and the report is stored once |
| SrcFrameworkPlugin.DetectCases | src/networkguardian/framework/plugin.py:18-28 | detection accepts exactly "Windows", "Linux" and "Darwin"; every other name, "Mac OS X" included, raises `ValueError` |
| SrcFrameworkPlugin.LoadStep | src/networkguardian/framework/plugin.py:129-151 | `load` records the platform first, then checks the platform, runs `initialize()`, binds the executor and template, checks elevation; `loaded` becomes true exactly on success and is never cleared |
| SrcFrameworkPlugin.NoExecutorIsUnsupported | src/networkguardian/framework/plugin.py:137-141 | a class without executors is reported unsupported with an empty platform list, where the current generation raises `PluginExecutorError`; the two agree on every supported platform |
| SrcFrameworkPlugin.ProcessIn | src/networkguardian/framework/plugin.py:166-170 | unloaded: `PluginProcessingError`; loaded: the executor's data paired with the template, or the executor's exception |
| SrcFrameworkPlugin.AbstractPlugin.Process | src/networkguardian/framework/plugin.py:166-170 | an unloaded plugin refuses with `PluginProcessingError`; a loaded one returns its executor's data paired with its template, or raises what the executor raised |
| SrcFrameworkPlugin.LoadThenProcess | src/networkguardian/framework/plugin.py:166-170 | after a successful load, `process` returns the selected executor's data with that executor's template; before, it is refused |
| SrcFrameworkPlugin.AbstractPlugin.constructor | src/networkguardian/framework/plugin.py:114-123 | identity fields as given, executors from the metaclass, nothing loaded or bound |
| SrcFrameworkPlugin.AbstractPlugin.Load | src/networkguardian/framework/plugin.py:129-151 | state and raised exception exactly those of `LoadStep`; `loading_exception` untouched; coherence preserved |
| SrcFrameworkPlugin.AbstractPlugin.SupportedPlatforms | src/networkguardian/framework/plugin.py:176-178 | the executor dict's keys, each once |
| SrcFrameworkRegistry.UsableAmong | src/networkguardian/framework/registry.py:14-15 | the filter keeps exactly the loaded and supported plugins, and none while no plugin is loaded |
| SrcFrameworkRegistry.UsableAmongInOrder | src/networkguardian/framework/registry.py:14-15 | two selected plugins appear in the result in the order they have in the input |
| SrcFrameworkRegistry.UsableAmongOnce | src/networkguardian/framework/registry.py:14-15 | an input that holds each plugin once gives a result that holds each plugin once |
| SrcFrameworkRegistry.Registry.constructor | src/networkguardian/framework/registry.py:11 | the registry starts empty |
| SrcFrameworkRegistry.Registry.RegisterPlugin | src/networkguardian/framework/registry.py:21-36 | one fresh, unloaded instance stored under `name`, other entries untouched, a re-registered name keeping its position |
| SrcFrameworkRegistry.Registry.UsablePlugins | src/networkguardian/framework/registry.py:14-15 | exactly the loaded and supported plugins, in registry order, each once while every name holds its own instance; none while no plugin is loaded |
| SrcFrameworkRegistry.Registry.LoadPlugins | src/networkguardian/framework/registry.py:63-74 | as written: a failed detection raises and touches nothing; otherwise every plugin keeps its state and records the arity `TypeError`, and no plugin becomes usable |
| SrcFrameworkRegistry.Registry.LoadPluginsCorrected | src/networkguardian/framework/registry.py:63-74 | with both arguments passed, every plugin is loaded once and what its `load` raised is stored |
| SrcFrameworkRegistry.FailEach | src/networkguardian/framework/registry.py:68-74 | the loop as written records the `TypeError` on each distinct plugin and changes nothing else |
| SrcFrameworkRegistry.LoadEach | src/networkguardian/framework/registry.py:68-74 | the corrected loop loads each distinct plugin exactly once |
| SrcFrameworkReport.Report.constructor | src/networkguardian/framework/report.py:40-48 | the report records its name, date, host, platform and version, with path "" and no results |
| SrcFrameworkReport.Report.AddResult | src/networkguardian/framework/report.py:53-54 | exactly one result without exception is appended |
| SrcFrameworkReport.Report.AddException | src/networkguardian/framework/report.py:56-57 | exactly one result carrying only the exception is appended |
| SrcFrameworkReport.Catalog.constructor | src/networkguardian/framework/report.py:14 | the report dict starts empty |
| SrcFrameworkReport.Completion | src/networkguardian/framework/report.py:114-118 | the result holds the data and template `process` returned, or exactly the exception it raised |
| SrcFrameworkReport.CompletionsInOrder | src/networkguardian/framework/report.py:111-118 | one result per completed plugin, in completion order, each belonging to its plugin |
| SrcFrameworkReport.AccruedIsProduct | src/networkguardian/framework/report.py:120 | `k` completions add `k` times the per-plugin share |
| SrcFrameworkReport.SharesSum | src/networkguardian/framework/report.py:103 | the `n` shares of `100 / n` add up to exactly 100 |
| SrcFrameworkReport.FlagAll | src/networkguardian/framework/report.py:89-92 | the constructor's loop flags every given plugin incomplete |
| SrcFrameworkReport.ReportProcessor.constructor | src/networkguardian/framework/report.py:87-96 | every plugin flagged incomplete, progress 0 |
| SrcFrameworkReport.ReportProcessor.Run | src/networkguardian/framework/report.py:98-126 | a failed detection raises `ValueError`; an empty set raises `ZeroDivisionError`; otherwise every flag is set, progress rises by exactly 100, results follow completion order, and the new report replaces any report of the same name |
| SrcFrameworkReport.ReportProcessor.RunPool | src/networkguardian/framework/report.py:105-126 | after the completions every flag is set and the report is stored under the processor's name |
| SrcFrameworkReport.ReportProcessor.CompleteAll | src/networkguardian/framework/report.py:111-120 | the `as_completed` loop marks each plugin, records its result in completion order and adds its share to the progress |
| SrcFrameworkReport.ReportProcessor.Complete | src/networkguardian/framework/report.py:112-120 | one completion sets the flag, appends exactly one result and adds one share |
| SrcExecutor.PluginResult.constructor | src/networkguardian/executor.py:14-18 | the template is taken from the plugin, with no data and no exception |
| SrcExecutor.PluginResult.AddException | src/networkguardian/executor.py:20-21 | sets the exception and leaves the data |
| SrcExecutor.PluginResult.AddData | src/networkguardian/executor.py:23-24 | sets the data and leaves the exception |
| SrcExecutor.FirstEscapeIsFirst | src/networkguardian/executor.py:56-64 | nothing escapes exactly when no plugin raises anything other than `PluginProcessingError`; otherwise the escaping exception is the first such in completion order |
| SrcExecutor.FirstEscapePrefix | src/networkguardian/executor.py:56-64 | once an exception escapes, later completions do not change which one |
| SrcExecutor.ThreadCount | src/networkguardian/executor.py:84-98 | the pool size never exceeds the core count, `max_required` or `max_threads` (whichever apply), and is one of them |
| SrcExecutor.PluginExecutor.constructor | src/networkguardian/executor.py:32-34 | no plugins and no thread ceiling |
| SrcExecutor.PluginExecutor.AddPlugin | src/networkguardian/executor.py:36-37 | exactly one plugin appended |
| SrcExecutor.PluginExecutor.GetThreadCount | src/networkguardian/executor.py:70-98 | the reassignments compute `ThreadCount` with the executor's own ceiling |
| SrcExecutor.PluginExecutor.Process | src/networkguardian/executor.py:39-68 | a pool size of 0 or less raises `ValueError`; otherwise the first uncaught exception in completion order escapes, and if none does there is one fresh result per plugin, in completion order, holding its data or its `PluginProcessingError` |
| SrcExecutor.PluginExecutor.CollectAll | src/networkguardian/executor.py:56-68 | the loop stops at the first escaping exception, otherwise collects one result per completion |
| SrcExecutor.PluginExecutor.Collect | src/networkguardian/executor.py:57-66 | a new result holding the data or the caught `PluginProcessingError`; any other exception escapes |
| SrcPlugin.DetectStr | src/networkguardian/plugin.py:34-54 | detection and `str` are inverse: every member's value is detected as that member, and every accepted name is the value of its member |
| SrcPlugin.BasePlugin.constructor | src/networkguardian/plugin.py:69-81 | identity as given, `required_python_packages` empty whatever is passed, not supported |
| SrcPlugin.BasePlugin.Load | src/networkguardian/plugin.py:87-99 | support is set to platform membership before `initialize()` runs, and stays set when it raises |
| SrcPlugin.BasePlugin.Process | src/networkguardian/plugin.py:124-128 | supported: the executor's result is discarded and only its exception escapes; unsupported: `EnvironmentError` |
| StandardPlugins.StepsCountsPowers | src/networkguardian/standard_plugins.py:133-135 | the loop divides at least `k` times exactly when the input exceeds `1024 ** k` |
| StandardPlugins.LabelExistsBelowPeta | src/networkguardian/standard_plugins.py:132-137 | the label lookup succeeds exactly when the input is at most `1024 ** 5` |
| StandardPlugins.Scale | src/networkguardian/standard_plugins.py:133-135 | the loop divides `Steps` times; what is left is at most 1024 and times `1024 ** n` gives back the input |
| StandardPlugins.FormatBytes | src/networkguardian/standard_plugins.py:123-137 | inputs up to 1024 come back unchanged as "B"; otherwise the value scaled into (0, 1024] with its label; `KeyError(n)` exactly above `1024 ** 5` |
| StandardPlugins.FourGigabytes | src/networkguardian/standard_plugins.py:125-127 | the documented example: 4294967296 bytes are 4 GB |
| SrcReport.Report.constructor | src/networkguardian/report.py:25-30 | system name, date and version as given, no results |
| SrcReport.Report.AddResult | src/networkguardian/report.py:44-45 | exactly one result appended at the end, nothing else changed |
| EarlyPlugin.Detect | networkguardian/plugin.py:21-34 | "Windows", "Linux" and "Darwin" map to their members; every other name raises `NotImplementedError` |
| EarlyPlugin.TupleValue | networkguardian/plugin.py:17-19 | the trailing commas make each member value a 1-tuple holding the member's display name, and no two members hold the same name, so none is an alias |
| EarlyPlugin.StrDetect | networkguardian/plugin.py:36-44 | `str` shows Windows and Linux by the names detection accepts, but macOS as "Mac OS X", which detection rejects |
| EarlyPlugin.PluginManager.constructor | networkguardian/plugin.py:47-50 | the plugin list starts empty |
| EarlyPlugin.BasePlugin.constructor | networkguardian/plugin.py:55-63 | identity as given, not supported |
| EarlyPlugin.BasePlugin.Load | networkguardian/plugin.py:69-80 | support is set to platform membership before `initialize()` runs |
| ThreadCountUtil.MaxRequiredIsDead | prototyping/thread_count_util.py:28-36 | as written, `max_required` has no effect: the result is at most the ceiling and the core count, and at most 0 when the ceiling is |
| ThreadCountUtil.TwoJobsOnEightCores | prototyping/thread_count_util.py:31-33 | eight cores, two jobs, ceiling 4: as written 4 threads, where the intended rule gives 2 |
| ThreadCountUtil.GetThreadCount | prototyping/thread_count_util.py:13-38 | the function as written, whose only effect of `max_required` is a `TypeError` for the class `int` itself |
| ThreadCountUtil.GetThreadCountCorrected | prototyping/thread_count_util.py:13-38 | with `isinstance`: the result never exceeds the core count, the job count or the ceiling |

## Left out

- Threads and thread pools: each `as_completed` loop is a sequential loop over a completion order that may be any permutation of the plugins. Interleavings, locking and `Thread.start` are not modelled.
- Floating point: progress and `format_bytes` are computed over exact reals. The rounding of `100 / n` and of very large byte counts is not modelled.
- Input and output:
  - reading template files (the template is its text);
  - the file writes of `export_report`, and `import_report`, `load_reports` and `Report.store` (the path `export_report` returns is modelled with the POSIX `os.path.join`);
  - logging and `print`.
- Jinja rendering: every `render` method is left out. The filename template is plain concatenation, because it is fixed and not escaped.
- The environment: `platform.system()`, `platform.node()`, `datetime.now()`, `multiprocessing.cpu_count()` and `is_elevated()` are parameters. `import_external_plugins`, `start_report` and its random id, and the GUI are not part of this model.
- Plugin code: what `initialize()` raises and what an executor returns or raises are parameters. `initializeRaises` is fixed per class, so every load of every instance of a class sees the same `initialize()` outcome, where the source runs the plugin's code afresh on each call. The concrete probes in `standard_plugins.py` are not part of this model, and neither is the `.2f` formatting around `format_bytes`.
- FrameworkReport.JoinPath: models only the POSIX `os.path.join`. On Windows `ntpath.join` separates with a backslash (`C:\Users\u\reports` and a report name give `C:\Users\u\reports\<name>`, where the model records `C:\Users\u\reports/<name>`), and a rooted name keeps the directory's drive. The paths `StoreReport`, `RunPool` and `Run` record are therefore the POSIX ones.
- FrameworkReport.ReportProcessor.constructor: takes the detected platform as an argument. The `ValueError` that `Report.__init__` raises through `SystemPlatform.detect()` on an unknown system is not modelled there.
- FrameworkReport.ReportProcessor.Run: requires at least one core, as `cpu_count()` reports. An empty plugin set is refused by the pool's `ValueError`.
- SrcFrameworkReport.ReportProcessor.Run: requires at least one core, for the same reason.
- SrcPlugin.BasePlugin.Process: states only that the `EnvironmentError` message starts with "Running platform is not supported by ". The plugin's `repr` that follows is not modelled.
- EarlyPlugin.Detect: takes one system name. The source asks `platform.system()` up to three times, and the model assumes every call gives the same answer.
- ThreadCountUtil.GetThreadCount: the `TypeError` message is CPython's wording for comparing a type with an int.
- SrcExecutor.PluginExecutor.Process: once an exception escapes, the model does not capture that the pool still waits for the remaining futures. The results gathered until then are dropped, as in the source.
- Error messages of enum lookups: they follow CPython's `"'x' is not a valid Enum"` wording.
- `__repr__` and the `template`/`execute` abstract members are not modelled. `ExamplePlugin` and the `__main__` demo of `networkguardian/plugin.py` are not part of this model.
- The `max_threads` global of `src/networkguardian/framework/registry.py:18` is never read by the code, so the model has no such field.

## Findings

| source | as written | input that shows it | evidently intended | confidence | as-written member | corrected member |
|---|---|---|---|---|---|---|
| networkguardian/framework/report.py:169 | `start` calls `plugin.template()`, but `template` holds the template text or `None`, so the call raises `TypeError` for every plugin; no plugin is processed and no flag is set | any plugin, loaded or not | read the attribute, as `ThreadedReportProcessor.run` does at line 204 | high, not executed | FrameworkReport.ReportProcessor.Start | FrameworkReport.ReportProcessor.StartCorrected |
| src/networkguardian/framework/registry.py:70 | `load_plugins` calls `plugin.load(running_platform)`, but `load` also takes `running_elevated`, so every plugin records a `TypeError` and none is ever usable | any registered plugin on a recognised platform | pass the elevation status too, as the later generation does | high, not executed | SrcFrameworkRegistry.Registry.LoadPlugins | SrcFrameworkRegistry.Registry.LoadPluginsCorrected |
| prototyping/thread_count_util.py:31 | `max_required is int` compares the argument with the class `int`, so a job count never lowers the pool size | 8 cores, `max_required=2`, ceiling 4: 4 threads | `isinstance(max_required, int)`, as in src/networkguardian/executor.py:89 | high, not executed | ThreadCountUtil.TwoJobsOnEightCores | ThreadCountUtil.GetThreadCountCorrected |
