/** networkguardian/framework/report.py: plugin results, reports, the report catalog, and the
    processors that run a set of plugins into a report. The thread pool of
    `ThreadedReportProcessor.run` is modelled by the order in which the futures complete. */
module FrameworkReport {
  import opened Exceptions
  import opened PyDict
  import opened Tagging
  import opened FrameworkPlugin
  import opened FrameworkRegistry

  const ReportExtension := "rng"
  const NoTemplateMessage := "No plugin template was found"
  const NoDataMessage := "Plugin returned no data to render"
  /** What `ThreadPoolExecutor(max_workers=n)` raises for `n <= 0`. */
  const MaxWorkersMessage := "max_workers must be greater than 0"

  /** A `PluginResult`: the plugin's identity, and what running it produced. */
  datatype PluginResult = PluginResult(name: string, category: PluginCategory, author: string, version: real,
                                       description: string, data: Data, exception: Option<Error>,
                                       template: Option<string>)

  /** `PluginResult(plugin, data, exception, template)`. A supplied exception is kept as it is;
      without one, a missing template and then missing data each stand in for an exception, the
      second overriding the first. */
  function NewPluginResult(plugin: AbstractPlugin, data: Data := None, exception: Option<Error> := None,
                           template: Option<string> := None): (r: PluginResult)
    ensures r.name == plugin.name && r.category == plugin.category && r.author == plugin.author
    ensures r.version == plugin.version && r.description == plugin.description
    ensures r.data == data && r.template == template
    ensures exception.Some? ==> r.exception == exception
    ensures exception.None? ==> (r.exception.None? <==> data.Some? && template.Some?)
    ensures exception.None? && data.None? ==> r.exception == Some(PluginProcessingError(NoDataMessage))
    ensures exception.None? && data.Some? && template.None? ==> r.exception == Some(PluginProcessingError(NoTemplateMessage))
  {
    var e := exception;
    var e := if e.None? && template.None? then Some(PluginProcessingError(NoTemplateMessage)) else e;
    var e := if exception.None? && data.None? then Some(PluginProcessingError(NoDataMessage)) else e;
    PluginResult(plugin.name, plugin.category, plugin.author, plugin.version, plugin.description, data, e, template)
  }

  /** A scan report. `Report.__init__` reads the clock, the host name and the detected platform;
      here they are the constructor's arguments. */
  class Report {
    const date: string
    const name: string
    const systemName: string
    const systemPlatform: SystemPlatform
    const softwareVersion: string

    var results: seq<PluginResult>
    var path: Option<string>

    constructor(name: string, date: string, systemName: string, systemPlatform: SystemPlatform, softwareVersion: string)
      ensures this.name == name && this.date == date && this.systemName == systemName
      ensures this.systemPlatform == systemPlatform && this.softwareVersion == softwareVersion
      ensures results == [] && path == None
    {
      this.name := name;
      this.date := date;
      this.systemName := systemName;
      this.systemPlatform := systemPlatform;
      this.softwareVersion := softwareVersion;
      results := [];
      path := None;
    }

    /** `add_result(plugin, data, template)`: exactly one result, at the end. */
    method AddResult(plugin: AbstractPlugin, data: Data, template: Option<string>)
      modifies this
      ensures results == old(results) + [NewPluginResult(plugin, data, None, template)]
      ensures path == old(path)
    {
      results := results + [NewPluginResult(plugin, data := data, template := template)];
    }

    /** `add_exception(plugin, exception)`: exactly one result, at the end, carrying the exception. */
    method AddException(plugin: AbstractPlugin, exception: Error)
      modifies this
      ensures results == old(results) + [NewPluginResult(plugin, None, Some(exception), None)]
      ensures path == old(path)
    {
      results := results + [NewPluginResult(plugin, exception := Some(exception))];
    }
  }

  /** The module-level `reports` list. */
  class Catalog {
    var reports: seq<Report>

    constructor()
      ensures reports == []
    {
      reports := [];
    }

    /** `store_report(report)`, with the configured `reports_directory` given as
        `reportsDirectory`: `export_report` names the file by `generate_report_filename` inside
        that directory (the write itself is left out); the report is appended, remembers that
        path, and the returned index finds it. */
    method StoreReport(report: Report, reportsDirectory: string) returns (index: int)
      modifies this, report
      ensures reports == old(reports) + [report]
      ensures index == |reports| - 1 && reports[index] == report
      ensures report.path == Some(JoinPath(reportsDirectory, GenerateReportFilename(report)))
      ensures report.results == old(report.results)
    {
      var exportPath := JoinPath(reportsDirectory, GenerateReportFilename(report));
      reports := reports + [report];
      report.path := Some(exportPath);
      return |reports| - 1;
    }
  }

  /** The rendered `report_filename_template`, with the platform shown by its value. */
  function FilenameStem(report: Report): string {
    report.name + " (" + report.systemName + " - " + Value(report.systemPlatform) + ") " + report.date
  }

  /** `generate_report_filename(report, append_extension)`: the stem, followed by "." and the
      extension when the extension is a non-empty string. */
  function GenerateReportFilename(report: Report, appendExtension: Option<string> := Some(ReportExtension)): (r: string)
    ensures |r| >= |FilenameStem(report)| && r[..|FilenameStem(report)|] == FilenameStem(report)
    ensures appendExtension.Some? && appendExtension.value != "" ==>
              r == FilenameStem(report) + "." + appendExtension.value
    ensures appendExtension.None? || appendExtension.value == "" ==> r == FilenameStem(report)
  {
    if appendExtension.Some? && appendExtension.value != "" then FilenameStem(report) + "." + appendExtension.value
    else FilenameStem(report)
  }

  /** `str.endswith` */
  predicate EndsWith(s: string, suffix: string) {
    |suffix| <= |s| && s[|s| - |suffix|..] == suffix
  }

  /** `os.path.join(directory, name)` with the POSIX separator: a name that starts with "/"
      replaces the directory; otherwise a "/" is put between them unless the directory is empty
      or already ends with one. */
  function JoinPath(directory: string, name: string): (r: string)
    ensures EndsWith(r, name)
    ensures |name| > 0 && name[0] == '/' ==> r == name
    ensures !(|name| > 0 && name[0] == '/') ==> |directory| <= |r| && r[..|directory|] == directory
  {
    if |name| > 0 && name[0] == '/' then name
    else if directory == [] || directory[|directory| - 1] == '/' then directory + name
    else directory + "/" + name
  }

  /** A report exported under its default file name is found again by `load_reports`, which
      keeps the files that end with the report extension; the path `store_report` records ends
      with that name. */
  lemma ExportedNameIsLoadable(report: Report, reportsDirectory: string)
    ensures EndsWith(GenerateReportFilename(report), ReportExtension)
    ensures EndsWith(GenerateReportFilename(report), "." + ReportExtension)
    ensures EndsWith(JoinPath(reportsDirectory, GenerateReportFilename(report)), "." + ReportExtension)
  {
    var r := GenerateReportFilename(report);
    assert r[|r| - 4..] == "." + ReportExtension;
    assert r[|r| - 3..] == ReportExtension;
    var path := JoinPath(reportsDirectory, r);
    assert path[|path| - 4..] == r[|r| - 4..] by {
      assert path[|path| - |r|..] == r;
    }
  }

  /** The number of `True` values. */
  function CountTrue(bs: seq<bool>): (n: nat)
    ensures n <= |bs|
    decreases |bs|
  {
    if bs == [] then 0 else (if bs[|bs| - 1] then 1 else 0) + CountTrue(bs[..|bs| - 1])
  }

  /** All values are `True` exactly when all are counted, and none is exactly when none is. */
  lemma {:induction false} CountTrueExtremes(bs: seq<bool>)
    ensures CountTrue(bs) == |bs| <==> forall i :: 0 <= i < |bs| ==> bs[i]
    ensures CountTrue(bs) == 0 <==> forall i :: 0 <= i < |bs| ==> !bs[i]
    decreases |bs|
  {
    if bs != [] {
      var init := bs[..|bs| - 1];
      CountTrueExtremes(init);
      assert forall i :: 0 <= i < |init| ==> init[i] == bs[i];
    }
  }

  /** Turning values to `True` never lowers the count. */
  lemma {:induction false} CountTrueMonotone(a: seq<bool>, b: seq<bool>)
    requires |a| == |b| && forall i :: 0 <= i < |a| && a[i] ==> b[i]
    ensures CountTrue(a) <= CountTrue(b)
    decreases |a|
  {
    if a != [] {
      CountTrueMonotone(a[..|a| - 1], b[..|b| - 1]);
    }
  }

  /** `c * (100 / n)`, in exact arithmetic. */
  function Percent(c: nat, n: nat): real
    requires n > 0
  {
    c as real * (100.0 / n as real)
  }

  /** `c * (100 / n)` for `0 <= c <= n` lies between 0 and 100, and reaches each bound exactly
      at `c == 0` and `c == n`; it grows with `c`. */
  lemma Percentage(c: nat, d: nat, n: nat)
    requires 0 < n && c <= d <= n
    ensures 0.0 <= Percent(c, n) <= Percent(d, n) <= 100.0
    ensures Percent(c, n) == 100.0 <==> c == n
    ensures Percent(c, n) == 0.0 <==> c == 0
  {
    var q := 100.0 / n as real;
    assert q * n as real == 100.0;
    assert q > 0.0;
    assert (d as real - c as real) * q >= 0.0;
    assert (n as real - d as real) * q >= 0.0;
    if c < n {
      assert (n as real - c as real) * q > 0.0;
    }
    if c > 0 {
      assert c as real * q > 0.0;
    }
  }

  /** The `progress` property over the completion flags: the number of set flags times
      `100 / len(plugins)`, which raises `ZeroDivisionError` for an empty set. */
  function ProgressOf<K>(flags: Dict<K, bool>): (r: Result<real>)
    ensures r.Raise? <==> |flags.keys| == 0
    ensures r.Raise? ==> r.error == ZeroDivisionError("division by zero")
  {
    var n := |flags.keys|;
    if n == 0 then Raise(ZeroDivisionError("division by zero"))
    else Ok(Percent(CountTrue(Values(flags)), n))
  }

  /** The progress lies between 0 and 100; it is 100 exactly when every flag is set and 0
      exactly when none is. */
  lemma ProgressBounds<K>(flags: Dict<K, bool>)
    requires |flags.keys| > 0
    ensures 0.0 <= ProgressOf(flags).value <= 100.0
    ensures ProgressOf(flags).value == 100.0 <==> forall i :: 0 <= i < |flags.keys| ==> flags.items[flags.keys[i]]
    ensures ProgressOf(flags).value == 0.0 <==> forall i :: 0 <= i < |flags.keys| ==> !flags.items[flags.keys[i]]
  {
    var n, c := |flags.keys|, CountTrue(Values(flags));
    Percentage(c, c, n);
    CountTrueExtremes(Values(flags));
  }

  /** Once every flag is set the progress is exactly 100. */
  lemma ProgressComplete<K>(flags: Dict<K, bool>)
    requires |flags.keys| > 0
    requires forall i :: 0 <= i < |flags.keys| ==> flags.items[flags.keys[i]]
    ensures ProgressOf(flags) == Ok(100.0)
  {
    ProgressBounds(flags);
  }

  /** Over the same plugins, setting more flags never lowers the progress. */
  lemma ProgressGrows<K>(flags: Dict<K, bool>, more: Dict<K, bool>)
    requires |flags.keys| > 0 && |more.keys| == |flags.keys|
    requires forall i :: 0 <= i < |flags.keys| && Values(flags)[i] ==> Values(more)[i]
    ensures ProgressOf(flags).value <= ProgressOf(more).value
  {
    var n, c, d := |flags.keys|, CountTrue(Values(flags)), CountTrue(Values(more));
    CountTrueMonotone(Values(flags), Values(more));
    Percentage(c, d, n);
  }

  /** Marking a plugin complete never lowers the progress. */
  lemma ProgressMonotone<K>(flags: Dict<K, bool>, plugin: K)
    requires plugin in flags.items
    ensures ProgressOf(Set(flags, plugin, true)).Ok? && ProgressOf(flags).Ok?
    ensures ProgressOf(flags).value <= ProgressOf(Set(flags, plugin, true)).value
  {
    var after := Set(flags, plugin, true);
    SetPlacement(flags, plugin, true);
    assert forall i :: 0 <= i < |flags.keys| && Values(flags)[i] ==> Values(after)[i];
    ProgressGrows(flags, after);
  }

  /** The error calling a plugin's `template` attribute raises: it holds a string, or `None`
      before a successful executor selection. */
  function NotCallable(template: Option<string>): Error {
    TypeError(if template.None? then NoneNotCallable else StrNotCallable)
  }

  /** The result recorded for a plugin once its `process()` has returned or raised: the data and
      the plugin's template, or the exception. */
  function Completion(plugin: AbstractPlugin, invoke: Handle -> Result<Data>): (r: PluginResult)
    reads plugin
    ensures r.name == plugin.name
    ensures plugin.Process(invoke).Ok? ==>
              r.data == plugin.Process(invoke).value && r.template == plugin.template &&
              (r.exception.None? <==> r.data.Some? && plugin.template.Some?)
    ensures plugin.Process(invoke).Raise? ==> r.exception == Some(plugin.Process(invoke).error)
  {
    match plugin.Process(invoke)
    case Ok(data) => NewPluginResult(plugin, data, None, plugin.template)
    case Raise(e) => NewPluginResult(plugin, None, Some(e), None)
  }

  /** The results of `ps`, completed in that order. */
  function Completions(ps: seq<AbstractPlugin>, invoke: Handle -> Result<Data>): seq<PluginResult>
    reads ps
    decreases |ps|
  {
    if ps == [] then [] else Completions(ps[..|ps| - 1], invoke) + [Completion(ps[|ps| - 1], invoke)]
  }

  /** One result per plugin, in completion order. */
  lemma {:induction false} CompletionsInOrder(ps: seq<AbstractPlugin>, invoke: Handle -> Result<Data>)
    ensures |Completions(ps, invoke)| == |ps|
    ensures forall i :: 0 <= i < |ps| ==> Completions(ps, invoke)[i] == Completion(ps[i], invoke)
    decreases |ps|
  {
    if ps != [] {
      var init := ps[..|ps| - 1];
      CompletionsInOrder(init, invoke);
      var rs := Completions(ps, invoke);
      assert rs == Completions(init, invoke) + [Completion(ps[|ps| - 1], invoke)];
      forall i | 0 <= i < |init| ensures rs[i] == Completion(ps[i], invoke) {
        assert rs[i] == Completions(init, invoke)[i] && init[i] == ps[i];
      }
    }
  }

  /** The result `start()` records as written for one plugin: calling the `template` attribute
      raises `TypeError` before `process()` is reached. */
  function NotCallableResult(p: AbstractPlugin): (r: PluginResult)
    reads p
    ensures r.name == p.name && r.data.None? && r.exception == Some(NotCallable(p.template))
  {
    PluginResult(p.name, p.category, p.author, p.version, p.description, None, Some(NotCallable(p.template)), None)
  }

  /** The results `start()` records as written for the plugins `ps`, in order. */
  function NotCallableResults(ps: seq<AbstractPlugin>): seq<PluginResult>
    reads ps
    decreases |ps|
  {
    if ps == [] then [] else NotCallableResults(ps[..|ps| - 1]) + [NotCallableResult(ps[|ps| - 1])]
  }

  /** The flags after each plugin of `ps`, in order, is marked complete. */
  function MarkAll<K>(flags: Dict<K, bool>, ps: seq<K>): Dict<K, bool>
    decreases |ps|
  {
    if ps == [] then flags else Set(MarkAll(flags, ps[..|ps| - 1]), ps[|ps| - 1], true)
  }

  /** Marking plugins that all have a flag keeps the plugins and their order, and sets exactly the
      flags of the marked plugins. */
  lemma {:induction false} MarkAllFlags<K>(flags: Dict<K, bool>, ps: seq<K>)
    requires forall i :: 0 <= i < |ps| ==> ps[i] in flags.items
    ensures MarkAll(flags, ps).keys == flags.keys
    ensures forall i :: 0 <= i < |flags.keys| ==>
              MarkAll(flags, ps).items[flags.keys[i]] == (flags.items[flags.keys[i]] || flags.keys[i] in ps)
    decreases |ps|
  {
    if ps != [] {
      var init := ps[..|ps| - 1];
      MarkAllFlags(flags, init);
      SetPlacement(MarkAll(flags, init), ps[|ps| - 1], true);
      assert ps == init + [ps[|ps| - 1]];
    }
  }

  /** Marking every plugin once, in any order, keeps the plugins and their order and sets every
      flag, so the progress reaches 100. */
  lemma MarkPermutation<K>(flags: Dict<K, bool>, order: seq<K>)
    requires multiset(order) == multiset(flags.keys)
    ensures MarkAll(flags, order).keys == flags.keys
    ensures forall i :: 0 <= i < |flags.keys| ==> MarkAll(flags, order).items[flags.keys[i]]
    ensures |flags.keys| > 0 ==> ProgressOf(MarkAll(flags, order)) == Ok(100.0)
  {
    forall i | 0 <= i < |order| ensures order[i] in flags.items {
      assert order[i] in multiset(order);
    }
    MarkAllFlags(flags, order);
    forall i | 0 <= i < |flags.keys| ensures flags.keys[i] in order {
      assert flags.keys[i] in multiset(flags.keys);
    }
    if |flags.keys| > 0 {
      ProgressComplete(MarkAll(flags, order));
    }
  }

  /** The flags after the plugins of `ps` are processed in order, each marked complete when its
      `process()` returns. */
  function MarkSucceeded(flags: Dict<AbstractPlugin, bool>, ps: seq<AbstractPlugin>, invoke: Handle -> Result<Data>): Dict<AbstractPlugin, bool>
    reads ps
    decreases |ps|
  {
    if ps == [] then flags
    else
      var rest := MarkSucceeded(flags, ps[..|ps| - 1], invoke);
      var p := ps[|ps| - 1];
      if p.Process(invoke).Ok? then Set(rest, p, true) else rest
  }

  /** Processing plugins that all have a flag keeps the plugins and their order, and sets exactly
      the flags of the processed plugins whose `process()` returns. */
  lemma {:induction false} MarkSucceededFlags(flags: Dict<AbstractPlugin, bool>, ps: seq<AbstractPlugin>, invoke: Handle -> Result<Data>)
    requires forall i :: 0 <= i < |ps| ==> ps[i] in flags.items
    ensures MarkSucceeded(flags, ps, invoke).keys == flags.keys
    ensures forall i :: 0 <= i < |flags.keys| ==>
              MarkSucceeded(flags, ps, invoke).items[flags.keys[i]] ==
              (flags.items[flags.keys[i]] || (flags.keys[i] in ps && flags.keys[i].Process(invoke).Ok?))
    decreases |ps|
  {
    if ps != [] {
      var init := ps[..|ps| - 1];
      MarkSucceededFlags(flags, init, invoke);
      SetPlacement(MarkSucceeded(flags, init, invoke), ps[|ps| - 1], true);
      assert ps == init + [ps[|ps| - 1]];
    }
  }

  /** The `i`-th result `start()` records as written belongs to the `i`-th plugin. */
  lemma {:induction false} NotCallableResultAt(ps: seq<AbstractPlugin>, i: int)
    requires 0 <= i < |ps|
    ensures |NotCallableResults(ps)| == |ps|
    ensures NotCallableResults(ps)[i] == NotCallableResult(ps[i])
    decreases |ps|
  {
    var init := ps[..|ps| - 1];
    if i < |init| {
      NotCallableResultAt(init, i);
    } else if init != [] {
      NotCallableResultAt(init, 0);
    }
  }

  /** As written, `start()` records one result per plugin, in order, each carrying the
      `TypeError` of the call, and no data. */
  lemma NotCallableResultsAt(ps: seq<AbstractPlugin>)
    ensures |NotCallableResults(ps)| == |ps|
    ensures forall i :: 0 <= i < |ps| ==> NotCallableResults(ps)[i] == NotCallableResult(ps[i])
  {
    if ps != [] {
      NotCallableResultAt(ps, 0);
      forall i | 0 <= i < |ps| ensures NotCallableResults(ps)[i] == NotCallableResult(ps[i]) {
        NotCallableResultAt(ps, i);
      }
    }
  }

  /** `ReportProcessor`, together with the `run` of its threaded subclass. */
  class ReportProcessor {
    const report: Report
    /** Each plugin to its completion flag, in the order the plugins were given. */
    var plugins: Dict<AbstractPlugin, bool>
    var reportId: Option<int>

    /** `ReportProcessor(report_name, plugins)`, with the report's clock, host and platform
        readings as arguments. */
    constructor(reportName: string, plugins: seq<AbstractPlugin>, date: string, systemName: string,
                systemPlatform: SystemPlatform, softwareVersion: string)
      ensures fresh(report) && report.name == reportName && report.date == date
      ensures report.systemName == systemName && report.systemPlatform == systemPlatform
      ensures report.results == [] && report.path == None
      ensures this.plugins == FromKeys(plugins, false) && reportId == None
    {
      report := new Report(reportName, date, systemName, systemPlatform, softwareVersion);
      this.plugins := FromKeys(plugins, false);
      reportId := None;
    }

    /** The `progress` property. */
    function Progress(): Result<real>
      reads this
    {
      ProgressOf(plugins)
    }

    /** `start()` as written: `plugin.template()` calls the template text (or `None`), which
        raises `TypeError` for every plugin; so every plugin gets an exception result, no flag is
        ever set, and `process()` never runs. */
    method Start()
      modifies report
      ensures report.results == old(report.results) + NotCallableResults(plugins.keys)
      ensures report.path == old(report.path)
    {
      CallTemplates(plugins.keys);
    }

    /** The loop of `start()` as written, over the plugins `ps` in order. */
    method CallTemplates(ps: seq<AbstractPlugin>)
      modifies report
      ensures report.results == old(report.results) + NotCallableResults(ps)
      ensures report.path == old(report.path)
    {
      var i := 0;
      while i < |ps|
        invariant 0 <= i <= |ps|
        invariant report.path == old(report.path)
        invariant report.results == old(report.results) + old(NotCallableResults(ps[..i]))
      {
        assert ps[..i + 1][..i] == ps[..i] && ps[..i + 1][i] == ps[i];
        assert old(NotCallableResults(ps[..i + 1])) == old(NotCallableResults(ps[..i])) + [old(NotCallableResult(ps[i]))];
        CallTemplate(ps[i]);
        assert NotCallableResult(ps[i]) == old(NotCallableResult(ps[i]));
        i := i + 1;
      }
      assert ps[..i] == ps;
    }

    /** One iteration of `start()` as written: `plugin.template()` raises, and the exception is
        recorded. */
    method CallTemplate(plugin: AbstractPlugin)
      modifies report
      ensures report.results == old(report.results) + [NotCallableResult(plugin)]
      ensures report.path == old(report.path)
    {
      report.AddException(plugin, NotCallable(plugin.template));
    }

    /** `start()` reading the `template` attribute instead of calling it, as `run` does: each
        plugin is processed in order; its flag is set when `process()` returns, and its result
        records the data or the exception. */
    method StartCorrected(invoke: Handle -> Result<Data>)
      modifies this, report
      ensures plugins.keys == old(plugins.keys) && reportId == old(reportId)
      ensures forall i :: 0 <= i < |plugins.keys| ==>
                plugins.items[plugins.keys[i]] == (old(plugins.items[plugins.keys[i]]) || plugins.keys[i].Process(invoke).Ok?)
      ensures report.results == old(report.results) + Completions(plugins.keys, invoke)
      ensures report.path == old(report.path)
    {
      ghost var flags := plugins;
      MarkSucceededFlags(flags, flags.keys, invoke);
      AttemptAll(plugins.keys, invoke);
    }

    /** The loop of the corrected `start()` over the plugins `ps`, in order. */
    method AttemptAll(ps: seq<AbstractPlugin>, invoke: Handle -> Result<Data>)
      modifies this, report
      ensures plugins == MarkSucceeded(old(plugins), ps, invoke)
      ensures report.results == old(report.results) + Completions(ps, invoke)
      ensures reportId == old(reportId) && report.path == old(report.path)
    {
      var i := 0;
      while i < |ps|
        invariant 0 <= i <= |ps|
        invariant plugins == old(MarkSucceeded(plugins, ps[..i], invoke))
        invariant reportId == old(reportId) && report.path == old(report.path)
        invariant report.results == old(report.results) + old(Completions(ps[..i], invoke))
      {
        assert ps[..i + 1][..i] == ps[..i] && ps[..i + 1][i] == ps[i];
        assert old(Completions(ps[..i + 1], invoke)) == old(Completions(ps[..i], invoke)) + [old(Completion(ps[i], invoke))];
        Attempt(ps[i], invoke);
        assert Completion(ps[i], invoke) == old(Completion(ps[i], invoke));
        assert ps[i].Process(invoke) == old(ps[i].Process(invoke));
        i := i + 1;
      }
      assert ps[..i] == ps;
    }

    /** One iteration of the corrected `start()`: the plugin's flag is set only when `process()`
        returns, and its result records the data and the template, or the exception. */
    method Attempt(plugin: AbstractPlugin, invoke: Handle -> Result<Data>)
      modifies this, report
      ensures plugins == if plugin.Process(invoke).Ok? then Set(old(plugins), plugin, true) else old(plugins)
      ensures report.results == old(report.results) + [Completion(plugin, invoke)]
      ensures reportId == old(reportId) && report.path == old(report.path)
    {
      var template := plugin.template;
      var outcome := plugin.Process(invoke);
      match outcome {
        case Ok(data) =>
          plugins := Set(plugins, plugin, true);
          report.AddResult(plugin, data, template);
        case Raise(e) =>
          report.AddException(plugin, e);
      }
    }

    /** The completion of one future in `run`: the plugin's flag is set before its result is
        looked at; then the data and the template, or the exception, are recorded. */
    method Complete(plugin: AbstractPlugin, invoke: Handle -> Result<Data>)
      modifies this, report
      ensures plugins == Set(old(plugins), plugin, true)
      ensures report.results == old(report.results) + [Completion(plugin, invoke)]
      ensures reportId == old(reportId) && report.path == old(report.path)
    {
      plugins := Set(plugins, plugin, true);
      var template := plugin.template;
      var outcome := plugin.Process(invoke);
      match outcome {
        case Ok(data) => report.AddResult(plugin, data, template);
        case Raise(e) => report.AddException(plugin, e);
      }
    }

    /** The futures of `run` completing in the order `order`. */
    method CompleteAll(order: seq<AbstractPlugin>, invoke: Handle -> Result<Data>)
      modifies this, report
      ensures plugins == MarkAll(old(plugins), order)
      ensures report.results == old(report.results) + Completions(order, invoke)
      ensures reportId == old(reportId) && report.path == old(report.path)
    {
      var i := 0;
      while i < |order|
        invariant 0 <= i <= |order|
        invariant plugins == MarkAll(old(plugins), order[..i])
        invariant reportId == old(reportId) && report.path == old(report.path)
        invariant report.results == old(report.results) + old(Completions(order[..i], invoke))
      {
        assert order[..i + 1][..i] == order[..i] && order[..i + 1][i] == order[i];
        assert old(Completions(order[..i + 1], invoke)) == old(Completions(order[..i], invoke)) + [old(Completion(order[i], invoke))];
        Complete(order[i], invoke);
        assert Completion(order[i], invoke) == old(Completion(order[i], invoke));
        i := i + 1;
      }
      assert order[..i] == order;
    }

    /** The part of `run` after the pool is created: the futures complete in the order `order`,
        a permutation of the plugins; then the report is stored and its index kept. */
    method RunPool(order: seq<AbstractPlugin>, invoke: Handle -> Result<Data>, catalog: Catalog, reportsDirectory: string)
      requires multiset(order) == multiset(plugins.keys)
      modifies this, report, catalog
      ensures plugins == MarkAll(old(plugins), order)
      ensures report.results == old(report.results) + Completions(order, invoke)
      ensures catalog.reports == old(catalog.reports) + [report]
      ensures report.path == Some(JoinPath(reportsDirectory, GenerateReportFilename(report)))
      ensures reportId == Some(|catalog.reports| - 1)
    {
      CompleteAll(order, invoke);
      var index := catalog.StoreReport(report, reportsDirectory);
      reportId := Some(index);
    }

    /** `ThreadedReportProcessor.run()`, with `cpu_count()` given as `cpuCount` and the futures
        completing in the order `order`, a permutation of the plugins. An empty plugin set sizes
        the pool at 0 workers, which the pool refuses. Otherwise every completion sets its flag
        and appends one result; the report is then stored and its index kept, with the progress
        at 100. */
    method Run(order: seq<AbstractPlugin>, invoke: Handle -> Result<Data>, catalog: Catalog, reportsDirectory: string,
               cpuCount: int) returns (raised: Option<Error>)
      requires cpuCount >= 1
      requires multiset(order) == multiset(plugins.keys)
      modifies this, report, catalog
      ensures |old(plugins.keys)| == 0 <==> raised.Some?
      ensures raised.Some? ==> raised == Some(ValueError(MaxWorkersMessage)) && unchanged(this, report, catalog)
      ensures raised.None? ==> plugins.keys == old(plugins.keys)
      ensures raised.None? ==> forall i :: 0 <= i < |plugins.keys| ==> plugins.items[plugins.keys[i]]
      ensures raised.None? ==> report.results == old(report.results) + Completions(order, invoke)
      ensures raised.None? ==> catalog.reports == old(catalog.reports) + [report]
      ensures raised.None? ==> report.path == Some(JoinPath(reportsDirectory, GenerateReportFilename(report)))
      ensures raised.None? ==> reportId == Some(|catalog.reports| - 1)
      ensures raised.None? ==> Progress() == Ok(100.0)
    {
      var pluginCount := |plugins.keys|;
      var threadCount := GetThreadCount(cpuCount, Some(pluginCount));
      if threadCount <= 0 {
        return Some(ValueError(MaxWorkersMessage));
      }
      MarkPermutation(plugins, order);
      RunPool(order, invoke, catalog, reportsDirectory);
      raised := None;
    }
  }
}
