/** src/networkguardian/framework/report.py: results, reports, the report catalog and the
    threaded report processor of the earlier framework generation. The thread pool of
    `ReportProcessor.run` is modelled by the order in which the futures complete. */
module SrcFrameworkReport {
  import opened Exceptions
  import opened PyDict
  import opened Tagging
  import opened SrcFrameworkPlugin
  import FrameworkRegistry
  import FrameworkReport

  /** A `Result`: the plugin, and the data and template or the exception, stored as given. */
  datatype ReportResult = ReportResult(plugin: AbstractPlugin, data: Data, exception: Option<Error>, template: Option<string>)

  /** A scan report. `Report.__init__` reads the clock, the host name, the detected platform and
      the application version; here they are the constructor's arguments. */
  class Report {
    const date: string
    const name: string
    const systemName: string
    const systemPlatform: SystemPlatform
    const softwareVersion: string

    var path: string
    var results: seq<ReportResult>

    constructor(name: string, date: string, systemName: string, systemPlatform: SystemPlatform, softwareVersion: string)
      ensures this.name == name && this.date == date && this.systemName == systemName
      ensures this.systemPlatform == systemPlatform && this.softwareVersion == softwareVersion
      ensures path == "" && results == []
    {
      this.name := name;
      this.date := date;
      this.systemName := systemName;
      this.systemPlatform := systemPlatform;
      this.softwareVersion := softwareVersion;
      path := "";
      results := [];
    }

    /** `add_result(plugin, data, template)`: one result without exception, at the end. */
    method AddResult(plugin: AbstractPlugin, data: Data, template: Option<string>)
      modifies this
      ensures results == old(results) + [ReportResult(plugin, data, None, template)]
      ensures path == old(path)
    {
      results := results + [ReportResult(plugin, data, None, template)];
    }

    /** `add_exception(plugin, exception)`: one result carrying only the exception, at the end. */
    method AddException(plugin: AbstractPlugin, exception: Error)
      modifies this
      ensures results == old(results) + [ReportResult(plugin, None, Some(exception), None)]
      ensures path == old(path)
    {
      results := results + [ReportResult(plugin, None, Some(exception), None)];
    }
  }

  /** The module-level `reports` dict, report name to report. */
  class Catalog {
    var reports: Dict<string, Report>

    constructor()
      ensures reports == Empty()
    {
      reports := Empty();
    }
  }

  /** The result recorded for a plugin once its `process()` has returned or raised: the data and
      the template it returned, or the exception it raised. */
  function Completion(plugin: AbstractPlugin, invoke: Handle -> Result<Data>): (r: ReportResult)
    reads plugin
    ensures r.plugin == plugin
    ensures r.exception.Some? <==> plugin.Process(invoke).Raise?
    ensures plugin.Process(invoke).Ok? ==> (r.data, r.template) == plugin.Process(invoke).value
    ensures plugin.Process(invoke).Raise? ==> r.exception == Some(plugin.Process(invoke).error) && r.data.None? && r.template.None?
  {
    match plugin.Process(invoke)
    case Ok(pair) => ReportResult(plugin, pair.0, None, pair.1)
    case Raise(e) => ReportResult(plugin, None, Some(e), None)
  }

  /** The results of `ps`, completed in that order. */
  function Completions(ps: seq<AbstractPlugin>, invoke: Handle -> Result<Data>): seq<ReportResult>
    reads ps
    decreases |ps|
  {
    if ps == [] then [] else Completions(ps[..|ps| - 1], invoke) + [Completion(ps[|ps| - 1], invoke)]
  }

  /** One result per plugin, in completion order, each belonging to its plugin. */
  lemma {:induction false} CompletionsInOrder(ps: seq<AbstractPlugin>, invoke: Handle -> Result<Data>)
    ensures |Completions(ps, invoke)| == |ps|
    ensures forall i :: 0 <= i < |ps| ==> Completions(ps, invoke)[i] == Completion(ps[i], invoke)
    ensures forall i :: 0 <= i < |ps| ==> Completions(ps, invoke)[i].plugin == ps[i]
    decreases |ps|
  {
    if ps != [] {
      var init := ps[..|ps| - 1];
      CompletionsInOrder(init, invoke);
      var rs := Completions(ps, invoke);
      assert rs == Completions(init, invoke) + [Completion(ps[|ps| - 1], invoke)];
      forall i | 0 <= i < |init| ensures rs[i] == Completion(ps[i], invoke) {
        assert rs[i] == Completions(init, invoke)[i] && init[i] == ps[i];
      }
    }
  }

  /** The progress `k` completions add, each adding `worth`. */
  function Accrued(k: nat, worth: real): real {
    if k == 0 then 0.0 else Accrued(k - 1, worth) + worth
  }

  /** `k` completions add `k * worth`. */
  lemma {:induction false} AccruedIsProduct(k: nat, worth: real)
    ensures Accrued(k, worth) == k as real * worth
  {
    if k > 0 {
      AccruedIsProduct(k - 1, worth);
      assert (k - 1) as real * worth + worth == k as real * worth;
    }
  }

  /** The `n` shares of `100 / n` add exactly 100. */
  lemma SharesSum(n: nat)
    requires n > 0
    ensures Accrued(n, 100.0 / n as real) == 100.0
  {
    AccruedIsProduct(n, 100.0 / n as real);
    FrameworkReport.Percentage(n, n, n);
  }

  /** The constructor's loop `self.plugins[plugin] = False` over `plugins`. */
  method FlagAll(plugins: seq<AbstractPlugin>) returns (flags: Dict<AbstractPlugin, bool>)
    ensures flags == FromKeys(plugins, false)
  {
    flags := Empty();
    var i := 0;
    while i < |plugins|
      invariant 0 <= i <= |plugins|
      invariant flags == FromKeys(plugins[..i], false)
    {
      assert plugins[..i + 1][..i] == plugins[..i] && plugins[..i + 1][i] == plugins[i];
      flags := Set(flags, plugins[i], false);
      i := i + 1;
    }
    assert plugins[..i] == plugins;
  }

  /** A `ReportProcessor` thread. */
  class ReportProcessor {
    const reportName: string
    /** The completion flag of each plugin. */
    var plugins: Dict<AbstractPlugin, bool>
    var progress: real

    /** `ReportProcessor(report_name, plugins)`: every plugin flagged incomplete, in the order
        given, a repeated plugin absorbed where it first occurred; progress 0. */
    constructor(reportName: string, plugins: seq<AbstractPlugin>)
      ensures this.reportName == reportName && this.plugins == FromKeys(plugins, false) && progress == 0.0
    {
      var flags := FlagAll(plugins);
      this.reportName := reportName;
      this.plugins := flags;
      progress := 0.0;
    }

    /** `run()` on a machine with `cpuCount` cores whose `platform.system()` reports `system`, the
        report's date, host name and application version given, and the futures completing in
        `order`, a permutation of the plugins. Creating the report detects the platform, whose
        `ValueError` propagates; an empty processor then fails on `100 / plugin_count`; otherwise
        every plugin is flagged complete, its result recorded in completion order, the progress
        raised by 100, and the report stored in the catalog under the processor's name. */
    method Run(order: seq<AbstractPlugin>, invoke: Handle -> Result<Data>, catalog: Catalog,
               system: string, date: string, node: string, softwareVersion: string, cpuCount: int)
      returns (raised: Option<Error>)
      requires cpuCount >= 1
      requires multiset(order) == multiset(plugins.keys)
      modifies this, catalog
      ensures Detect(system).Raise? ==> raised == Some(Detect(system).error) && unchanged(this, catalog)
      ensures Detect(system).Ok? && |old(plugins.keys)| == 0 ==>
                raised == Some(ZeroDivisionError("division by zero")) && unchanged(this, catalog)
      ensures raised.None? <==> Detect(system).Ok? && |old(plugins.keys)| > 0
      ensures raised.None? ==> plugins.keys == old(plugins.keys)
      ensures raised.None? ==> forall i :: 0 <= i < |plugins.keys| ==> plugins.items[plugins.keys[i]]
      ensures raised.None? ==> progress == old(progress) + 100.0
      ensures raised.None? ==> reportName in catalog.reports.items
      ensures raised.None? ==>
                var report := catalog.reports.items[reportName];
                && fresh(report)
                && catalog.reports == Set(old(catalog.reports), reportName, report)
                && report.name == reportName && report.date == date && report.systemName == node
                && report.systemPlatform == Detect(system).value && report.softwareVersion == softwareVersion
                && report.path == ""
                && report.results == old(Completions(order, invoke))
    {
      var pluginCount := |plugins.keys|;
      var threadCount := FrameworkRegistry.GetThreadCount(cpuCount, Some(pluginCount));
      var platform := Detect(system);
      if platform.Raise? {
        return Some(platform.error);
      }
      var report := new Report(reportName, date, node, platform.value, softwareVersion);
      if pluginCount == 0 {
        return Some(ZeroDivisionError("division by zero"));
      }
      var worth := 100.0 / pluginCount as real;
      assert threadCount >= 1;
      assert |order| == pluginCount by {
        assert |multiset(order)| == |multiset(plugins.keys)|;
      }
      SharesSum(pluginCount);
      RunPool(report, order, invoke, catalog, worth);
      raised := None;
    }

    /** The pool's work once the report exists: every future completed, then the report stored
        under the processor's name. */
    method RunPool(report: Report, order: seq<AbstractPlugin>, invoke: Handle -> Result<Data>, catalog: Catalog, worth: real)
      requires multiset(order) == multiset(plugins.keys)
      modifies this, report, catalog
      ensures plugins.keys == old(plugins.keys)
      ensures forall i :: 0 <= i < |plugins.keys| ==> plugins.items[plugins.keys[i]]
      ensures progress == old(progress) + Accrued(|order|, worth)
      ensures report.results == old(report.results) + old(Completions(order, invoke))
      ensures report.path == old(report.path)
      ensures catalog.reports == Set(old(catalog.reports), reportName, report)
    {
      FrameworkReport.MarkPermutation(plugins, order);
      CompleteAll(report, order, invoke, worth);
      catalog.reports := Set(catalog.reports, reportName, report);
    }

    /** The `as_completed` loop over the futures completing in `order`. */
    method CompleteAll(report: Report, order: seq<AbstractPlugin>, invoke: Handle -> Result<Data>, worth: real)
      modifies this, report
      ensures plugins == FrameworkReport.MarkAll(old(plugins), order)
      ensures progress == old(progress) + Accrued(|order|, worth)
      ensures report.results == old(report.results) + old(Completions(order, invoke))
      ensures report.path == old(report.path)
    {
      var i := 0;
      while i < |order|
        invariant 0 <= i <= |order|
        invariant plugins == FrameworkReport.MarkAll(old(plugins), order[..i])
        invariant progress == old(progress) + Accrued(i, worth)
        invariant report.results == old(report.results) + old(Completions(order[..i], invoke))
        invariant report.path == old(report.path)
      {
        assert order[..i + 1][..i] == order[..i] && order[..i + 1][i] == order[i];
        assert old(Completions(order[..i + 1], invoke)) == old(Completions(order[..i], invoke)) + [old(Completion(order[i], invoke))];
        Complete(report, order[i], invoke, worth);
        assert Completion(order[i], invoke) == old(Completion(order[i], invoke));
        i := i + 1;
      }
      assert order[..i] == order;
    }

    /** The loop body for one completed future: the flag set, the result recorded, the progress
        raised by the plugin's share. */
    method Complete(report: Report, plugin: AbstractPlugin, invoke: Handle -> Result<Data>, worth: real)
      modifies this, report
      ensures plugins == Set(old(plugins), plugin, true)
      ensures progress == old(progress) + worth
      ensures report.results == old(report.results) + [Completion(plugin, invoke)]
      ensures report.path == old(report.path)
    {
      plugins := Set(plugins, plugin, true);
      match plugin.Process(invoke) {
        case Ok(pair) =>
          report.AddResult(plugin, pair.0, pair.1);
        case Raise(e) =>
          report.AddException(plugin, e);
      }
      progress := progress + worth;
    }
  }
}
