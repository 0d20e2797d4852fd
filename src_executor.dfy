/** src/networkguardian/executor.py: the prototype `PluginExecutor`, which runs the selected
    plugins' `execute` in a thread pool and collects one `PluginResult` per plugin. The pool is
    modelled by the order in which the futures complete. */
module SrcExecutor {
  import opened Exceptions
  import opened SrcPlugin
  import FrameworkReport

  /** A `PluginResult`: the plugin and its template, then the data or the exception. */
  class PluginResult {
    const plugin: BasePlugin
    const template: string
    var data: Data
    var exception: Option<Error>

    constructor(plugin: BasePlugin)
      ensures this.plugin == plugin && template == plugin.template
      ensures data.None? && exception.None?
    {
      this.plugin := plugin;
      template := plugin.template;
      data := None;
      exception := None;
    }

    /** `add_exception(exception)`: sets the exception and nothing else. */
    method AddException(exception: Error)
      modifies this
      ensures this.exception == Some(exception) && data == old(data)
    {
      this.exception := Some(exception);
    }

    /** `add_data(data)`: sets the data and nothing else. */
    method AddData(data: Data)
      modifies this
      ensures this.data == data && exception == old(exception)
    {
      this.data := data;
    }
  }

  /** An outcome of `future.result()` that the `except PluginProcessingError` clause does not
      catch. */
  predicate Escapes(r: Result<Data>) {
    r.Raise? && !r.error.PluginProcessingError?
  }

  /** What a collected result holds for an outcome that does not escape: the returned data, or
      the caught `PluginProcessingError` with no data. */
  predicate Recorded(result: PluginResult, plugin: BasePlugin, outcome: Result<Data>)
    reads result
  {
    && result.plugin == plugin && result.template == plugin.template
    && (outcome.Ok? ==> result.data == outcome.value && result.exception.None?)
    && (outcome.Raise? ==> result.data.None? && result.exception == Some(outcome.error))
  }

  /** The exception that leaves `process` when the futures complete in `order`: the first
      outcome, in completion order, that is not caught. */
  function FirstEscape(order: seq<BasePlugin>, execute: BasePlugin -> Result<Data>): Option<Error>
    decreases |order|
  {
    if order == [] then None
    else
      var prior := FirstEscape(order[..|order| - 1], execute);
      var last := execute(order[|order| - 1]);
      if prior.Some? then prior else if Escapes(last) then Some(last.error) else None
  }

  /** Nothing escapes exactly when no plugin raises anything but `PluginProcessingError`; what
      escapes is the exception of the first plugin in completion order that raises another one. */
  lemma {:induction false} FirstEscapeIsFirst(order: seq<BasePlugin>, execute: BasePlugin -> Result<Data>)
    ensures FirstEscape(order, execute).None? <==> forall i :: 0 <= i < |order| ==> !Escapes(execute(order[i]))
    ensures FirstEscape(order, execute).Some? ==>
              exists i :: 0 <= i < |order| && Escapes(execute(order[i])) &&
                FirstEscape(order, execute) == Some(execute(order[i]).error) &&
                forall j :: 0 <= j < i ==> !Escapes(execute(order[j]))
    decreases |order|
  {
    if order != [] {
      var init := order[..|order| - 1];
      FirstEscapeIsFirst(init, execute);
      assert forall i :: 0 <= i < |init| ==> init[i] == order[i];
      if FirstEscape(init, execute).Some? {
        var i :| 0 <= i < |init| && Escapes(execute(init[i])) &&
                 FirstEscape(init, execute) == Some(execute(init[i]).error) &&
                 forall j :: 0 <= j < i ==> !Escapes(execute(init[j]));
        assert Escapes(execute(order[i]));
      }
    }
  }

  /** The pool size: the core count, lowered to the number of jobs when given and smaller, then
      lowered to the user's ceiling when set and smaller. */
  function ThreadCount(cpuCount: int, maxRequired: Option<int>, maxThreads: Option<int>): (r: int)
    ensures r <= cpuCount
    ensures maxRequired.Some? ==> r <= maxRequired.value
    ensures maxThreads.Some? ==> r <= maxThreads.value
    ensures r == cpuCount || (maxRequired.Some? && r == maxRequired.value) || (maxThreads.Some? && r == maxThreads.value)
  {
    var bound := if maxRequired.Some? && maxRequired.value < cpuCount then maxRequired.value else cpuCount;
    if maxThreads.Some? && maxThreads.value < bound then maxThreads.value else bound
  }

  class PluginExecutor {
    var plugins: seq<BasePlugin>
    var maxThreads: Option<int>

    constructor()
      ensures plugins == [] && maxThreads.None?
    {
      plugins := [];
      maxThreads := None;
    }

    /** `add_plugin(plugin)`: exactly one plugin, at the end. */
    method AddPlugin(plugin: BasePlugin)
      modifies this
      ensures plugins == old(plugins) + [plugin] && maxThreads == old(maxThreads)
    {
      plugins := plugins + [plugin];
    }

    /** `get_thread_count(max_required)` with `multiprocessing.cpu_count()` given as `cpuCount`. */
    method GetThreadCount(cpuCount: int, maxRequired: Option<int> := None) returns (threadCount: int)
      ensures threadCount == ThreadCount(cpuCount, maxRequired, maxThreads)
    {
      threadCount := cpuCount;
      if maxRequired.Some? {
        if maxRequired.value < threadCount {
          threadCount := maxRequired.value;
        }
      }
      if maxThreads.Some? {
        if threadCount > maxThreads.value {
          threadCount := maxThreads.value;
        }
      }
    }

    /** `process(selected_plugins)` on a machine with `cpuCount` cores, each plugin's `execute()`
        given by `execute` and the futures completing in `order`, a permutation of the selection.
        A pool size of 0 or less makes the pool constructor raise `ValueError`, as it does for an
        empty selection; otherwise the first exception in completion order that is not a
        `PluginProcessingError` propagates; otherwise there is one fresh result per plugin, in
        completion order, holding its data or its caught exception. The exception is returned. */
    method Process(selected: seq<BasePlugin>, order: seq<BasePlugin>, execute: BasePlugin -> Result<Data>, cpuCount: int)
      returns (raised: Option<Error>, results: seq<PluginResult>)
      requires multiset(order) == multiset(selected)
      ensures ThreadCount(cpuCount, Some(|selected|), maxThreads) <= 0 ==>
                raised == Some(ValueError(FrameworkReport.MaxWorkersMessage)) && results == []
      ensures ThreadCount(cpuCount, Some(|selected|), maxThreads) > 0 ==> raised == FirstEscape(order, execute)
      ensures raised.None? ==> |results| == |order|
      ensures raised.None? ==> forall i :: 0 <= i < |results| ==> fresh(results[i]) && Recorded(results[i], order[i], execute(order[i]))
    {
      var threadCount := GetThreadCount(cpuCount, Some(|selected|));
      if threadCount <= 0 {
        return Some(ValueError(FrameworkReport.MaxWorkersMessage)), [];
      }
      raised, results := CollectAll(order, execute);
    }

    /** The `as_completed` loop over the futures completing in `order`. */
    method CollectAll(order: seq<BasePlugin>, execute: BasePlugin -> Result<Data>) returns (raised: Option<Error>, results: seq<PluginResult>)
      ensures raised == FirstEscape(order, execute)
      ensures raised.None? ==> |results| == |order|
      ensures raised.None? ==> forall i :: 0 <= i < |results| ==> fresh(results[i]) && Recorded(results[i], order[i], execute(order[i]))
    {
      results := [];
      var i := 0;
      while i < |order|
        invariant 0 <= i <= |order| && |results| == i
        invariant FirstEscape(order[..i], execute).None?
        invariant forall j :: 0 <= j < i ==> fresh(results[j]) && Recorded(results[j], order[j], execute(order[j]))
      {
        assert order[..i + 1][..i] == order[..i] && order[..i + 1][i] == order[i];
        var escaped, result := Collect(order[i], execute);
        if escaped.Some? {
          assert FirstEscape(order[..i + 1], execute) == escaped;
          FirstEscapePrefix(order, execute, i + 1);
          return escaped, [];
        }
        results := results + [result];
        i := i + 1;
      }
      assert order[..i] == order;
      raised := None;
    }

    /** The loop body for one completed future: a new result holding the data, or the caught
        `PluginProcessingError`; any other exception escapes. */
    method Collect(plugin: BasePlugin, execute: BasePlugin -> Result<Data>) returns (escaped: Option<Error>, result: PluginResult)
      ensures fresh(result)
      ensures escaped.Some? <==> Escapes(execute(plugin))
      ensures escaped.Some? ==> escaped == Some(execute(plugin).error)
      ensures escaped.None? ==> Recorded(result, plugin, execute(plugin))
    {
      result := new PluginResult(plugin);
      escaped := None;
      match execute(plugin) {
        case Ok(data) =>
          result.AddData(data);
        case Raise(e) =>
          if e.PluginProcessingError? {
            result.AddException(e);
          } else {
            escaped := Some(e);
          }
      }
    }
  }

  /** Once an exception escapes from a prefix of the completion order, it is the one that
      escapes from the whole order. */
  lemma {:induction false} FirstEscapePrefix(order: seq<BasePlugin>, execute: BasePlugin -> Result<Data>, k: nat)
    requires k <= |order|
    requires FirstEscape(order[..k], execute).Some?
    ensures FirstEscape(order, execute) == FirstEscape(order[..k], execute)
    decreases |order| - k
  {
    if k < |order| {
      assert order[..k + 1][..k] == order[..k];
      assert FirstEscape(order[..k + 1], execute) == FirstEscape(order[..k], execute);
      FirstEscapePrefix(order, execute, k + 1);
    } else {
      assert order[..k] == order;
    }
  }
}
