/** src/networkguardian/framework/plugin.py: the earlier generation of the plugin framework. Its
    decorator, metaclass and load state are those of networkguardian/framework/plugin.py; it
    differs in the macOS member value ("Darwin"), in detection (no renaming), in `load` (no
    check for a class without executors) and in `process` (which returns the template with the
    data). */
module SrcFrameworkPlugin {
  import opened Exceptions
  import opened PyDict
  import opened Strings
  import opened Tagging
  import FrameworkPlugin

  /** `SystemPlatform.detect()`, given the name `platform.system()` reports: the member whose
      value is that name. */
  function Detect(system: string): Result<SystemPlatform> {
    Lookup(system, DarwinValue, "SystemPlatform")
  }

  /** Exactly the three names "Windows", "Linux" and "Darwin" are recognised; every other name,
      "Mac OS X" among them (the value the later generation gives macOS), raises `ValueError`. */
  lemma DetectCases(system: string)
    ensures Detect(system) == Ok(Windows) <==> system == "Windows"
    ensures Detect(system) == Ok(Linux) <==> system == "Linux"
    ensures Detect(system) == Ok(MacOS) <==> system == "Darwin"
    ensures Detect(system).Raise? <==> system != "Windows" && system != "Linux" && system != "Darwin"
  {
    assert |"Windows"| == 7 && |"Linux"| == 5 && |"Darwin"| == 6;
  }

  /** The message of the unsupported-platform error, listing the supported platforms by value. */
  function UnsupportedMessage(platforms: seq<SystemPlatform>): string {
    "Plugin is only supported on " + ValuesJoined(platforms, DarwinValue)
  }

  /** `AbstractPlugin.load(running_platform, running_elevated)`: the platform is recorded first;
      then the platform check, `initialize()`, the executor selection and the elevation check
      run in that order; `loaded` is set only when all pass, and never cleared. */
  function LoadStep(executors: Dict<SystemPlatform, Handle>, initializeRaises: Option<Error>, s: FrameworkPlugin.LoadState,
                    p: SystemPlatform, elevated: bool): (r: FrameworkPlugin.LoadOutcome)
    ensures r.state.runningPlatform == Some(p)
    ensures FrameworkPlugin.SupportedIn(executors, r.state) <==> p in executors.items
    ensures r.state.loaded == (s.loaded || r.raised.None?)
    ensures p !in executors.items ==>
              r.raised == Some(PluginUnsupportedPlatformError(UnsupportedMessage(executors.keys)))
    ensures p in executors.items && initializeRaises.Some? ==> r.raised == initializeRaises
    ensures p in executors.items && initializeRaises.None? ==>
              r.raised == if executors.items[p].tag.requiresElevation && !elevated
                          then Some(PluginRequiresElevationError(FrameworkPlugin.ElevationMessage)) else None
    ensures p !in executors.items || initializeRaises.Some? ==>
              r.state.execute == s.execute && r.state.template == s.template
    ensures p in executors.items && initializeRaises.None? ==>
              r.state.execute == Some(executors.items[p]) && r.state.template == Some(executors.items[p].tag.template)
    ensures FrameworkPlugin.Coherent(executors, s) ==> FrameworkPlugin.Coherent(executors, r.state)
  {
    var s := s.(runningPlatform := Some(p));
    if p !in executors.items then FrameworkPlugin.LoadOutcome(s, Some(PluginUnsupportedPlatformError(UnsupportedMessage(executors.keys))))
    else if initializeRaises.Some? then FrameworkPlugin.LoadOutcome(s, initializeRaises)
    else
      var h := executors.items[p];
      var s := s.(execute := Some(h), template := Some(h.tag.template));
      if h.tag.requiresElevation && !elevated then FrameworkPlugin.LoadOutcome(s, Some(PluginRequiresElevationError(FrameworkPlugin.ElevationMessage)))
      else FrameworkPlugin.LoadOutcome(s.(loaded := true), None)
  }

  /** A class without any executor is reported as unsupported on every platform, with an empty
      platform list, where the later generation raises `PluginExecutorError`; both generations
      agree on every class that has an executor. */
  lemma NoExecutorIsUnsupported(executors: Dict<SystemPlatform, Handle>, initializeRaises: Option<Error>, s: FrameworkPlugin.LoadState,
                                p: SystemPlatform, elevated: bool)
    ensures |executors.keys| == 0 ==>
              LoadStep(executors, initializeRaises, s, p, elevated).raised ==
              Some(PluginUnsupportedPlatformError("Plugin is only supported on "))
    ensures |executors.keys| == 0 ==>
              FrameworkPlugin.LoadStep(executors, initializeRaises, s, p, elevated).raised ==
              Some(PluginExecutorError(FrameworkPlugin.NoExecutorMessage))
    ensures |executors.keys| > 0 && p in executors.items ==>
              LoadStep(executors, initializeRaises, s, p, elevated) == FrameworkPlugin.LoadStep(executors, initializeRaises, s, p, elevated)
  {
    if |executors.keys| == 0 {
      assert executors.keys == [];
      var parts := seq(|executors.keys|, i requires 0 <= i < |executors.keys| => DarwinValue(executors.keys[i]));
      assert parts == [];
      assert Join(", ", parts) == "";
      assert UnsupportedMessage(executors.keys) == "Plugin is only supported on " + "" == "Plugin is only supported on ";
    }
  }

  /** `process()` in a given state: refused unless loaded, otherwise the data the bound executor
      returns paired with the template, or what the executor raises. */
  function ProcessIn(s: FrameworkPlugin.LoadState, invoke: Handle -> Result<Data>): (r: Result<(Data, Option<string>)>)
    ensures !s.loaded ==> r == Raise(PluginProcessingError(FrameworkPlugin.NotLoadedMessage))
    ensures s.loaded && s.execute.Some? ==>
              (r.Ok? <==> invoke(s.execute.value).Ok?) &&
              (r.Ok? ==> r.value == (invoke(s.execute.value).value, s.template)) &&
              (r.Raise? ==> r.error == invoke(s.execute.value).error)
  {
    if !s.loaded then Raise(PluginProcessingError(FrameworkPlugin.NotLoadedMessage))
    else match s.execute
      case Some(h) => (match invoke(h) case Ok(data) => Ok((data, s.template)) case Raise(e) => Raise(e))
      case None => Raise(TypeError(NoneNotCallable))
  }

  /** A successful load makes `process` return what the selected executor returns, together with
      that executor's template; before any successful load `process` is refused. */
  lemma LoadThenProcess(executors: Dict<SystemPlatform, Handle>, initializeRaises: Option<Error>, s: FrameworkPlugin.LoadState,
                        p: SystemPlatform, elevated: bool, invoke: Handle -> Result<Data>)
    ensures var r := LoadStep(executors, initializeRaises, s, p, elevated);
            r.raised.None? ==>
              p in executors.items &&
              var h := executors.items[p];
              ProcessIn(r.state, invoke) == (if invoke(h).Ok? then Ok((invoke(h).value, Some(h.tag.template))) else Raise(invoke(h).error))
    ensures var r := LoadStep(executors, initializeRaises, s, p, elevated);
            !s.loaded && r.raised.Some? ==> ProcessIn(r.state, invoke) == Raise(PluginProcessingError(FrameworkPlugin.NotLoadedMessage))
  {
  }

  /** A plugin instance of the earlier generation. */
  class AbstractPlugin {
    const name: string
    const category: PluginCategory
    const author: string
    const version: real
    const description: string
    const executors: Dict<SystemPlatform, Handle>
    const initializeRaises: Option<Error>

    var loadingException: Option<Error>
    var runningPlatform: Option<SystemPlatform>
    var execute: Option<Handle>
    var template: Option<string>
    var loaded: bool

    function State(): FrameworkPlugin.LoadState
      reads this
    {
      FrameworkPlugin.LoadState(runningPlatform, execute, template, loaded)
    }

    ghost predicate Valid()
      reads this
    {
      FrameworkPlugin.Coherent(executors, State())
    }

    /** `cls(name, category, author, version)` for a plugin class `cls`. */
    constructor(cls: PluginClass, name: string, category: PluginCategory, author: string, version: real)
      ensures Valid()
      ensures this.name == name && this.category == category && this.author == author && this.version == version
      ensures description == Description(cls.doc)
      ensures executors == ExecutorsOf(cls.attrs) && initializeRaises == cls.initializeRaises
      ensures loadingException == None && State() == FrameworkPlugin.LoadState(None, None, None, false)
    {
      this.name := name;
      this.category := category;
      this.author := author;
      this.version := version;
      description := Description(cls.doc);
      executors := ExecutorsOf(cls.attrs);
      initializeRaises := cls.initializeRaises;
      loadingException := None;
      loaded := false;
      runningPlatform := None;
      execute := None;
      template := None;
    }

    /** `load(running_platform, running_elevated)`; the exception it raises is returned. */
    method Load(runningPlatform: SystemPlatform, runningElevated: bool) returns (raised: Option<Error>)
      modifies this
      ensures old(Valid()) ==> Valid()
      ensures FrameworkPlugin.LoadOutcome(State(), raised) == LoadStep(executors, initializeRaises, old(State()), runningPlatform, runningElevated)
      ensures loadingException == old(loadingException)
    {
      this.runningPlatform := Some(runningPlatform);
      if !Supported() {
        return Some(PluginUnsupportedPlatformError(UnsupportedMessage(SupportedPlatforms())));
      }
      if initializeRaises.Some? {
        return initializeRaises;
      }
      execute := Some(executors.items[runningPlatform]);
      template := Some(execute.value.tag.template);
      if execute.value.tag.requiresElevation && !runningElevated {
        return Some(PluginRequiresElevationError(FrameworkPlugin.ElevationMessage));
      }
      loaded := true;
      return None;
    }

    /** The `supported` property. */
    function Supported(): bool
      reads this
    {
      FrameworkPlugin.SupportedIn(executors, State())
    }

    /** The `supported_platforms` property: the keys of `_executors`, each once. */
    function SupportedPlatforms(): (ps: seq<SystemPlatform>)
      ensures forall p :: p in ps <==> p in executors.items
      ensures Distinct(ps)
    {
      executors.keys
    }

    /** `process()`: refused before a successful load, otherwise the pair
        `(execute(self), template)`, or what the executor raised. */
    function Process(invoke: Handle -> Result<Data>): (r: Result<(Data, Option<string>)>)
      reads this
      ensures !loaded ==> r == Raise(PluginProcessingError(FrameworkPlugin.NotLoadedMessage))
      ensures loaded && execute.Some? && invoke(execute.value).Ok? ==> r == Ok((invoke(execute.value).value, template))
      ensures loaded && execute.Some? && invoke(execute.value).Raise? ==> r == Raise(invoke(execute.value).error)
    {
      ProcessIn(State(), invoke)
    }
  }
}
