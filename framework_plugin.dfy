/** networkguardian/framework/plugin.py: platform detection and the plugin load state machine
    of the current framework generation. */
module FrameworkPlugin {
  import opened Exceptions
  import opened PyDict
  import opened Strings
  import opened Tagging

  /** `SystemPlatform.detect()`, given the name `platform.system()` reports: every "Darwin" in it
      is replaced by "Mac OS X" and the result is looked up among the member values. */
  function Detect(system: string): Result<SystemPlatform> {
    Lookup(ReplaceAll(system, "Darwin", "Mac OS X"), Value, "SystemPlatform")
  }

  /** What replacing "Darwin" by "Mac OS X" does to a system name: "Darwin" itself becomes
      "Mac OS X"; any other name containing "Darwin" becomes longer than every member value; a
      name without it is left as it is. */
  lemma {:induction false} ReplaceDarwin(system: string)
    ensures var r := ReplaceAll(system, "Darwin", "Mac OS X");
            if system == "Darwin" then r == "Mac OS X"
            else if Occurs(system, "Darwin") then |r| > 8 && system != "Windows" && system != "Mac OS X"
            else r == system
  {
    if Occurs(system, "Darwin") {
      var i :| OccursAt(system, "Darwin", i);
      ReplaceGrows(system, "Darwin", "Mac OS X");
      if |system| == 6 {
        assert i == 0 && system == system[0..6];
      } else {
        assert system[i] == system[i..i + 6][0] == 'D';
        assert 'D' !in "Windows" && 'D' !in "Mac OS X";
      }
    } else {
      ReplaceWithoutOccurrence(system, "Darwin", "Mac OS X");
      assert !OccursAt(system, "Darwin", 0);
    }
  }

  /** Exactly four system names are recognised, "Darwin" and "Mac OS X" both meaning macOS;
      every other name raises `ValueError`. */
  lemma DetectCases(system: string)
    ensures Detect(system) == Ok(Windows) <==> system == "Windows"
    ensures Detect(system) == Ok(Linux) <==> system == "Linux"
    ensures Detect(system) == Ok(MacOS) <==> system == "Darwin" || system == "Mac OS X"
    ensures Detect(system).Raise? <==> system !in {"Windows", "Linux", "Darwin", "Mac OS X"}
  {
    ReplaceDarwin(system);
  }

  /** The message of the unsupported-platform error: the supported platforms' values joined by ", ". */
  function UnsupportedMessage(platforms: seq<SystemPlatform>): string {
    "Plugin is only supported on " + ValuesJoined(platforms, Value)
  }

  const NoExecutorMessage := "No executor found within class"
  const ElevationMessage := "Plugin requires elevated system permissions to run"
  const NotLoadedMessage := "Plugin must be loaded before processing."

  /** The four instance attributes `load` writes. */
  datatype LoadState = LoadState(runningPlatform: Option<SystemPlatform>, execute: Option<Handle>, template: Option<string>, loaded: bool)

  /** The state after a call to `load`, and what it raised. */
  datatype LoadOutcome = LoadOutcome(state: LoadState, raised: Option<Error>)

  /** `execute` and `template` always come from the same executor of the class, and the plugin is
      loaded only once an executor is bound. */
  predicate Coherent(executors: Dict<SystemPlatform, Handle>, s: LoadState) {
    && (s.execute.None? <==> s.template.None?)
    && (s.execute.Some? ==> s.template == Some(s.execute.value.tag.template) && s.execute.value in executors.items.Values)
    && (s.loaded ==> s.execute.Some?)
  }

  /** The `supported` property: the recorded platform is a key of `_executors`. */
  function SupportedIn(executors: Dict<SystemPlatform, Handle>, s: LoadState): bool {
    s.runningPlatform.Some? && s.runningPlatform.value in executors.items
  }

  /** `AbstractPlugin.load(running_platform, running_elevated)` on a plugin of a class whose
      metaclass built `executors` and whose `initialize()` raises `initializeRaises`: the
      platform is recorded first; then the checks run in a fixed order (no executor at all, no
      executor for the platform, `initialize()`, elevation); only the elevation check runs after
      `execute` and `template` are bound; `loaded` is set only when all pass, and never cleared. */
  function LoadStep(executors: Dict<SystemPlatform, Handle>, initializeRaises: Option<Error>, s: LoadState,
                    p: SystemPlatform, elevated: bool): (r: LoadOutcome)
    ensures r.state.runningPlatform == Some(p)
    ensures SupportedIn(executors, r.state) <==> p in executors.items
    ensures r.state.loaded == (s.loaded || r.raised.None?)
    ensures |executors.keys| == 0 ==> r.raised == Some(PluginExecutorError(NoExecutorMessage))
    ensures |executors.keys| > 0 && p !in executors.items ==>
              r.raised == Some(PluginUnsupportedPlatformError(UnsupportedMessage(executors.keys)))
    ensures p in executors.items && initializeRaises.Some? ==> r.raised == initializeRaises
    ensures p in executors.items && initializeRaises.None? ==>
              r.raised == if executors.items[p].tag.requiresElevation && !elevated
                          then Some(PluginRequiresElevationError(ElevationMessage)) else None
    ensures p !in executors.items || initializeRaises.Some? ==>
              r.state.execute == s.execute && r.state.template == s.template
    ensures p in executors.items && initializeRaises.None? ==>
              r.state.execute == Some(executors.items[p]) && r.state.template == Some(executors.items[p].tag.template)
    ensures Coherent(executors, s) ==> Coherent(executors, r.state)
  {
    var s := s.(runningPlatform := Some(p));
    if |executors.keys| == 0 then LoadOutcome(s, Some(PluginExecutorError(NoExecutorMessage)))
    else if p !in executors.items then LoadOutcome(s, Some(PluginUnsupportedPlatformError(UnsupportedMessage(executors.keys))))
    else if initializeRaises.Some? then LoadOutcome(s, initializeRaises)
    else
      var h := executors.items[p];
      var s := s.(execute := Some(h), template := Some(h.tag.template));
      if h.tag.requiresElevation && !elevated then LoadOutcome(s, Some(PluginRequiresElevationError(ElevationMessage)))
      else LoadOutcome(s.(loaded := true), None)
  }

  /** `process()` in a given state: refused unless loaded, otherwise whatever the bound executor
      returns or raises when invoked. */
  function ProcessIn(s: LoadState, invoke: Handle -> Result<Data>): (r: Result<Data>)
    ensures !s.loaded ==> r == Raise(PluginProcessingError(NotLoadedMessage))
    ensures s.loaded && s.execute.Some? ==> r == invoke(s.execute.value)
    ensures s.loaded && s.execute.None? ==> r == Raise(TypeError(NoneNotCallable))
  {
    if !s.loaded then Raise(PluginProcessingError(NotLoadedMessage))
    else match s.execute
      case Some(h) => invoke(h)
      case None => Raise(TypeError(NoneNotCallable))
  }

  /** A successful load makes `process` run the executor the class maps the platform to; while no
      load has succeeded, `process` is refused with `PluginProcessingError`. */
  lemma LoadThenProcess(executors: Dict<SystemPlatform, Handle>, initializeRaises: Option<Error>, s: LoadState,
                        p: SystemPlatform, elevated: bool, invoke: Handle -> Result<Data>)
    ensures var r := LoadStep(executors, initializeRaises, s, p, elevated);
            r.raised.None? ==> p in executors.items && ProcessIn(r.state, invoke) == invoke(executors.items[p])
    ensures var r := LoadStep(executors, initializeRaises, s, p, elevated);
            !s.loaded && r.raised.Some? ==> ProcessIn(r.state, invoke) == Raise(PluginProcessingError(NotLoadedMessage))
  {
  }

  /** A plugin instance. The identity and the class-level data are constants; `load` and the
      registry update the rest. */
  class AbstractPlugin {
    const name: string
    const category: PluginCategory
    const author: string
    const version: real
    const description: string
    /** `_executors`, built by the metaclass from the class body. */
    const executors: Dict<SystemPlatform, Handle>
    /** What the class's `initialize()` hook raises when called, `None` when it returns. */
    const initializeRaises: Option<Error>

    var loadingException: Option<Error>
    var runningPlatform: Option<SystemPlatform>
    var execute: Option<Handle>
    var template: Option<string>
    var loaded: bool

    function State(): LoadState
      reads this
    {
      LoadState(runningPlatform, execute, template, loaded)
    }

    ghost predicate Valid()
      reads this
    {
      Coherent(executors, State())
    }

    /** `cls(name, category, author, version)` for a plugin class `cls`. */
    constructor(cls: PluginClass, name: string, category: PluginCategory, author: string, version: real)
      ensures Valid()
      ensures this.name == name && this.category == category && this.author == author && this.version == version
      ensures description == Description(cls.doc)
      ensures executors == ExecutorsOf(cls.attrs) && initializeRaises == cls.initializeRaises
      ensures loadingException == None && State() == LoadState(None, None, None, false)
    {
      this.name := name;
      this.category := category;
      this.author := author;
      this.version := version;
      description := Description(cls.doc);
      executors := ExecutorsOf(cls.attrs);
      initializeRaises := cls.initializeRaises;
      loadingException := None;
      loaded := false;
      runningPlatform := None;
      execute := None;
      template := None;
    }

    /** `load(running_platform, running_elevated)`; the exception it raises is returned. */
    method Load(runningPlatform: SystemPlatform, runningElevated: bool) returns (raised: Option<Error>)
      modifies this
      ensures old(Valid()) ==> Valid()
      ensures LoadOutcome(State(), raised) == LoadStep(executors, initializeRaises, old(State()), runningPlatform, runningElevated)
      ensures loadingException == old(loadingException)
    {
      this.runningPlatform := Some(runningPlatform);
      if |executors.keys| == 0 {
        return Some(PluginExecutorError(NoExecutorMessage));
      }
      if !Supported() {
        return Some(PluginUnsupportedPlatformError(UnsupportedMessage(SupportedPlatforms())));
      }
      if initializeRaises.Some? {
        return initializeRaises;
      }
      execute := Some(executors.items[runningPlatform]);
      template := Some(execute.value.tag.template);
      if execute.value.tag.requiresElevation && !runningElevated {
        return Some(PluginRequiresElevationError(ElevationMessage));
      }
      loaded := true;
      return None;
    }

    /** The `supported` property. */
    function Supported(): bool
      reads this
    {
      SupportedIn(executors, State())
    }

    /** The `supported_platforms` property: the keys of `_executors`, each once, in the order the
        metaclass first stored them. */
    function SupportedPlatforms(): (ps: seq<SystemPlatform>)
      ensures forall p :: p in ps <==> p in executors.items
      ensures Distinct(ps)
    {
      executors.keys
    }

    /** `process()`: refused before a successful load, otherwise what the bound executor
        returns or raises. */
    function Process(invoke: Handle -> Result<Data>): (r: Result<Data>)
      reads this
      ensures !loaded ==> r == Raise(PluginProcessingError(NotLoadedMessage))
      ensures loaded && execute.Some? ==> r == invoke(execute.value)
    {
      ProcessIn(State(), invoke)
    }
  }
}
