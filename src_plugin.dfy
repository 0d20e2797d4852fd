/** src/networkguardian/plugin.py: the plugin base class of the prototype executor, with a plain
    list of supported platforms instead of tagged executors. */
module SrcPlugin {
  import opened Exceptions
  import Tagging

  /** `Platform.detect()`, given the name `platform.system()` reports: the member whose value is
      that name, "Darwin" being macOS. */
  function Detect(system: string): Result<Tagging.SystemPlatform> {
    Tagging.Lookup(system, Tagging.DarwinValue, "Platform")
  }

  /** `str(p)`: the member's value. */
  function Str(p: Tagging.SystemPlatform): string {
    Tagging.DarwinValue(p)
  }

  /** Detection inverts `str`: the value of every member is detected as that member, and every
      string detection accepts is the value of what it detects. */
  lemma DetectStr(p: Tagging.SystemPlatform, system: string)
    ensures Detect(Str(p)) == Ok(p)
    ensures Detect(system).Ok? ==> Str(Detect(system).value) == system
  {
    assert |"Windows"| == 7 && |"Linux"| == 5 && |"Darwin"| == 6;
  }

  datatype Category = Info | Scanner | Attack | Other

  function CategoryValue(c: Category): string {
    match c
    case Info => "Informational"
    case Scanner => "Scanner"
    case Attack => "Attack"
    case Other => "Other"
  }

  /** The start of the message `process` raises on an unsupported platform. In Python the
      plugin's `repr` follows; the model's message stops here. */
  const NotSupportedByPrefix := "Running platform is not supported by "

  /** A plugin instance. The class's `template` property, its `initialize()` hook and the
      docstring are given to the constructor; `template` is the template's source text. */
  class BasePlugin {
    const name: string
    const category: Category
    const author: string
    const version: real
    const description: string
    const supportedPlatforms: seq<Tagging.SystemPlatform>
    const template: string
    /** What the class's `initialize()` raises when called, `None` when it returns. */
    const initializeRaises: Option<Error>

    var requiredPythonPackages: seq<string>
    var platformSupport: bool

    /** `BasePlugin.__init__(name, category, author, version, supported_platforms,
        required_python_packages)`: the package argument is ignored and the list starts empty;
        the plugin starts unsupported. */
    constructor(doc: string, name: string, category: Category, author: string, version: real,
                supportedPlatforms: seq<Tagging.SystemPlatform>, requiredPythonPackages: seq<string>,
                template: string, initializeRaises: Option<Error>)
      ensures this.name == name && this.category == category && this.author == author && this.version == version
      ensures description == Tagging.Description(doc) && this.supportedPlatforms == supportedPlatforms
      ensures this.template == template && this.initializeRaises == initializeRaises
      ensures this.requiredPythonPackages == [] && !Supported()
    {
      this.name := name;
      this.category := category;
      this.author := author;
      this.version := version;
      description := Tagging.Description(doc);
      this.supportedPlatforms := supportedPlatforms;
      this.template := template;
      this.initializeRaises := initializeRaises;
      this.requiredPythonPackages := [];
      platformSupport := false;
    }

    /** `load(running_platform)`: support is decided first, by membership in the supported
        platforms, and stays decided when `initialize()` then raises. */
    method Load(runningPlatform: Tagging.SystemPlatform) returns (raised: Option<Error>)
      modifies this
      ensures Supported() <==> runningPlatform in supportedPlatforms
      ensures raised == initializeRaises
      ensures requiredPythonPackages == old(requiredPythonPackages)
    {
      platformSupport := if runningPlatform in supportedPlatforms then true else false;
      raised := initializeRaises;
    }

    /** The `supported` property. */
    function Supported(): bool
      reads this
    {
      platformSupport
    }

    /** `process()` with the class's `execute()` given as `execute`: on a supported platform the
        executor runs and its result is discarded, so the call returns `None` or raises what
        `execute()` raises; otherwise it raises `EnvironmentError`. The exception is returned. */
    function Process(execute: BasePlugin -> Result<Data>): (raised: Option<Error>)
      reads this
      ensures raised.None? <==> Supported() && execute(this).Ok?
      ensures Supported() && execute(this).Raise? ==> raised == Some(execute(this).error)
      ensures !Supported() ==>
                (raised.Some? && raised.value.EnvironmentError? &&
                 |raised.value.msg| >= |NotSupportedByPrefix| &&
                 raised.value.msg[..|NotSupportedByPrefix|] == NotSupportedByPrefix)
    {
      if Supported() then
        match execute(this)
        case Ok(_) => None
        case Raise(e) => Some(e)
      else
        Some(EnvironmentError(NotSupportedByPrefix))
    }
  }
}
