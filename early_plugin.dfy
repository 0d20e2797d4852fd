/** networkguardian/plugin.py: the first plugin base class. Its platform enum has 1-tuples as
    values, because of trailing commas, and detection is an if/elif chain. */
module EarlyPlugin {
  import opened Exceptions
  import opened Tagging

  const UnsupportedOsMessage := "Running operating system platform is not supported"

  /** `Platform.detect()`, given the name `platform.system()` reports (the same name for each of
      the chain's calls). */
  function Detect(system: string): (r: Result<SystemPlatform>)
    ensures r == Ok(Windows) <==> system == "Windows"
    ensures r == Ok(Linux) <==> system == "Linux"
    ensures r == Ok(MacOS) <==> system == "Darwin"
    ensures r.Raise? <==> system != "Windows" && system != "Linux" && system != "Darwin"
    ensures r.Raise? ==> r.error == NotImplementedError(UnsupportedOsMessage)
  {
    assert |"Windows"| == 7 && |"Linux"| == 5 && |"Darwin"| == 6;
    if system == "Windows" then Ok(Windows)
    else if system == "Linux" then Ok(Linux)
    else if system == "Darwin" then Ok(MacOS)
    else Raise(NotImplementedError(UnsupportedOsMessage))
  }

  /** The member values: each a 1-tuple holding the member's display name. No two members hold
      the same name, so none of them is an alias of another. */
  function TupleValue(p: SystemPlatform): (t: seq<string>)
    ensures |t| == 1 && t[0] == Value(p)
    ensures forall q :: q != p ==> Value(q) != t[0]
  {
    assert |"Windows"| == 7 && |"Linux"| == 5 && |"Mac OS X"| == 8;
    [Value(p)]
  }

  /** `str(p)`: the first element of the member's value. */
  function Str(p: SystemPlatform): string {
    TupleValue(p)[0]
  }

  /** `str` shows every member by the name detection accepts for it, except macOS: it is detected
      from "Darwin" and shown as "Mac OS X", which detection rejects. */
  lemma StrDetect(p: SystemPlatform, system: string)
    ensures Detect(system).Ok? ==> (Str(Detect(system).value) == system <==> system != "Darwin")
    ensures Detect(Str(p)).Ok? <==> p != MacOS
    ensures p != MacOS ==> Detect(Str(p)) == Ok(p)
  {
    assert |"Mac OS X"| == 8 && |"Darwin"| == 6;
  }

  /** `PluginManager()`: an empty plugin list. */
  class PluginManager {
    var plugins: seq<BasePlugin>

    constructor()
      ensures plugins == []
    {
      plugins := [];
    }
  }

  /** A plugin instance; what the class's `initialize()` raises is given to the constructor. */
  class BasePlugin {
    const name: string
    const description: string
    const author: string
    const version: real
    const supportedPlatforms: seq<SystemPlatform>
    const initializeRaises: Option<Error>

    var supported: bool

    /** `BasePlugin(name, description, author, version, supported_platforms)`: unsupported until
        loaded. */
    constructor(name: string, description: string, author: string, version: real,
                supportedPlatforms: seq<SystemPlatform>, initializeRaises: Option<Error>)
      ensures this.name == name && this.description == description && this.author == author
      ensures this.version == version && this.supportedPlatforms == supportedPlatforms
      ensures this.initializeRaises == initializeRaises
      ensures !Supported()
    {
      this.name := name;
      this.description := description;
      this.author := author;
      this.version := version;
      this.supportedPlatforms := supportedPlatforms;
      this.initializeRaises := initializeRaises;
      supported := false;
    }

    /** `load(platform)`: support is decided first, by membership in the supported platforms,
        then `initialize()` runs; what it raises is returned. */
    method Load(platform: SystemPlatform) returns (raised: Option<Error>)
      modifies this
      ensures Supported() <==> platform in supportedPlatforms
      ensures raised == initializeRaises
    {
      supported := if platform in supportedPlatforms then true else false;
      raised := initializeRaises;
    }

    /** The `supported` property. */
    function Supported(): bool
      reads this
    {
      supported
    }
  }
}
