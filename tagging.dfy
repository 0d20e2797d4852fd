/** The vocabulary both plugin framework generations share: the platform and category enums,
    the `@executor` tag, and the `MetaPlugin` metaclass that folds a class body's tagged
    functions into a platform-to-executor dict. The decorator and the metaclass are the same
    code in networkguardian/framework/plugin.py and in src/networkguardian/framework/plugin.py;
    they differ only in the value string of the macOS member, so each generation keeps its own
    value function. */
module Tagging {
  import opened Exceptions
  import opened PyDict
  import opened Strings

  /** The members of `SystemPlatform` (and of the earlier `Platform`), in declaration order. */
  datatype SystemPlatform = Windows | Linux | MacOS

  const Members: seq<SystemPlatform> := [Windows, Linux, MacOS]

  /** Iterating the enum yields every member. */
  lemma MembersComplete()
    ensures forall p :: p in Members
  {
    forall p: SystemPlatform ensures p in Members {
      match p
      case Windows =>
      case Linux =>
      case MacOS =>
    }
  }

  /** The member values of networkguardian/framework/plugin.py, which are also the first elements
      of the 1-tuple values in networkguardian/plugin.py. */
  function Value(p: SystemPlatform): string {
    match p
    case Windows => "Windows"
    case Linux => "Linux"
    case MacOS => "Mac OS X"
  }

  /** The member values of src/networkguardian/framework/plugin.py and src/networkguardian/plugin.py,
      which are exactly what `platform.system()` reports. */
  function DarwinValue(p: SystemPlatform): string {
    match p
    case Windows => "Windows"
    case Linux => "Linux"
    case MacOS => "Darwin"
  }

  /** `EnumClass(s)`: the member whose value is `s`; a `ValueError` when there is none. */
  function Lookup(s: string, value: SystemPlatform -> string, enumName: string): (r: Result<SystemPlatform>)
    ensures r.Ok? ==> value(r.value) == s
    ensures r.Raise? <==> s != value(Windows) && s != value(Linux) && s != value(MacOS)
    ensures r.Raise? ==> r.error == ValueError("'" + s + "' is not a valid " + enumName)
  {
    if value(Windows) == s then Ok(Windows)
    else if value(Linux) == s then Ok(Linux)
    else if value(MacOS) == s then Ok(MacOS)
    else Raise(ValueError("'" + s + "' is not a valid " + enumName))
  }

  /** The member values of `platforms`, joined by ", ", as the unsupported-platform message
      lists them. */
  function ValuesJoined(platforms: seq<SystemPlatform>, value: SystemPlatform -> string): string {
    Join(", ", seq(|platforms|, i requires 0 <= i < |platforms| => value(platforms[i])))
  }

  datatype PluginCategory = Info | Network | Attack | Enumeration | System | Other

  function CategoryValue(c: PluginCategory): string {
    match c
    case Info => "Informational"
    case Network => "Networking"
    case Attack => "Attack"
    case Enumeration => "Enumeration"
    case System => "System"
    case Other => "Other"
  }

  /** The attributes `@executor` attaches to a function: the template text, the platforms it
      runs on, and whether it needs elevated permissions. */
  datatype ExecutorTag = ExecutorTag(template: string, platforms: seq<SystemPlatform>, requiresElevation: bool)

  /** `@executor(template_path, *platforms, requires_elevation=False)`. The decorator reads the
      template file next to the plugin; here `template` is that file's text. With no platform
      given the function claims every member of the enum. */
  function Executor(template: string, platforms: seq<SystemPlatform>, requiresElevation: bool := false): (tag: ExecutorTag)
    ensures |platforms| == 0 ==> forall p :: p in tag.platforms
    ensures |platforms| == 0 ==> tag.platforms == Members
    ensures |platforms| > 0 ==> tag.platforms == platforms
    ensures tag.template == template && tag.requiresElevation == requiresElevation
  {
    MembersComplete();
    ExecutorTag(template, if |platforms| == 0 then Members else platforms, requiresElevation)
  }

  /** An entry of the class body that the metaclass sees: a plain function, tagged by `@executor`
      or not, or any other attribute (a string, a property, a static method). */
  datatype ClassAttr = Function(name: string, tag: Option<ExecutorTag>) | Attribute(name: string)

  /** A tagged function, as stored in `_executors` and later bound to `execute`. */
  datatype Handle = Handle(name: string, tag: ExecutorTag)

  predicate Tagged(a: ClassAttr) {
    a.Function? && a.tag.Some?
  }

  function HandleOf(a: ClassAttr): Handle
    requires Tagged(a)
  {
    Handle(a.name, a.tag.value)
  }

  /** `executors[sp] = fn` for each `sp` of `ps`, in order: the inner loop of `MetaPlugin.__new__`. */
  function ClaimAll(d: Dict<SystemPlatform, Handle>, ps: seq<SystemPlatform>, h: Handle): Dict<SystemPlatform, Handle>
    decreases |ps|
  {
    if ps == [] then d else Set(ClaimAll(d, ps[..|ps| - 1], h), ps[|ps| - 1], h)
  }

  /** The `_executors` dict that `MetaPlugin.__new__` builds from a class body, as a fold over the
      body's attributes in definition order. */
  function ExecutorsOf(attrs: seq<ClassAttr>): Dict<SystemPlatform, Handle>
    decreases |attrs|
  {
    if attrs == [] then Empty()
    else
      var a := attrs[|attrs| - 1];
      var d := ExecutorsOf(attrs[..|attrs| - 1]);
      if Tagged(a) then ClaimAll(d, a.tag.value.platforms, HandleOf(a)) else d
  }

  /** The last tagged function of the class body that claims `p`, if any: the reference the
      metaclass is meant to realise. */
  function LastClaimant(attrs: seq<ClassAttr>, p: SystemPlatform): (r: Option<Handle>)
    ensures r.Some? ==> p in r.value.tag.platforms
    decreases |attrs|
  {
    if attrs == [] then None
    else
      var a := attrs[|attrs| - 1];
      if Tagged(a) && p in a.tag.value.platforms then Some(HandleOf(a))
      else LastClaimant(attrs[..|attrs| - 1], p)
  }

  lemma {:induction false} ClaimAllGet(d: Dict<SystemPlatform, Handle>, ps: seq<SystemPlatform>, h: Handle, p: SystemPlatform)
    ensures Get(ClaimAll(d, ps, h), p) == if p in ps then Some(h) else Get(d, p)
    decreases |ps|
  {
    if ps != [] {
      ClaimAllGet(d, ps[..|ps| - 1], h, p);
      assert ps == ps[..|ps| - 1] + [ps[|ps| - 1]];
    }
  }

  /** The metaclass maps each platform to the last tagged function that claims it; a platform no
      tagged function claims is absent, and untagged functions and other attributes contribute
      nothing. */
  lemma {:induction false} ExecutorsLastWriterWins(attrs: seq<ClassAttr>, p: SystemPlatform)
    ensures Get(ExecutorsOf(attrs), p) == LastClaimant(attrs, p)
    ensures p in ExecutorsOf(attrs).items <==> exists i :: 0 <= i < |attrs| && Tagged(attrs[i]) && p in attrs[i].tag.value.platforms
    decreases |attrs|
  {
    if attrs != [] {
      var init := attrs[..|attrs| - 1];
      var a := attrs[|attrs| - 1];
      ExecutorsLastWriterWins(init, p);
      if Tagged(a) {
        ClaimAllGet(ExecutorsOf(init), a.tag.value.platforms, HandleOf(a), p);
      }
      if p in ExecutorsOf(attrs).items && !(p in ExecutorsOf(init).items) {
        assert Tagged(a) && p in a.tag.value.platforms;
        assert attrs[|attrs| - 1] == a;
      }
      forall i | 0 <= i < |init| ensures init[i] == attrs[i] { }
    }
  }

  /** `MetaPlugin.__new__`: the nested loops over the class body and each function's platforms. */
  method MetaPluginNew(attrs: seq<ClassAttr>) returns (executors: Dict<SystemPlatform, Handle>)
    ensures executors == ExecutorsOf(attrs)
  {
    executors := Empty();
    var i := 0;
    while i < |attrs|
      invariant 0 <= i <= |attrs|
      invariant executors == ExecutorsOf(attrs[..i])
    {
      var fn := attrs[i];
      assert attrs[..i + 1][..i] == attrs[..i];
      if fn.Function? && fn.tag.Some? {
        var supported := fn.tag.value.platforms;
        ghost var before := executors;
        var j := 0;
        while j < |supported|
          invariant 0 <= j <= |supported|
          invariant executors == ClaimAll(before, supported[..j], HandleOf(fn))
        {
          assert supported[..j + 1][..j] == supported[..j];
          executors := Set(executors, supported[j], HandleOf(fn));
          j := j + 1;
        }
        assert supported[..j] == supported;
      }
      i := i + 1;
    }
    assert attrs[..i] == attrs;
  }

  /** `inspect.cleandoc(self.__doc__) if self.__doc__ else "No description available."`, with the
      docstring given already cleaned; the empty string stands for a missing docstring. */
  function Description(doc: string): string {
    if doc != "" then doc else "No description available."
  }

  /** No two entries share a name. */
  predicate NamesDistinct(attrs: seq<ClassAttr>) {
    forall i, j :: 0 <= i < j < |attrs| ==> attrs[i].name != attrs[j].name
  }

  /** The namespace the metaclass receives: a dict, so each name occurs once. A name defined
      twice in a class body is one entry, at the position of its first definition and holding
      its last. */
  type ClassBody = attrs: seq<ClassAttr> | NamesDistinct(attrs) witness []

  /** A plugin class as the framework sees it: its docstring, its class body, and what its
      `initialize()` hook raises in the running environment (`None` when it returns). */
  datatype PluginClass = PluginClass(doc: string, attrs: ClassBody, initializeRaises: Option<Error>)
}
