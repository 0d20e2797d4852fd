/** networkguardian/framework/registry.py: the plugin registry of the current framework
    generation, and the pool-sizing rule. */
module FrameworkRegistry {
  import opened Exceptions
  import opened PyDict
  import opened Tagging
  import opened FrameworkPlugin

  /** The registered plugins of `ps` that are loaded and supported, in the order of `ps`. */
  function UsableAmong(ps: seq<AbstractPlugin>): (r: seq<AbstractPlugin>)
    reads ps
    ensures forall p :: p in r ==> p in ps && p.loaded && p.Supported()
    ensures forall i :: 0 <= i < |ps| && ps[i].loaded && ps[i].Supported() ==> ps[i] in r
    ensures |r| <= |ps|
    decreases |ps|
  {
    if ps == [] then []
    else
      var rest := UsableAmong(ps[..|ps| - 1]);
      var p := ps[|ps| - 1];
      assert ps == ps[..|ps| - 1] + [p];
      if p.loaded && p.Supported() then rest + [p] else rest
  }

  /** `UsableAmong` keeps the plugins it selects in the order of `ps`. */
  lemma {:induction false} UsableAmongInOrder(ps: seq<AbstractPlugin>)
    ensures forall i, j :: 0 <= i < j < |ps| && ps[i].loaded && ps[i].Supported() && ps[j].loaded && ps[j].Supported() ==>
              Precedes(UsableAmong(ps), ps[i], ps[j])
    decreases |ps|
  {
    if ps != [] {
      var init, p := ps[..|ps| - 1], ps[|ps| - 1];
      UsableAmongInOrder(init);
      var rest := UsableAmong(init);
      var r := UsableAmong(ps);
      assert ps == init + [p];
      assert r == if p.loaded && p.Supported() then rest + [p] else rest;
      forall i, j | 0 <= i < j < |ps| && ps[i].loaded && ps[i].Supported() && ps[j].loaded && ps[j].Supported()
        ensures Precedes(r, ps[i], ps[j])
      {
        assert init[i] == ps[i];
        if j < |ps| - 1 {
          assert init[j] == ps[j];
          assert Precedes(rest, ps[i], ps[j]);
          var a, b :| 0 <= a < b < |rest| && rest[a] == ps[i] && rest[b] == ps[j];
          assert r[a] == ps[i] && r[b] == ps[j];
        } else {
          var a :| 0 <= a < |rest| && rest[a] == ps[i];
          assert r[a] == ps[i] && r[|rest|] == ps[j];
        }
      }
    }
  }

  /** `UsableAmong` lists each plugin it selects once when `ps` holds each plugin once. */
  lemma {:induction false} UsableAmongOnce(ps: seq<AbstractPlugin>)
    requires Distinct(ps)
    ensures Distinct(UsableAmong(ps))
    decreases |ps|
  {
    if ps != [] {
      var init, p := ps[..|ps| - 1], ps[|ps| - 1];
      UsableAmongOnce(init);
      assert ps == init + [p];
      assert p !in init by {
        forall i | 0 <= i < |init| ensures init[i] != p {
          assert init[i] == ps[i];
        }
      }
    }
  }

  /** What `load_plugins` does to one plugin: the state `load` leaves, and `loading_exception`
      replaced by what `load` raised, if anything. */
  twostate predicate LoadedOnce(pl: AbstractPlugin, runningPlatform: SystemPlatform, runningElevated: bool)
    reads pl
  {
    var r := LoadStep(pl.executors, pl.initializeRaises, old(pl.State()), runningPlatform, runningElevated);
    && pl.State() == r.state
    && pl.loadingException == (if r.raised.Some? then r.raised else old(pl.loadingException))
  }

  /** The `registered_plugins` dict, name to instance. */
  class Registry {
    var registered: Dict<string, AbstractPlugin>

    ghost predicate Valid()
      reads this
    {
      Injective(registered)
    }

    constructor()
      ensures Valid() && registered == Empty()
    {
      registered := Empty();
    }

    /** `register_plugin(name, category, author, version)` applied to the class `cls`: one new
        instance, stored under `name`. A name registered before keeps its place and loses its old
        instance; every other entry is untouched. */
    method RegisterPlugin(name: string, category: PluginCategory, author: string, version: real, cls: PluginClass)
      requires Valid()
      modifies this
      ensures Valid()
      ensures name in registered.items && fresh(registered.items[name])
      ensures var instance := registered.items[name];
              && instance.name == name && instance.category == category
              && instance.author == author && instance.version == version
              && instance.executors == ExecutorsOf(cls.attrs) && !instance.loaded
      ensures name in old(registered.items) ==> registered.keys == old(registered.keys)
      ensures name !in old(registered.items) ==> registered.keys == old(registered.keys) + [name]
      ensures forall k :: k in old(registered.items) && k != name ==> k in registered.items && registered.items[k] == old(registered.items[k])
      ensures registered.items.Keys == old(registered.items.Keys) + {name}
    {
      var instance := new AbstractPlugin(cls, name, category, author, version);
      SetPlacement(registered, name, instance);
      InjectiveSet(registered, name, instance);
      registered := Set(registered, name, instance);
    }

    /** `usable_plugins()`: the registered plugins that are loaded and supported, in registry order. */
    function UsablePlugins(): (r: seq<AbstractPlugin>)
      reads this, registered.items.Values
      ensures forall p :: p in r ==> p in registered.items.Values && p.loaded && p.Supported()
      ensures forall k :: k in registered.items && registered.items[k].loaded && registered.items[k].Supported() ==>
                registered.items[k] in r
      ensures var vs := Values(registered);
              forall i, j :: 0 <= i < j < |vs| && vs[i].loaded && vs[i].Supported() && vs[j].loaded && vs[j].Supported() ==>
                Precedes(r, vs[i], vs[j])
      ensures Valid() ==> Distinct(r)
    {
      var vs := Values(registered);
      ValuesEnumerate(registered);
      UsableAmongInOrder(vs);
      assert Valid() ==> Distinct(UsableAmong(vs)) by {
        if Valid() {
          ValuesOfInjective(registered);
          UsableAmongOnce(vs);
        }
      }
      UsableAmong(vs)
    }

    /** `load_plugins()` on a system `platform.system()` names `system`, with the elevation
        status `is_elevated()` reports given as `runningElevated`: a failed detection raises its
        `ValueError` before any plugin is touched; otherwise every plugin is loaded once, as
        `LoadDetected` states, and the result says whether any plugin is usable afterwards. */
    method LoadPlugins(system: string, runningElevated: bool) returns (r: Result<bool>)
      requires Valid()
      modifies registered.items.Values
      ensures Valid()
      ensures Detect(system).Raise? ==> r == Raise(Detect(system).error)
      ensures Detect(system).Raise? ==> forall k :: k in registered.items ==> unchanged(registered.items[k])
      ensures Detect(system).Ok? ==> r.Ok?
      ensures Detect(system).Ok? ==>
                forall k :: k in registered.items ==> LoadedOnce(registered.items[k], Detect(system).value, runningElevated)
      ensures r.Ok? ==> (r.value <==> exists k :: k in registered.items && registered.items[k].loaded && registered.items[k].Supported())
    {
      var runningPlatform := Detect(system);
      if runningPlatform.Raise? {
        return Raise(runningPlatform.error);
      }
      var anyUsable := LoadDetected(runningPlatform.value, runningElevated);
      r := Ok(anyUsable);
    }

    /** The loop of `load_plugins()` once the running platform has been detected as
        `runningPlatform` and the elevation status found to be `runningElevated`. Every registered plugin is loaded once;
        whatever its `load` raises is stored in its `loading_exception` and nothing propagates; a
        successful load leaves an earlier `loading_exception` in place. The result says whether
        any plugin is usable afterwards. */
    method LoadDetected(runningPlatform: SystemPlatform, runningElevated: bool) returns (anyUsable: bool)
      requires Valid()
      modifies registered.items.Values
      ensures Valid()
      ensures forall k :: k in registered.items ==> LoadedOnce(registered.items[k], runningPlatform, runningElevated)
      ensures anyUsable <==> exists k :: k in registered.items && registered.items[k].loaded && registered.items[k].Supported()
    {
      var plugins := Values(registered);
      ValuesOfInjective(registered);
      LoadEach(plugins, runningPlatform, runningElevated);
      forall k | k in registered.items
        ensures LoadedOnce(registered.items[k], runningPlatform, runningElevated)
      {
        var j :| 0 <= j < |registered.keys| && registered.keys[j] == k;
        assert plugins[j] == registered.items[k];
      }
      var usable := UsablePlugins();
      anyUsable := |usable| > 0;
      if anyUsable {
        assert usable[0] in registered.items.Values;
      }
    }
  }

  /** The loop of `load_plugins()` over the distinct instances `ps`, in order. */
  method LoadEach(ps: seq<AbstractPlugin>, runningPlatform: SystemPlatform, runningElevated: bool)
    requires forall i, j :: 0 <= i < |ps| && 0 <= j < |ps| && i != j ==> ps[i] != ps[j]
    modifies ps
    ensures forall i :: 0 <= i < |ps| ==> LoadedOnce(ps[i], runningPlatform, runningElevated)
  {
    var i := 0;
    while i < |ps|
      invariant 0 <= i <= |ps|
      invariant forall j :: 0 <= j < i ==> LoadedOnce(ps[j], runningPlatform, runningElevated)
      invariant forall j :: i <= j < |ps| ==> unchanged(ps[j])
    {
      var plugin := ps[i];
      var raised := plugin.Load(runningPlatform, runningElevated);
      if raised.Some? {
        plugin.loadingException := raised;
      }
      i := i + 1;
    }
  }

  /** `get_thread_count(max_required)` with `multiprocessing.cpu_count()` given as `cpuCount`:
      the core count, lowered to `max_required` when that is an int and smaller. There is no
      lower bound: `max_required` 0 yields 0. */
  function GetThreadCount(cpuCount: int, maxRequired: Option<int> := None): (r: int)
    ensures r <= cpuCount
    ensures maxRequired.Some? ==> r <= maxRequired.value
    ensures r == cpuCount || (maxRequired.Some? && r == maxRequired.value)
  {
    var threadCount := cpuCount;
    if maxRequired.Some? && maxRequired.value < threadCount then maxRequired.value else threadCount
  }
}
