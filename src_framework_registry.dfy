/** src/networkguardian/framework/registry.py: the plugin registry of the earlier framework
    generation. Its `get_thread_count` is the same code as the later generation's and is modelled
    once, as `FrameworkRegistry.GetThreadCount`; its module-level `max_threads` is never read. */
module SrcFrameworkRegistry {
  import opened Exceptions
  import opened PyDict
  import opened Tagging
  import FrameworkPlugin
  import opened SrcFrameworkPlugin

  /** What Python raises when `load`, which takes the running platform and the elevation status,
      is called with the platform alone. */
  const LoadArityMessage := "AbstractPlugin.load() missing 1 required positional argument: 'running_elevated'"

  /** The registered plugins of `ps` that are loaded and supported, in the order of `ps`. */
  function UsableAmong(ps: seq<AbstractPlugin>): (r: seq<AbstractPlugin>)
    reads ps
    ensures forall p :: p in r ==> p in ps && p.loaded && p.Supported()
    ensures forall i :: 0 <= i < |ps| && ps[i].loaded && ps[i].Supported() ==> ps[i] in r
    ensures (forall i :: 0 <= i < |ps| ==> !ps[i].loaded) ==> r == []
    decreases |ps|
  {
    if ps == [] then []
    else
      var rest := UsableAmong(ps[..|ps| - 1]);
      var p := ps[|ps| - 1];
      assert ps == ps[..|ps| - 1] + [p];
      if p.loaded && p.Supported() then rest + [p] else rest
  }

  /** `UsableAmong` keeps the plugins it selects in the order of `ps`. */
  lemma {:induction false} UsableAmongInOrder(ps: seq<AbstractPlugin>)
    ensures forall i, j :: 0 <= i < j < |ps| && ps[i].loaded && ps[i].Supported() && ps[j].loaded && ps[j].Supported() ==>
              Precedes(UsableAmong(ps), ps[i], ps[j])
    decreases |ps|
  {
    if ps != [] {
      var init, p := ps[..|ps| - 1], ps[|ps| - 1];
      UsableAmongInOrder(init);
      var rest := UsableAmong(init);
      var r := UsableAmong(ps);
      assert ps == init + [p];
      assert r == if p.loaded && p.Supported() then rest + [p] else rest;
      forall i, j | 0 <= i < j < |ps| && ps[i].loaded && ps[i].Supported() && ps[j].loaded && ps[j].Supported()
        ensures Precedes(r, ps[i], ps[j])
      {
        assert init[i] == ps[i];
        if j < |ps| - 1 {
          assert init[j] == ps[j];
          assert Precedes(rest, ps[i], ps[j]);
          var a, b :| 0 <= a < b < |rest| && rest[a] == ps[i] && rest[b] == ps[j];
          assert r[a] == ps[i] && r[b] == ps[j];
        } else {
          var a :| 0 <= a < |rest| && rest[a] == ps[i];
          assert r[a] == ps[i] && r[|rest|] == ps[j];
        }
      }
    }
  }

  /** `UsableAmong` lists each plugin it selects once when `ps` holds each plugin once. */
  lemma {:induction false} UsableAmongOnce(ps: seq<AbstractPlugin>)
    requires Distinct(ps)
    ensures Distinct(UsableAmong(ps))
    decreases |ps|
  {
    if ps != [] {
      var init, p := ps[..|ps| - 1], ps[|ps| - 1];
      UsableAmongOnce(init);
      assert ps == init + [p];
      assert p !in init by {
        forall i | 0 <= i < |init| ensures init[i] != p {
          assert init[i] == ps[i];
        }
      }
    }
  }

  /** What the loop of `load_plugins()` as written does to one plugin: the call to `load` fails
      on its arguments before the body runs, so the load state is untouched and the `TypeError`
      becomes the plugin's `loading_exception`. */
  twostate predicate ArityFailed(pl: AbstractPlugin)
    reads pl
  {
    && pl.State() == old(pl.State())
    && pl.loadingException == Some(TypeError(LoadArityMessage))
  }

  /** What a `load_plugins()` that passes both arguments does to one plugin: the state `load`
      leaves, and `loading_exception` replaced by what `load` raised, if anything. */
  twostate predicate LoadedOnce(pl: AbstractPlugin, runningPlatform: SystemPlatform, runningElevated: bool)
    reads pl
  {
    var r := LoadStep(pl.executors, pl.initializeRaises, old(pl.State()), runningPlatform, runningElevated);
    && pl.State() == r.state
    && pl.loadingException == (if r.raised.Some? then r.raised else old(pl.loadingException))
  }

  /** The `registered_plugins` dict, name to instance. */
  class Registry {
    var registered: Dict<string, AbstractPlugin>

    ghost predicate Valid()
      reads this
    {
      Injective(registered)
    }

    /** No registered plugin is loaded. */
    predicate NoneLoaded()
      reads this, registered.items.Values
    {
      forall k :: k in registered.items ==> !registered.items[k].loaded
    }

    constructor()
      ensures Valid() && NoneLoaded() && registered == Empty()
    {
      registered := Empty();
    }

    /** `register_plugin(name, category, author, version)` applied to the class `cls`: one new,
        unloaded instance, stored under `name`; every other entry is untouched. */
    method RegisterPlugin(name: string, category: PluginCategory, author: string, version: real, cls: PluginClass)
      requires Valid()
      modifies this
      ensures Valid()
      ensures old(NoneLoaded()) ==> NoneLoaded()
      ensures name in registered.items && fresh(registered.items[name])
      ensures var instance := registered.items[name];
              && instance.name == name && instance.category == category
              && instance.author == author && instance.version == version
              && instance.executors == ExecutorsOf(cls.attrs) && !instance.loaded
      ensures name in old(registered.items) ==> registered.keys == old(registered.keys)
      ensures name !in old(registered.items) ==> registered.keys == old(registered.keys) + [name]
      ensures forall k :: k in old(registered.items) && k != name ==> k in registered.items && registered.items[k] == old(registered.items[k])
    {
      var instance := new AbstractPlugin(cls, name, category, author, version);
      SetPlacement(registered, name, instance);
      InjectiveSet(registered, name, instance);
      registered := Set(registered, name, instance);
    }

    /** `usable_plugins()`: the registered plugins that are loaded and supported, in registry
        order; none while no plugin is loaded. */
    function UsablePlugins(): (r: seq<AbstractPlugin>)
      reads this, registered.items.Values
      ensures forall p :: p in r ==> p in registered.items.Values && p.loaded && p.Supported()
      ensures forall k :: k in registered.items && registered.items[k].loaded && registered.items[k].Supported() ==>
                registered.items[k] in r
      ensures var vs := Values(registered);
              forall i, j :: 0 <= i < j < |vs| && vs[i].loaded && vs[i].Supported() && vs[j].loaded && vs[j].Supported() ==>
                Precedes(r, vs[i], vs[j])
      ensures Valid() ==> Distinct(r)
      ensures NoneLoaded() ==> r == []
    {
      var vs := Values(registered);
      ValuesEnumerate(registered);
      var r := UsableAmong(vs);
      UsableAmongInOrder(vs);
      assert Valid() ==> Distinct(r) by {
        if Valid() {
          ValuesOfInjective(registered);
          UsableAmongOnce(vs);
        }
      }
      assert NoneLoaded() ==> forall i :: 0 <= i < |vs| ==> !vs[i].loaded by {
        if NoneLoaded() {
          forall i | 0 <= i < |vs| ensures !vs[i].loaded {
            assert registered.keys[i] in registered.items;
          }
        }
      }
      r
    }

    /** `load_plugins()` as written, on a system `platform.system()` names `system`: detection
        failing propagates its `ValueError` before any plugin is touched; otherwise every call
        `plugin.load(running_platform)` lacks its second argument, so every plugin keeps its
        state and records the `TypeError`, and a registry with no loaded plugin stays without a
        usable one. */
    method LoadPlugins(system: string) returns (raised: Option<Error>)
      requires Valid()
      modifies registered.items.Values
      ensures Valid()
      ensures Detect(system).Raise? ==> raised == Some(Detect(system).error)
      ensures Detect(system).Raise? ==> forall k :: k in registered.items ==> unchanged(registered.items[k])
      ensures Detect(system).Ok? ==> raised.None?
      ensures Detect(system).Ok? ==> forall k :: k in registered.items ==> ArityFailed(registered.items[k])
      ensures old(NoneLoaded()) ==> NoneLoaded() && UsablePlugins() == []
    {
      var runningPlatform := Detect(system);
      if runningPlatform.Raise? {
        return Some(runningPlatform.error);
      }
      var plugins := Values(registered);
      ValuesOfInjective(registered);
      FailEach(plugins);
      forall k | k in registered.items ensures ArityFailed(registered.items[k]) {
        var j :| 0 <= j < |registered.keys| && registered.keys[j] == k;
        assert plugins[j] == registered.items[k];
      }
      raised := None;
    }

    /** `load_plugins()` with the call written `plugin.load(running_platform, running_elevated)`,
        the elevation status given as `runningElevated`: every registered plugin is loaded once
        and what its `load` raises is stored in its `loading_exception`. */
    method LoadPluginsCorrected(system: string, runningElevated: bool) returns (raised: Option<Error>)
      requires Valid()
      modifies registered.items.Values
      ensures Valid()
      ensures Detect(system).Raise? ==> raised == Some(Detect(system).error)
      ensures Detect(system).Raise? ==> forall k :: k in registered.items ==> unchanged(registered.items[k])
      ensures Detect(system).Ok? ==> raised.None?
      ensures Detect(system).Ok? ==> forall k :: k in registered.items ==> LoadedOnce(registered.items[k], Detect(system).value, runningElevated)
    {
      var runningPlatform := Detect(system);
      if runningPlatform.Raise? {
        return Some(runningPlatform.error);
      }
      var plugins := Values(registered);
      ValuesOfInjective(registered);
      LoadEach(plugins, runningPlatform.value, runningElevated);
      forall k | k in registered.items ensures LoadedOnce(registered.items[k], runningPlatform.value, runningElevated) {
        var j :| 0 <= j < |registered.keys| && registered.keys[j] == k;
        assert plugins[j] == registered.items[k];
      }
      raised := None;
    }
  }

  /** The loop of `load_plugins()` as written over the distinct instances `ps`. */
  method FailEach(ps: seq<AbstractPlugin>)
    requires forall i, j :: 0 <= i < |ps| && 0 <= j < |ps| && i != j ==> ps[i] != ps[j]
    modifies ps
    ensures forall i :: 0 <= i < |ps| ==> ArityFailed(ps[i])
  {
    var i := 0;
    while i < |ps|
      invariant 0 <= i <= |ps|
      invariant forall j :: 0 <= j < i ==> ArityFailed(ps[j])
      invariant forall j :: i <= j < |ps| ==> unchanged(ps[j])
    {
      ps[i].loadingException := Some(TypeError(LoadArityMessage));
      i := i + 1;
    }
  }

  /** The loop of the corrected `load_plugins()` over the distinct instances `ps`, in order. */
  method LoadEach(ps: seq<AbstractPlugin>, runningPlatform: SystemPlatform, runningElevated: bool)
    requires forall i, j :: 0 <= i < |ps| && 0 <= j < |ps| && i != j ==> ps[i] != ps[j]
    modifies ps
    ensures forall i :: 0 <= i < |ps| ==> LoadedOnce(ps[i], runningPlatform, runningElevated)
  {
    var i := 0;
    while i < |ps|
      invariant 0 <= i <= |ps|
      invariant forall j :: 0 <= j < i ==> LoadedOnce(ps[j], runningPlatform, runningElevated)
      invariant forall j :: i <= j < |ps| ==> unchanged(ps[j])
    {
      var plugin := ps[i];
      var raised := plugin.Load(runningPlatform, runningElevated);
      if raised.Some? {
        plugin.loadingException := raised;
      }
      i := i + 1;
    }
  }
}
