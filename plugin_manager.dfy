/**
 * The plugin manager: finds the plugin modules of a directory, loads them by name through the module loader, and
 * keeps the loaded modules by name together with the list of loaded names in load order. The directory listing and
 * the loader are given by the caller.
 */
module PluginManager {
  import opened Wrappers
  import opened Text

  /** A loaded module, known to the manager only by the handle the loader returned. */
  type ModuleRef = nat

  /** A name the `*.py` pattern matches, other than the package's `__init__.py`. */
  predicate IsPluginFile(name: string) {
    |name| >= 3 && name[|name| - 3..] == ".py" && name != "__init__.py"
  }

  /** `Path.stem` of a `.py` file: the name without its suffix, except for `.py` itself, which has no suffix. */
  function Stem(name: string): (r: string)
    requires |name| >= 3 && name[|name| - 3..] == ".py"
    ensures |name| > 3 ==> r + ".py" == name
    ensures |name| == 3 ==> r == name
  {
    if |name| == 3 then name else name[..|name| - 3]
  }

  /** The plugin names of a directory listing, in listing order. */
  function PluginNames(entries: seq<string>): (r: seq<string>)
    ensures |r| <= |entries|
  {
    if entries == [] then []
    else
      var last := entries[|entries| - 1];
      PluginNames(entries[..|entries| - 1]) + if IsPluginFile(last) then [Stem(last)] else []
  }

  /** A name is found exactly when a plugin file of the listing has it as its stem. */
  lemma PluginNamesMembers(entries: seq<string>, n: string)
    ensures n in PluginNames(entries) <==> exists k :: 0 <= k < |entries| && IsPluginFile(entries[k]) && Stem(entries[k]) == n
  {
    if n in PluginNames(entries) {
      var k := PluginNameSource(entries, n);
    }
    if exists k :: 0 <= k < |entries| && IsPluginFile(entries[k]) && Stem(entries[k]) == n {
      var k :| 0 <= k < |entries| && IsPluginFile(entries[k]) && Stem(entries[k]) == n;
      PluginNameListed(entries, k);
    }
  }

  /** Every plugin file of the listing contributes its stem. */
  lemma {:induction false} PluginNameListed(entries: seq<string>, k: nat)
    requires k < |entries| && IsPluginFile(entries[k])
    ensures Stem(entries[k]) in PluginNames(entries)
    decreases |entries|
  {
    var init := entries[..|entries| - 1];
    if k < |init| {
      assert init[k] == entries[k];
      PluginNameListed(init, k);
    }
  }

  /** Every name found comes from a plugin file of the listing. */
  lemma {:induction false} PluginNameSource(entries: seq<string>, n: string) returns (k: nat)
    requires n in PluginNames(entries)
    ensures k < |entries| && IsPluginFile(entries[k]) && Stem(entries[k]) == n
    decreases |entries|
  {
    var init := entries[..|entries| - 1];
    if n in PluginNames(init) {
      k := PluginNameSource(init, n);
      assert entries[k] == init[k];
    } else {
      k := |entries| - 1;
    }
  }

  /** `__init__.py` is never a plugin. */
  lemma InitIsNoPlugin(entries: seq<string>)
    ensures "__init__" !in PluginNames(entries)
  {
    forall k | 0 <= k < |entries| && IsPluginFile(entries[k]) ensures Stem(entries[k]) != "__init__" {
      if |entries[k]| > 3 {
        assert Stem(entries[k]) + ".py" == entries[k];
      }
    }
    PluginNamesMembers(entries, "__init__");
  }

  class PluginManager {
    const pluginsDir: string
    /** `plugins`: the loaded modules by name. */
    var plugins: map<string, ModuleRef>
    /** `loaded_plugins`: the loaded names, in load order. */
    var loadedPlugins: seq<string>

    /** Each loaded name is listed once, and the list names exactly the loaded modules. */
    ghost predicate Valid()
      reads this
    {
      Distinct(loadedPlugins) && forall n :: n in plugins <==> n in loadedPlugins
    }

    constructor (pluginsDir: string)
      ensures Valid() && this.pluginsDir == pluginsDir && plugins == map[] && loadedPlugins == []
    {
      this.pluginsDir := pluginsDir;
      plugins := map[];
      loadedPlugins := [];
    }

    /** `discover_plugins()`: the plugin names of the directory, none when it does not exist. */
    method DiscoverPlugins(dirExists: bool, entries: seq<string>) returns (names: seq<string>)
      ensures names == if dirExists then PluginNames(entries) else []
    {
      names := [];
      if dirExists {
        var i := 0;
        while i < |entries|
          invariant 0 <= i <= |entries|
          invariant names == PluginNames(entries[..i])
        {
          assert entries[..i + 1][..i] == entries[..i];
          if IsPluginFile(entries[i]) {
            names := names + [Stem(entries[i])];
          }
          i := i + 1;
        }
        assert entries[..i] == entries;
      }
    }

    /**
     * `load_plugin(name)`: a loaded plugin is not loaded again and gives `True`; otherwise the loader's module is
     * recorded and its name appended, or, when the loader raises, `False` with nothing changed.
     */
    method LoadPlugin(name: string, loader: string -> Result<ModuleRef, string>) returns (ok: bool)
      requires Valid()
      modifies this`plugins, this`loadedPlugins
      ensures Valid()
      ensures name in old(loadedPlugins) ==> ok && plugins == old(plugins) && loadedPlugins == old(loadedPlugins)
      ensures name !in old(loadedPlugins) ==> ok == loader(name).Success?
      ensures name !in old(loadedPlugins) && ok ==>
        plugins == old(plugins)[name := loader(name).value] && loadedPlugins == old(loadedPlugins) + [name]
      ensures !ok ==> plugins == old(plugins) && loadedPlugins == old(loadedPlugins)
    {
      if name in loadedPlugins {
        return true;
      }
      var loaded := loader(name);
      if loaded.Failure? {
        return false;
      }
      plugins := plugins[name := loaded.value];
      loadedPlugins := loadedPlugins + [name];
      ok := true;
    }

    /**
     * `load_all_plugins()`: loads every discovered name in turn; the result maps each to whether it is loaded
     * afterwards, and the loaded list grows by the newly loaded names.
     */
    method LoadAllPlugins(dirExists: bool, entries: seq<string>, loader: string -> Result<ModuleRef, string>)
      returns (results: map<string, bool>)
      requires Valid()
      modifies this`plugins, this`loadedPlugins
      ensures Valid()
      ensures var names := if dirExists then PluginNames(entries) else [];
        (forall n :: n in results <==> n in names)
        && (forall n :: n in results ==> results[n] == (n in old(loadedPlugins) || loader(n).Success?))
        && (forall n :: n in loadedPlugins <==> n in old(loadedPlugins) || (n in names && loader(n).Success?))
      ensures old(loadedPlugins) <= loadedPlugins
    {
      var names := DiscoverPlugins(dirExists, entries);
      results := map[];
      var i := 0;
      while i < |names|
        invariant 0 <= i <= |names|
        invariant Valid()
        invariant forall n :: n in results <==> n in names[..i]
        invariant forall n :: n in results ==> results[n] == (n in old(loadedPlugins) || loader(n).Success?)
        invariant forall n :: n in loadedPlugins <==> n in old(loadedPlugins) || (n in names[..i] && loader(n).Success?)
        invariant old(loadedPlugins) <= loadedPlugins
      {
        assert names[..i + 1] == names[..i] + [names[i]];
        var ok := LoadPlugin(names[i], loader);
        results := results[names[i] := ok];
        i := i + 1;
      }
      assert names[..i] == names;
    }

    /** `unload_plugin(name)`: a loaded plugin leaves both the list and the map, giving `True`; otherwise `False`. */
    method UnloadPlugin(name: string) returns (ok: bool)
      requires Valid()
      modifies this`plugins, this`loadedPlugins
      ensures Valid()
      ensures ok == (name in old(plugins))
      ensures plugins == old(plugins) - {name} && name !in loadedPlugins
      ensures loadedPlugins == RemoveFirst(old(loadedPlugins), name)
    {
      RemoveFirstDistinct(loadedPlugins, name);
      if name !in plugins {
        return false;
      }
      if name in loadedPlugins {
        loadedPlugins := RemoveFirst(loadedPlugins, name);
      }
      plugins := plugins - {name};
      ok := true;
    }

    /** `reload_plugin(name)`: unload, then load afresh; a plugin that loads again moves to the end of the list. */
    method ReloadPlugin(name: string, loader: string -> Result<ModuleRef, string>) returns (ok: bool)
      requires Valid()
      modifies this`plugins, this`loadedPlugins
      ensures Valid()
      ensures ok == loader(name).Success?
      ensures ok ==> plugins == (old(plugins) - {name})[name := loader(name).value]
                     && loadedPlugins == RemoveFirst(old(loadedPlugins), name) + [name]
      ensures !ok ==> plugins == old(plugins) - {name} && loadedPlugins == RemoveFirst(old(loadedPlugins), name)
    {
      var _ := UnloadPlugin(name);
      ok := LoadPlugin(name, loader);
    }

    /** `get_plugin(name)`. */
    function GetPlugin(name: string): (r: Option<ModuleRef>)
      reads this
      ensures r.Some? <==> name in plugins
      ensures r.Some? ==> r.value == plugins[name]
    {
      if name in plugins then Some(plugins[name]) else None
    }

    /** `list_loaded_plugins()`: a copy of the loaded list. */
    function ListLoadedPlugins(): (r: seq<string>)
      requires Valid()
      reads this
      ensures Distinct(r) && forall n :: n in r <==> n in plugins
    {
      loadedPlugins
    }

    /** `is_plugin_loaded(name)`: the list is searched, and it agrees with the map. */
    function IsPluginLoaded(name: string): (r: bool)
      requires Valid()
      reads this
      ensures r <==> name in plugins
    {
      name in loadedPlugins
    }
  }
}
