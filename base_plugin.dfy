/**
 * The plugin registry: plugins by name, in registration order (the order of the dictionary that holds them), with
 * their `on_load` and `on_unload` hooks run in that order. What a hook does is given by the caller: whether it
 * raises.
 */
module BasePlugin {
  import opened Wrappers
  import opened Text

  /** A plugin, known to the registry by its name and an identity. */
  datatype Plugin = Plugin(name: string, handle: nat)

  function AlreadyRegistered(name: string): string {
    "插件 " + name + " 已注册"
  }

  class PluginRegistry {
    var plugins: map<string, Plugin>
    /** The dictionary's key order: registration order. */
    var order: seq<string>

    /** Each name is listed once, the list names exactly the registered plugins, and each is filed under its name. */
    ghost predicate Valid()
      reads this
    {
      Distinct(order) && (forall n :: n in plugins <==> n in order) && (forall n :: n in plugins ==> plugins[n].name == n)
    }

    constructor ()
      ensures Valid() && plugins == map[] && order == []
    {
      plugins := map[];
      order := [];
    }

    /** `register(plugin)`: a name already taken raises `ValueError` and changes nothing; a new one goes last. */
    method Register(plugin: Plugin) returns (r: Result<(), string>)
      requires Valid()
      modifies this`plugins, this`order
      ensures Valid()
      ensures plugin.name in old(plugins) ==>
        r == Failure(AlreadyRegistered(plugin.name)) && plugins == old(plugins) && order == old(order)
      ensures plugin.name !in old(plugins) ==>
        r == Success(()) && plugins == old(plugins)[plugin.name := plugin] && order == old(order) + [plugin.name]
    {
      if plugin.name in plugins {
        return Failure(AlreadyRegistered(plugin.name));
      }
      plugins := plugins[plugin.name := plugin];
      order := order + [plugin.name];
      r := Success(());
    }

    /** `unregister(name)`: removes the plugin if there is one; registering the name again puts it last. */
    method Unregister(name: string)
      requires Valid()
      modifies this`plugins, this`order
      ensures Valid()
      ensures plugins == old(plugins) - {name} && order == RemoveFirst(old(order), name)
    {
      RemoveFirstDistinct(order, name);
      if name in plugins {
        plugins := plugins - {name};
        order := RemoveFirst(order, name);
      }
    }

    /** `get_plugin(name)`. */
    function GetPlugin(name: string): (r: Option<Plugin>)
      requires Valid()
      reads this
      ensures r.Some? <==> name in order
      ensures r.Some? ==> r.value.name == name && r.value == plugins[name]
    {
      if name in plugins then Some(plugins[name]) else None
    }

    /** `list_plugins()`: the registered names, in registration order, each once. */
    function ListPlugins(): (r: seq<string>)
      requires Valid()
      reads this
      ensures Distinct(r) && forall n :: n in r <==> n in plugins
    {
      order
    }

    /**
     * `load_all_plugins()`: runs every plugin's `on_load`, in registration order; one that raises is logged and the
     * rest still run. The result pairs each plugin with whether its hook completed. The registry is unchanged.
     */
    method LoadAllPlugins(onLoad: Plugin -> bool) returns (outcomes: seq<(Plugin, bool)>)
      requires Valid()
      ensures |outcomes| == |order|
      ensures forall k :: 0 <= k < |order| ==> outcomes[k] == (plugins[order[k]], onLoad(plugins[order[k]]))
    {
      outcomes := RunHooks(onLoad);
    }

    /** `unload_all_plugins()`: the same with every plugin's `on_unload`. */
    method UnloadAllPlugins(onUnload: Plugin -> bool) returns (outcomes: seq<(Plugin, bool)>)
      requires Valid()
      ensures |outcomes| == |order|
      ensures forall k :: 0 <= k < |order| ==> outcomes[k] == (plugins[order[k]], onUnload(plugins[order[k]]))
    {
      outcomes := RunHooks(onUnload);
    }

    /** One hook of every plugin, in registration order. */
    method RunHooks(hook: Plugin -> bool) returns (outcomes: seq<(Plugin, bool)>)
      requires Valid()
      ensures |outcomes| == |order|
      ensures forall k :: 0 <= k < |order| ==> outcomes[k] == (plugins[order[k]], hook(plugins[order[k]]))
    {
      outcomes := [];
      var i := 0;
      while i < |order|
        invariant 0 <= i <= |order|
        invariant |outcomes| == i
        invariant forall k :: 0 <= k < i ==> outcomes[k] == (plugins[order[k]], hook(plugins[order[k]]))
      {
        var plugin := plugins[order[i]];
        outcomes := outcomes + [(plugin, hook(plugin))];
        i := i + 1;
      }
    }
  }
}
