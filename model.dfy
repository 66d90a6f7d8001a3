/**
 * The entities of the plugin core: plugin types (Python classes that
 * subclass `Plugin`), plugin instances, and the calls made on a delegate.
 */
module PluginModel {

  /**
   * A concrete plugin type. A `PluginType` value stands for the class
   * object itself, and value equality for the class identity that
   * `cls not in Plugin.__inherited__` compares. `id` is only a tag that
   * tells apart classes whose names coincide. `qualname` is
   * `cls.__qualname__` (the registry scope) and `name` is `cls.__name__`
   * (the first half of the services scope).
   */
  datatype PluginType = PluginType(id: nat, qualname: string, name: string)

  /** Identity of a `Plugin.Delegate` object; several plugins may share one. */
  type DelegateId = nat

  /**
   * A plugin instance with the fixed answers of its `_name()` and
   * `_delegate()` hooks.
   */
  datatype Plugin = Plugin(id: nat, kind: PluginType, name: string, delegate: DelegateId)

  /** The five hooks of `Plugin.Delegate`, each naming the plugin it is about. */
  datatype DelegateCall =
    | ApplicationDidLaunch(plugin: Plugin)
    | PluginDidInstall(plugin: Plugin)
    | PluginDidDiscover(plugin: Plugin)
    | PluginDidLoad(plugin: Plugin)
    | PluginDidUnload(plugin: Plugin)

  /**
   * One observable step of a lifecycle operation: the plugin's own
   * `_loading()` hook returned normally, or a delegate hook was called.
   */
  datatype Action =
    | LoadingCompleted(plugin: Plugin)
    | Notified(delegate: DelegateId, call: DelegateCall)

  /** The `KeyError` raised by `Plugin.plugin(name)`: the scope searched and the name asked for. */
  datatype LookupError = KeyError(qualname: string, name: string)

  /**
   * The exception that `load` propagates: raised by the plugin's own
   * `_loading()` hook, or by its delegate's `plugin_did_load` hook.
   */
  datatype TransitionFailure = LoadingRaised(plugin: Plugin) | DelegateRaised(plugin: Plugin)
}
