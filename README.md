# plank plugin core, modelled in Dafny

This project models the plugin core of `plank` (`plank/plugin/__init__.py`):

- the class-level list `Plugin.__inherited__`. Every subclass definition appends to it once (`__init_subclass__`);
- the polymorphic `Plugin.current()` search over that list;
- the per-type registry of installed instances. It is the standard context named by the type's `__qualname__`, read by `installed()` and `plugin(name)` and written by `install(context)`;
- the per-instance services scope `"<ClassName>.<name>"`;
- the sequencing of `load()`: `_loading()` runs first, then `delegate.plugin_did_load(self)`.

Modules:

- `Wrappers`: `Option`, `Result` and `Outcome`. They stand for `None` returns and raised exceptions.
- `PluginModel`: plugin types, plugin instances, delegate calls, logged actions and errors.
- `ScopedContext`: an insertion-ordered context, and the table of one context per scope string.
- `TypeRegistry`: `Register` (what `__init_subclass__` does to the list) and `FirstCurrent` (what `current()` returns).
- `PluginRegistry`: `installed`, `plugin(name)` and the write done by `install`.
- `Services`: the services scope string, and the independence of the stores behind it.
- `Lifecycle`: the actions one `load` adds to the log, and counting `plugin_did_load` calls.
- `PluginRuntime`: class `Runtime`. It holds the process-wide state (`inherited`, `contexts`, `log`), and its methods are the state-changing operations plus the `current` loop.

Calls into code that is not part of this model are parameters:

- each registered type's own `current()` answer is a resolver `PluginType -> Option<Plugin>`;
- whether `_loading()` raised is a `bool`;
- the context `install` writes into is given by its scope string.

Behaviour of the code that a reader might expect otherwise:

- `install` calls only the no-op `did_install` hook. It does not notify the delegate, so `Runtime.Install` logs nothing.
- Re-installing under a name already in use overwrites the stored plugin (last write wins). It is not rejected.
- `unload` runs no shutdown hook and calls no `plugin_did_unload`, so `Runtime.Unload` changes nothing.
- A delegate hook that raises is not caught: `load` fails with it after the call was made.

## Model

| member | source | states |
|---|---|---|
| `ScopedContext.Get` | plank/plugin/__init__.py:50 | `context.get(key)` finds a value exactly when the key is among the context's keys, and returns the value stored under it |
| `ScopedContext.Values` | plank/plugin/__init__.py:43 | `context.values()` has one value per key, in key order, each the value stored under that key |
| `ScopedContext.Set` | plank/plugin/__init__.py:85 | `context.set(key, value)` keeps the context well formed, makes `key` map to `value`, leaves every other key's value unchanged, keeps the existing key order as a prefix, and adds a key only when it is new |
| `ScopedContext.ValuesAfterSetNew` | plank/plugin/__init__.py:84-85 | setting a new key appends its value at the end of `values()` |
| `ScopedContext.ValuesAfterSetExisting` | plank/plugin/__init__.py:84-85 | overwriting an existing key replaces its value in place in `values()`, and nothing else changes |
| `ScopedContext.Standard` | plank/plugin/__init__.py:42 | `Context.standard(scope)` is a well-formed context, empty for a scope never written |
| `ScopedContext.SetIn` | plank/plugin/__init__.py:85 | a write into one scope's context changes no other scope, stores the value under the key, leaves the scope's other keys as they were, and keeps its key order as a prefix |
| `TypeRegistry.Register` | plank/plugin/__init__.py:66-68 | after registration the list holds exactly the old types and the new one; old entries keep their positions; an already-listed type leaves the list unchanged; a new one grows it by one; a list without duplicates stays without duplicates |
| `TypeRegistry.RegisterIdempotent` | plank/plugin/__init__.py:66-68 | registering a type twice has the same effect as registering it once |
| `TypeRegistry.RegisterNewAppends` | plank/plugin/__init__.py:67-68 | a type not yet registered is appended at the end |
| `TypeRegistry.FirstCurrent` | plank/plugin/__init__.py:59-64 | `current()` is `None` exactly when every registered type answers `None`; otherwise it is the answer of a registered type, and every type before that one answered `None` |
| `TypeRegistry.FirstCurrentAppend` | plank/plugin/__init__.py:60-64 | searching a list extended by more types finds the first part's answer if it has one, and the extension's answer otherwise |
| `TypeRegistry.CurrentStableUnderRegister` | plank/plugin/__init__.py:59-68 | registering another type never changes a current instance that was already found |
| `TypeRegistry.CurrentFallsThrough` | plank/plugin/__init__.py:59-68 | if `A` is registered with no current instance, and then `B` is registered whose current instance is `b`, then `current()` returns `b` |
| `PluginRegistry.RegistryOf` | plank/plugin/__init__.py:42 | a type's registry is the standard context of its qualified name, empty until something is written there |
| `PluginRegistry.Installed` | plank/plugin/__init__.py:41-43 | `installed()` lists exactly the stored plugins, one per name in the type's registry, in key order |
| `PluginRegistry.PluginNamed` | plank/plugin/__init__.py:46-50 | `plugin(name)` raises `KeyError(qualname, name)` exactly when `name` is not a key of the type's registry, and otherwise returns the plugin stored under `name` |
| `PluginRegistry.InstallInto` | plank/plugin/__init__.py:84-85 | `install` stores the plugin under its own name in the given scope and changes no other scope |
| `PluginRegistry.PluginAfterInstall` | plank/plugin/__init__.py:84-85 | after installing into the type's own scope, `plugin(p.name)` returns `p`, whatever was stored there before (last write wins) |
| `PluginRegistry.InstallElsewhereInvisible` | plank/plugin/__init__.py:84-85 | installing into a context other than the type's standard one changes neither `plugin` nor `installed` for that type |
| `PluginRegistry.InstallKeepsOtherNames` | plank/plugin/__init__.py:84-85 | installing leaves every other name's lookup unchanged |
| `PluginRegistry.InstalledAfterInstall` | plank/plugin/__init__.py:41-43 | after an install, a new name adds the plugin at the end of `installed()`; an existing name has its plugin replaced in place, so the list does not grow |
| `PluginRegistry.InstallTwo` | plank/plugin/__init__.py:41-50 | installing two plugins with distinct names into an empty registry makes `installed()` exactly those two in order, and each is found by its name |
| `PluginRegistry.SameQualnameSharesRegistry` | plank/plugin/__init__.py:42-47 | two distinct types with the same `__qualname__` share one registry: one type's install is visible to the other's `plugin`, and both list the same plugins |
| `Services.ServicesScope` | plank/plugin/__init__.py:53-56 | the services scope is the class's `__name__`, a dot, then the plugin's name |
| `Services.DistinctNamesDistinctScopes` | plank/plugin/__init__.py:55 | two instances of one class with different names get different services scopes |
| `Services.ServicesScopeInjective` | plank/plugin/__init__.py:55 | when class names contain no dot, two plugins have the same services scope exactly when their class names and their names are equal |
| `Services.ServiceScopesIndependent` | plank/plugin/__init__.py:53-56 | writing into one instance's services store leaves the store of a differently named instance of the same class unchanged |
| `Lifecycle.LoadTrace` | plank/plugin/__init__.py:92-94 | `load` records nothing when `_loading()` raises; otherwise its last action is the `plugin_did_load(self)` call on the plugin's own delegate |
| `Lifecycle.DidLoadCount` | plank/plugin/__init__.py:94 | the number of `plugin_did_load(p)` calls is at most the length of the log, and it is zero exactly when no such call is in the log |
| `Lifecycle.DidLoadCountAppend` | plank/plugin/__init__.py:94 | the number of `plugin_did_load(p)` calls in two logs joined together is the sum of the two counts |
| `Lifecycle.LoadEffect` | plank/plugin/__init__.py:92-94 | one `load` adds exactly one `plugin_did_load(p)` call when `_loading()` returns and none when it raises; every `plugin_did_load` in the log still comes after a completed `_loading()` of that plugin |
| `PluginRuntime.Runtime.constructor` | plank/plugin/__init__.py:14 | the process starts with no registered types, no contexts and no delegate calls |
| `PluginRuntime.Runtime.Register` | plank/plugin/__init__.py:66-68 | `__init_subclass__` replaces the list by `Register(old list, t)` and keeps it free of duplicates |
| `PluginRuntime.Runtime.Current` | plank/plugin/__init__.py:58-64 | the early-return loop over the registered types returns exactly `FirstCurrent` of the list |
| `PluginRuntime.Runtime.Install` | plank/plugin/__init__.py:84-87 | `install` changes only the given scope's context, by storing the plugin under its name; the log is untouched, so no delegate is notified |
| `PluginRuntime.Runtime.Load` | plank/plugin/__init__.py:92-95 | `load` returns the `_loading()` failure and leaves the log unchanged if that hook raises; otherwise it appends the completed `_loading()` and then one `plugin_did_load(self)` call to the plugin's delegate, and returns the delegate's failure if that call raises, success otherwise |
| `PluginRuntime.Runtime.Unload` | plank/plugin/__init__.py:97-98 | `unload` changes no state |
| `PluginRuntime.Runtime.DidInstall` | plank/plugin/__init__.py:100-101 | `did_install` changes no state |
| `PluginRuntime.Runtime.DidDiscover` | plank/plugin/__init__.py:103-104 | `did_discover` changes no state |

## Left out

- `discover` and `construct_parameters` (lines 32-38) raise `NotImplementedError` here. Their real behaviour lives in concrete plugin kinds that are not part of this model.
- `_name` and `_delegate` raising `NotImplementedError` (lines 78-82): each plugin carries a fixed name and delegate id instead.
- Logging (`logger.info` and `logger.debug`, lines 87 and 95) has no state the model needs.
- Each registered type's own `current()` is assumed to return, not raise: a `Resolver` cannot raise, though in the source an exception from `subclass.current()` (line 61) would propagate out of `Plugin.current`.
- The inherited default of `current` (lines 59-61) is not modelled. A subclass that does not override it would search the whole list again, itself included, without bound. Each type's answer is a given resolver instead.
- `plank.context.Context` is not part of this model. It is assumed to be an insertion-ordered mapping in which overwriting keeps a key's position. Its object identity and its locking are not modelled.
- `plank.service.ServiceManager` is not part of this model. A services manager is modelled as its scope string. The store behind a scope is modelled by the same context table, to state that scopes are independent.
- `__init_subclass__` as a metaclass hook is modelled as an explicit `Register` call.
- `Plugin.Delegate` (lines 16-30): its hooks are modelled as logged calls. `application_did_launch`'s `launch_options` argument is not kept. The core only ever calls `plugin_did_load`.
- Side effects of a subclass's `_loading()` hook other than raising are not modelled.
- `PluginRuntime.Runtime.Unload`, `PluginRuntime.Runtime.DidInstall` and `PluginRuntime.Runtime.DidDiscover` model the base class's no-op bodies; subclass overrides of these hooks are not modelled.
- Lifecycle state (installed, loaded, unloaded) is not stored by the source, so it is not modelled.
- Concurrency and thread safety of the process-wide list and contexts are not modelled.
- The text of error messages is not modelled.
