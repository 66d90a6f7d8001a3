/**
 * The process-wide state the `Plugin` class works on: the class-level list
 * `Plugin.__inherited__`, the table of standard contexts, and the log of
 * lifecycle actions and delegate calls. The methods are the operations of
 * `Plugin` that change that state, plus the `current` search loop.
 */
module PluginRuntime {
  import opened Wrappers
  import opened PluginModel
  import opened ScopedContext
  import opened TypeRegistry
  import opened Lifecycle

  class Runtime {
    var inherited: seq<PluginType>
    var contexts: Table<Plugin>
    var log: seq<Action>

    ghost predicate Valid()
      reads this
    {
      && NoDuplicates(inherited)
      && TableWellformed(contexts)
      && LoadingPrecedesNotify(log)
    }

    /** The state at import time: nothing registered, no contexts, no calls. */
    constructor ()
      ensures Valid()
      ensures inherited == [] && contexts == map[] && log == []
    {
      inherited := [];
      contexts := map[];
      log := [];
    }

    /** `Plugin.__init_subclass__`: register `t` once. */
    method Register(t: PluginType)
      requires Valid()
      modifies this`inherited
      ensures Valid()
      ensures inherited == TypeRegistry.Register(old(inherited), t)
    {
      if t !in inherited {
        inherited := inherited + [t];
      }
    }

    /**
     * `Plugin.current`: ask each registered type in order and return the
     * first answer that is not `None`.
     */
    method Current(resolve: Resolver) returns (r: Option<Plugin>)
      ensures r == FirstCurrent(inherited, resolve)
    {
      var i := 0;
      while i < |inherited|
        invariant 0 <= i <= |inherited|
        invariant FirstCurrent(inherited[i..], resolve) == FirstCurrent(inherited, resolve)
      {
        var plugin := resolve(inherited[i]);
        if plugin.Some? {
          return plugin;
        }
        assert inherited[i..][1..] == inherited[i + 1..];
        i := i + 1;
      }
      return None;
    }

    /**
     * `Plugin.install(context)`: store `p` under its name in the context
     * whose scope is `scope`, then run the `did_install` hook. No delegate
     * is called.
     */
    method Install(p: Plugin, scope: string)
      requires Valid()
      modifies this`contexts
      ensures Valid()
      ensures contexts == SetIn(old(contexts), scope, p.name, p)
    {
      contexts := SetIn(contexts, scope, p.name, p);
      DidInstall(p);
    }

    /**
     * `Plugin.load`: run `_loading()`; if it raises, the error propagates
     * and nothing more happens; otherwise call the delegate's
     * `plugin_did_load`. That call is logged once it is made; if the hook
     * raises (`delegateFails`), nothing catches it and `load` fails with it.
     */
    method Load(p: Plugin, loadingFails: bool, delegateFails: bool) returns (outcome: Outcome<TransitionFailure>)
      requires Valid()
      modifies this`log
      ensures Valid()
      ensures outcome == if loadingFails then Fail(LoadingRaised(p))
                         else if delegateFails then Fail(DelegateRaised(p))
                         else Pass
      ensures log == old(log) + LoadTrace(p, loadingFails)
      ensures DidLoadCount(log, p) == DidLoadCount(old(log), p) + (if loadingFails then 0 else 1)
    {
      LoadEffect(log, p, loadingFails);
      if loadingFails {
        return Fail(LoadingRaised(p));
      }
      log := log + [LoadingCompleted(p), Notified(p.delegate, PluginDidLoad(p))];
      if delegateFails {
        return Fail(DelegateRaised(p));
      }
      outcome := Pass;
    }

    /** `Plugin.unload`: a hook that does nothing. */
    method Unload(p: Plugin)
      ensures unchanged(this)
    {
    }

    /** `Plugin.did_install`: a hook that does nothing. */
    method DidInstall(p: Plugin)
      ensures unchanged(this)
    {
    }

    /** `Plugin.did_discover`: a hook that does nothing. */
    method DidDiscover(p: Plugin)
      ensures unchanged(this)
    {
    }
  }
}
