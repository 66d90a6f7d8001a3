/**
 * The sequencing of `Plugin.load`: the plugin's own `_loading()` hook runs
 * first, and only when it returns is `delegate.plugin_did_load(self)`
 * called. The record of what happened is a log of actions.
 */
module Lifecycle {
  import opened PluginModel

  /**
   * The actions one call of `load` adds to the log; `loadingFails` says
   * whether `_loading()` raised. The `plugin_did_load` call is recorded once
   * it is made, whether or not the delegate's hook then raises.
   */
  function LoadTrace(p: Plugin, loadingFails: bool): (t: seq<Action>)
    ensures loadingFails <==> t == []
    ensures !loadingFails ==> t[|t| - 1] == Notified(p.delegate, PluginDidLoad(p))
  {
    if loadingFails then [] else [LoadingCompleted(p), Notified(p.delegate, PluginDidLoad(p))]
  }

  /** How many times `plugin_did_load` was called about `p`. */
  function DidLoadCount(log: seq<Action>, p: Plugin): (n: nat)
    ensures n <= |log|
    ensures n == 0 <==> forall i :: 0 <= i < |log| ==> log[i].Notified? ==> log[i].call != PluginDidLoad(p)
  {
    if log == [] then 0
    else DidLoadCount(log[..|log| - 1], p) +
         (if log[|log| - 1].Notified? && log[|log| - 1].call == PluginDidLoad(p) then 1 else 0)
  }

  /** Counting distributes over concatenation of logs. */
  lemma {:induction false} DidLoadCountAppend(a: seq<Action>, b: seq<Action>, p: Plugin)
    ensures DidLoadCount(a + b, p) == DidLoadCount(a, p) + DidLoadCount(b, p)
    decreases |b|
  {
    if b != [] {
      assert (a + b)[..|a + b| - 1] == a + b[..|b| - 1];
      DidLoadCountAppend(a, b[..|b| - 1], p);
    } else {
      assert a + b == a;
    }
  }

  /**
   * Every `plugin_did_load(p)` call in the log comes after a completed
   * `_loading()` of `p`.
   */
  predicate LoadingPrecedesNotify(log: seq<Action>)
  {
    forall i :: 0 <= i < |log| && log[i].Notified? && log[i].call.PluginDidLoad? ==>
      exists j :: 0 <= j < i && log[j] == LoadingCompleted(log[i].call.plugin)
  }

  /**
   * One `load` adds exactly one `plugin_did_load(p)` when `_loading()`
   * returns and none when it raises, and keeps the ordering invariant.
   */
  lemma LoadEffect(log: seq<Action>, p: Plugin, loadingFails: bool)
    ensures DidLoadCount(log + LoadTrace(p, loadingFails), p) == DidLoadCount(log, p) + (if loadingFails then 0 else 1)
    ensures LoadingPrecedesNotify(log) ==> LoadingPrecedesNotify(log + LoadTrace(p, loadingFails))
  {
    var t := LoadTrace(p, loadingFails);
    DidLoadCountAppend(log, t, p);
    if !loadingFails {
      assert DidLoadCount(t, p) == DidLoadCount([LoadingCompleted(p)], p) + 1 by {
        assert t[..1] == [LoadingCompleted(p)];
      }
      assert DidLoadCount([LoadingCompleted(p)], p) == 0 by {
        assert [LoadingCompleted(p)][..0] == [];
      }
      if LoadingPrecedesNotify(log) {
        var l := log + t;
        forall i | 0 <= i < |l| && l[i].Notified? && l[i].call.PluginDidLoad?
          ensures exists j :: 0 <= j < i && l[j] == LoadingCompleted(l[i].call.plugin)
        {
          if i < |log| {
            var j :| 0 <= j < i && log[j] == LoadingCompleted(log[i].call.plugin);
            assert l[j] == log[j];
          } else {
            assert l[|log|] == LoadingCompleted(p);
          }
        }
      }
    } else {
      assert log + t == log;
    }
  }
}
