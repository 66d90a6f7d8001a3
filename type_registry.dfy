/**
 * `Plugin.__inherited__`, the process-wide list of plugin types that
 * `__init_subclass__` appends to, and `Plugin.current`, the first-match
 * search over it.
 */
module TypeRegistry {
  import opened Wrappers
  import opened PluginModel

  predicate NoDuplicates(types: seq<PluginType>)
  {
    forall i, j :: 0 <= i < j < |types| ==> types[i] != types[j]
  }

  /**
   * `__init_subclass__`: append `t` unless it is already listed. The result
   * holds exactly the old types and `t`, keeps every old entry at its
   * position, and grows only when `t` is new.
   */
  function Register(inherited: seq<PluginType>, t: PluginType): (r: seq<PluginType>)
    ensures forall u :: u in r <==> u in inherited || u == t
    ensures inherited <= r
    ensures t in inherited ==> r == inherited
    ensures t !in inherited ==> |r| == |inherited| + 1
    ensures NoDuplicates(inherited) ==> NoDuplicates(r)
  {
    if t in inherited then inherited else inherited + [t]
  }

  /** Registration is idempotent: registering a type twice is registering it once. */
  lemma RegisterIdempotent(inherited: seq<PluginType>, t: PluginType)
    ensures Register(Register(inherited, t), t) == Register(inherited, t)
  {
  }

  /** A new type lands at the end of the list. */
  lemma RegisterNewAppends(inherited: seq<PluginType>, t: PluginType)
    requires t !in inherited
    ensures Register(inherited, t) == inherited + [t]
  {
    var r := Register(inherited, t);
    assert r == r[..|inherited|] + [r[|inherited|]];
  }

  /**
   * What each registered type answers to its own `current()`: every
   * concrete type supplies this, and it is taken as given rather than
   * derived from the inherited default.
   */
  type Resolver = PluginType -> Option<Plugin>

  /**
   * `Plugin.current`: the answer of the first type, in registration order,
   * whose resolver answers at all; `None` when none does.
   */
  function FirstCurrent(types: seq<PluginType>, resolve: Resolver): (r: Option<Plugin>)
    ensures r.None? <==> forall i :: 0 <= i < |types| ==> resolve(types[i]).None?
    ensures r.Some? ==> exists i :: 0 <= i < |types| && resolve(types[i]) == r &&
                                    forall j :: 0 <= j < i ==> resolve(types[j]).None?
  {
    if types == [] then None
    else if resolve(types[0]).Some? then resolve(types[0])
    else FirstCurrent(types[1..], resolve)
  }

  /**
   * Searching `a + b` finds `a`'s answer when `a` has one, and `b`'s
   * otherwise.
   */
  lemma {:induction false} FirstCurrentAppend(a: seq<PluginType>, b: seq<PluginType>, resolve: Resolver)
    ensures FirstCurrent(a + b, resolve) ==
            if FirstCurrent(a, resolve).Some? then FirstCurrent(a, resolve) else FirstCurrent(b, resolve)
  {
    if a == [] {
      assert a + b == b;
    } else if resolve(a[0]).None? {
      assert (a + b)[1..] == a[1..] + b;
      FirstCurrentAppend(a[1..], b, resolve);
    }
  }

  /** Registering another type never changes a current instance that was already found. */
  lemma CurrentStableUnderRegister(inherited: seq<PluginType>, t: PluginType, resolve: Resolver)
    requires FirstCurrent(inherited, resolve).Some?
    ensures FirstCurrent(Register(inherited, t), resolve) == FirstCurrent(inherited, resolve)
  {
    if t !in inherited {
      RegisterNewAppends(inherited, t);
      FirstCurrentAppend(inherited, [t], resolve);
    }
  }

  /**
   * Registering `a`, which has no current instance, and then `b`, whose
   * current instance is `p`, makes `p` the current instance.
   */
  lemma CurrentFallsThrough(a: PluginType, b: PluginType, p: Plugin, resolve: Resolver)
    requires a != b && resolve(a).None? && resolve(b) == Some(p)
    ensures FirstCurrent(Register(Register([], a), b), resolve) == Some(p)
  {
    RegisterNewAppends([], a);
    RegisterNewAppends([a], b);
  }
}
