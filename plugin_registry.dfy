/**
 * The per-type store of installed plugins: `Plugin.installed`,
 * `Plugin.plugin(name)` and the write done by `Plugin.install`. A type's
 * registry is the standard context of its qualified name.
 */
module PluginRegistry {
  import opened Wrappers
  import opened PluginModel
  import opened ScopedContext

  /** The context `Context.standard(t.__qualname__)` that `installed` and `plugin` read. */
  function RegistryOf(table: Table<Plugin>, t: PluginType): (c: Context<Plugin>)
    requires TableWellformed(table)
    ensures Wellformed(c)
    ensures t.qualname !in table ==> c.order == []
  {
    Standard(table, t.qualname)
  }

  /** `Plugin.installed()`: the stored plugins, one per installed name, in name order. */
  function Installed(table: Table<Plugin>, t: PluginType): (r: seq<Plugin>)
    requires TableWellformed(table)
    ensures |r| == |RegistryOf(table, t).order|
    ensures forall i :: 0 <= i < |r| ==> Get(RegistryOf(table, t), RegistryOf(table, t).order[i]) == Some(r[i])
  {
    Values(RegistryOf(table, t))
  }

  /**
   * `Plugin.plugin(name)`: raises `KeyError` exactly when `name` is not among
   * the registry's keys, and otherwise returns what is stored under it.
   */
  function PluginNamed(table: Table<Plugin>, t: PluginType, name: string): (r: Result<Plugin, LookupError>)
    requires TableWellformed(table)
    ensures r.Failure? <==> name !in RegistryOf(table, t).order
    ensures r.Failure? ==> r.error == KeyError(t.qualname, name)
    ensures r.Success? ==> Get(RegistryOf(table, t), name) == Some(r.value)
  {
    var context := RegistryOf(table, t);
    if name !in context.order then Failure(KeyError(t.qualname, name))
    else Success(context.entries[name])
  }

  /** The write of `Plugin.install(context)`: `p` under its own name, in the scope given. */
  function InstallInto(table: Table<Plugin>, scope: string, p: Plugin): (r: Table<Plugin>)
    requires TableWellformed(table)
    ensures TableWellformed(r)
    ensures Get(Standard(r, scope), p.name) == Some(p)
    ensures forall s :: s != scope ==> Standard(r, s) == Standard(table, s)
  {
    SetIn(table, scope, p.name, p)
  }

  /** Once `p` is installed into its type's own scope, `plugin(p.name)` returns it. */
  lemma PluginAfterInstall(table: Table<Plugin>, t: PluginType, p: Plugin)
    requires TableWellformed(table)
    ensures PluginNamed(InstallInto(table, t.qualname, p), t, p.name) == Success(p)
  {
  }

  /**
   * Installing into any other scope (a context the caller passed that is
   * not the type's standard one) is invisible to `plugin` and `installed`.
   */
  lemma InstallElsewhereInvisible(table: Table<Plugin>, scope: string, p: Plugin, t: PluginType, name: string)
    requires TableWellformed(table) && scope != t.qualname
    ensures PluginNamed(InstallInto(table, scope, p), t, name) == PluginNamed(table, t, name)
    ensures Installed(InstallInto(table, scope, p), t) == Installed(table, t)
  {
  }

  /** Installing leaves every other name's lookup as it was. */
  lemma InstallKeepsOtherNames(table: Table<Plugin>, t: PluginType, p: Plugin, name: string)
    requires TableWellformed(table) && name != p.name
    ensures PluginNamed(InstallInto(table, t.qualname, p), t, name) == PluginNamed(table, t, name)
  {
  }

  /**
   * `installed()` after an install into the type's scope: a new name adds
   * `p` at the end; a name already present has its plugin replaced in place
   * (last write wins), so the list does not grow.
   */
  lemma InstalledAfterInstall(table: Table<Plugin>, t: PluginType, p: Plugin)
    requires TableWellformed(table)
    ensures p.name !in RegistryOf(table, t).order ==>
      Installed(InstallInto(table, t.qualname, p), t) == Installed(table, t) + [p]
    ensures forall i :: 0 <= i < |RegistryOf(table, t).order| && RegistryOf(table, t).order[i] == p.name ==>
      Installed(InstallInto(table, t.qualname, p), t) == Installed(table, t)[i := p]
  {
    var c := RegistryOf(table, t);
    assert RegistryOf(InstallInto(table, t.qualname, p), t) == Set(c, p.name, p);
    if p.name !in c.order {
      ValuesAfterSetNew(c, p.name, p);
    }
    forall i | 0 <= i < |c.order| && c.order[i] == p.name
      ensures Installed(InstallInto(table, t.qualname, p), t) == Installed(table, t)[i := p]
    {
      ValuesAfterSetExisting(c, p.name, p, i);
    }
  }

  /**
   * Two plugins with distinct names installed into an empty registry are
   * exactly what `installed()` lists, and each is found by its name.
   */
  lemma InstallTwo(table: Table<Plugin>, t: PluginType, p1: Plugin, p2: Plugin)
    requires TableWellformed(table) && RegistryOf(table, t).order == [] && p1.name != p2.name
    ensures Installed(InstallInto(InstallInto(table, t.qualname, p1), t.qualname, p2), t) == [p1, p2]
    ensures PluginNamed(InstallInto(InstallInto(table, t.qualname, p1), t.qualname, p2), t, p1.name) == Success(p1)
    ensures PluginNamed(InstallInto(InstallInto(table, t.qualname, p1), t.qualname, p2), t, p2.name) == Success(p2)
  {
    var once := InstallInto(table, t.qualname, p1);
    InstalledAfterInstall(table, t, p1);
    InstalledAfterInstall(once, t, p2);
    InstallKeepsOtherNames(once, t, p2, p1.name);
    PluginAfterInstall(once, t, p2);
  }

  /**
   * The registry is keyed by the qualified name alone, so two distinct types
   * with the same `__qualname__` (from different modules) share one registry.
   */
  lemma SameQualnameSharesRegistry(table: Table<Plugin>, a: PluginType, b: PluginType, p: Plugin)
    requires TableWellformed(table) && a.qualname == b.qualname
    ensures PluginNamed(InstallInto(table, a.qualname, p), b, p.name) == Success(p)
    ensures Installed(table, a) == Installed(table, b)
  {
  }
}
