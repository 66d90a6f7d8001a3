/**
 * `Plugin.services`: each instance's service manager is the shared one
 * for the scope string `"<ClassName>.<name>"`. The manager is modelled by
 * its scope string; the stores behind those scopes by a context table.
 */
module Services {
  import opened PluginModel
  import opened ScopedContext

  /** The scope string: the class's `__name__` (not its qualified name), a dot, the plugin's name. */
  function ServicesScope(p: Plugin): (s: string)
    ensures |s| == |p.kind.name| + 1 + |p.name|
    ensures s[..|p.kind.name|] == p.kind.name
    ensures s[|p.kind.name|] == '.'
    ensures s[|p.kind.name| + 1..] == p.name
  {
    p.kind.name + "." + p.name
  }

  /** Two instances of one class with different names get different scopes. */
  lemma DistinctNamesDistinctScopes(p: Plugin, q: Plugin)
    requires p.kind.name == q.kind.name && p.name != q.name
    ensures ServicesScope(p) != ServicesScope(q)
  {
  }

  /**
   * Class names contain no dot, so the scope string determines both the
   * class name and the plugin's name.
   */
  lemma ServicesScopeInjective(p: Plugin, q: Plugin)
    requires '.' !in p.kind.name && '.' !in q.kind.name
    ensures ServicesScope(p) == ServicesScope(q) <==> p.kind.name == q.kind.name && p.name == q.name
  {
  }

  /**
   * Writing a service into one instance's scope leaves the scope of
   * another instance of the same class, with a different name, untouched.
   */
  lemma ServiceScopesIndependent<V>(table: Table<V>, p: Plugin, q: Plugin, key: string, value: V)
    requires TableWellformed(table)
    requires p.kind.name == q.kind.name && p.name != q.name
    ensures Standard(SetIn(table, ServicesScope(p), key, value), ServicesScope(q)) == Standard(table, ServicesScope(q))
  {
    DistinctNamesDistinctScopes(p, q);
  }
}
