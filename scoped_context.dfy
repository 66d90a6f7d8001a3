/**
 * The ordered name -> value store behind `Context.standard(scope)`, and
 * the process-wide table of one such store per scope string.
 *
 * `plank.context.Context` is not modelled here; it is taken to be an
 * insertion-ordered mapping: `set` on a new key appends the key, `set`
 * on an existing key replaces the value and keeps its position, `keys()`
 * and `values()` follow key order, and nothing is ever removed.
 */
module ScopedContext {
  import opened Wrappers

  /** `order` lists the keys in first-insertion order; `entries` holds their values. */
  datatype Context<V> = Context(order: seq<string>, entries: map<string, V>)

  predicate Distinct(s: seq<string>)
  {
    forall i, j :: 0 <= i < j < |s| ==> s[i] != s[j]
  }

  /** Every listed key has a value. */
  predicate KeysPresent<V>(c: Context<V>)
  {
    forall i :: 0 <= i < |c.order| ==> c.order[i] in c.entries
  }

  /** The key list and the mapping describe the same keys, each listed once. */
  predicate Wellformed<V>(c: Context<V>)
  {
    && Distinct(c.order)
    && KeysPresent(c)
    && (forall k :: k in c.entries ==> k in c.order)
  }

  function Empty<V>(): (c: Context<V>)
    ensures Wellformed(c)
  {
    Context([], map[])
  }

  /** `context.get(key)`: the stored value, or `None` when the key was never set. */
  function Get<V>(c: Context<V>, key: string): (r: Option<V>)
    requires Wellformed(c)
    ensures r.Some? <==> key in c.order
    ensures r.Some? ==> r.value == c.entries[key]
  {
    if key in c.entries then Some(c.entries[key]) else None
  }

  /** `context.values()`: one value per key, in key order. */
  function Values<V>(c: Context<V>): (r: seq<V>)
    requires KeysPresent(c)
    ensures |r| == |c.order|
    ensures forall i :: 0 <= i < |r| ==> r[i] == c.entries[c.order[i]]
    decreases |c.order|
  {
    if c.order == [] then []
    else [c.entries[c.order[0]]] + Values(Context(c.order[1..], c.entries))
  }

  /** `context.set(key, value)`: last write wins, earlier keys keep their positions. */
  function Set<V>(c: Context<V>, key: string, value: V): (r: Context<V>)
    requires Wellformed(c)
    ensures Wellformed(r)
    ensures Get(r, key) == Some(value)
    ensures forall k :: k != key ==> Get(r, k) == Get(c, k)
    ensures c.order <= r.order
    ensures |r.order| == if key in c.order then |c.order| else |c.order| + 1
  {
    Context(if key in c.entries then c.order else c.order + [key], c.entries[key := value])
  }

  /** Setting a new key appends its value at the end of `values()`. */
  lemma ValuesAfterSetNew<V>(c: Context<V>, key: string, value: V)
    requires Wellformed(c) && key !in c.order
    ensures Values(Set(c, key, value)) == Values(c) + [value]
  {
    var r := Set(c, key, value);
    assert r.order == c.order + [key];
    var vr, vc := Values(r), Values(c);
    forall j | 0 <= j < |vr| ensures vr[j] == (vc + [value])[j] {
      if j < |c.order| {
        assert c.order[j] != key;
      }
    }
  }

  /** Overwriting the key at position `i` replaces the value there and nothing else. */
  lemma ValuesAfterSetExisting<V>(c: Context<V>, key: string, value: V, i: nat)
    requires Wellformed(c) && i < |c.order| && c.order[i] == key
    ensures Values(Set(c, key, value)) == Values(c)[i := value]
  {
    var r := Set(c, key, value);
    assert r.order == c.order;
    var vr, vc := Values(r), Values(c);
    forall j | 0 <= j < |vr| ensures vr[j] == vc[i := value][j] {
      if j != i {
        assert c.order[j] != key;
      }
    }
  }

  /** The process-wide table: one context per scope string. */
  type Table<V> = map<string, Context<V>>

  predicate TableWellformed<V>(table: Table<V>)
  {
    forall s :: s in table ==> Wellformed(table[s])
  }

  /**
   * `Context.standard(scope)`: the context for `scope`, created empty on
   * first use. A lazily created empty context is indistinguishable from an
   * absent entry, so reading does not add one.
   */
  function Standard<V>(table: Table<V>, scope: string): (c: Context<V>)
    requires TableWellformed(table)
    ensures Wellformed(c)
    ensures scope !in table ==> c.order == []
  {
    if scope in table then table[scope] else Empty()
  }

  /** `Context.standard(scope).set(key, value)`: only that scope's context changes. */
  function SetIn<V>(table: Table<V>, scope: string, key: string, value: V): (r: Table<V>)
    requires TableWellformed(table)
    ensures TableWellformed(r)
    ensures forall s :: s != scope ==> Standard(r, s) == Standard(table, s)
    ensures Get(Standard(r, scope), key) == Some(value)
    ensures forall k :: k != key ==> Get(Standard(r, scope), k) == Get(Standard(table, scope), k)
    ensures Standard(table, scope).order <= Standard(r, scope).order
  {
    table[scope := Set(Standard(table, scope), key, value)]
  }
}
