/**
 * The keyed registry tables the dimension manager reads and writes.
 *
 * A `RegistryKey` is a pair (registry tag, location); keys are compared
 * structurally, so two keys derived from equal locations for the same
 * registry are the same key, and keys for different registries never meet.
 * A table maps keys to values; the dimension-type table is also read in the
 * reverse direction (from a value to its name), as a bidirectional map does.
 */
module Registries {
  import opened Wrappers

  /** A namespaced identifier `namespace:path`. */
  datatype ResourceLocation = ResourceLocation(namespace: string, path: string)

  /** The registries a key can address. */
  datatype RegistryTag = DimensionKey | WorldKey | DimensionTypeKey | NoiseSettingsKey

  /** A key into one registry: which registry, and the location inside it. */
  datatype RegistryKey = RegistryKey(registry: RegistryTag, location: ResourceLocation)

  /** Derives the key for `location` in `registry`. */
  function GetOrCreateKey(registry: RegistryTag, location: ResourceLocation): RegistryKey
  {
    RegistryKey(registry, location)
  }

  /** Derivation is deterministic and loses nothing: equal keys come from equal arguments. */
  lemma KeyDerivationInjective(r1: RegistryTag, l1: ResourceLocation, r2: RegistryTag, l2: ResourceLocation)
    ensures GetOrCreateKey(r1, l1) == GetOrCreateKey(r2, l2) <==> r1 == r2 && l1 == l2
    ensures GetOrCreateKey(r1, l1).location == l1
  {
  }

  /** The value a table holds under `key`, or None when it holds nothing there. */
  function GetValueForKey<V>(table: map<RegistryKey, V>, key: RegistryKey): Option<V>
  {
    if key in table then Some(table[key]) else None
  }

  /**
   * Registration that never overwrites: the value is stored only when the
   * key has no value yet.
   */
  function InsertIfAbsent<V>(table: map<RegistryKey, V>, key: RegistryKey, value: V): (t: map<RegistryKey, V>)
    ensures t.Keys == table.Keys + {key}
    ensures forall k :: k in table ==> t[k] == table[k]
    ensures key !in table ==> t[key] == value
  {
    if GetValueForKey(table, key) == None then table[key := value] else table
  }

  /** A second registration under the same key changes nothing: the first value stays. */
  lemma InsertIfAbsentKeepsFirst<V>(table: map<RegistryKey, V>, key: RegistryKey, v1: V, v2: V)
    ensures InsertIfAbsent(InsertIfAbsent(table, key, v1), key, v2) == InsertIfAbsent(table, key, v1)
    ensures GetValueForKey(InsertIfAbsent(InsertIfAbsent(table, key, v1), key, v2), key)
         == if key in table then Some(table[key]) else Some(v1)
  {
  }

  /** Registrations under different keys can happen in either order with the same outcome. */
  lemma InsertIfAbsentCommutes<V>(table: map<RegistryKey, V>, k1: RegistryKey, v1: V, k2: RegistryKey, v2: V)
    requires k1 != k2
    ensures InsertIfAbsent(InsertIfAbsent(table, k1, v1), k2, v2) == InsertIfAbsent(InsertIfAbsent(table, k2, v2), k1, v1)
  {
  }

  /** The name a bidirectional table gives to `value`, or None when the value is not registered. */
  function GetKey<V>(names: map<V, ResourceLocation>, value: V): Option<ResourceLocation>
  {
    if value in names then Some(names[value]) else None
  }

  /**
   * `names` is the reverse direction of the table `entries` of the registry
   * tagged `registry`: every named value is stored under its name, and every
   * stored value carries the name it is stored under.
   */
  ghost predicate NamesInverse<V>(registry: RegistryTag, entries: map<RegistryKey, V>, names: map<V, ResourceLocation>)
  {
    && (forall v :: v in names ==> RegistryKey(registry, names[v]) in entries && entries[RegistryKey(registry, names[v])] == v)
    && (forall k :: k in entries ==> entries[k] in names && RegistryKey(registry, names[entries[k]]) == k)
  }

  /** In a bidirectional table two values share a name only when they are the same value. */
  lemma NamesInverseInjective<V>(registry: RegistryTag, entries: map<RegistryKey, V>, names: map<V, ResourceLocation>, a: V, b: V)
    requires NamesInverse(registry, entries, names)
    requires a in names
    ensures GetKey(names, a) == GetKey(names, b) <==> a == b
  {
  }

  /** Looking a value up by the name the table gives it returns that value, and conversely. */
  lemma NamesInverseRoundTrip<V>(registry: RegistryTag, entries: map<RegistryKey, V>, names: map<V, ResourceLocation>, loc: ResourceLocation, v: V)
    requires NamesInverse(registry, entries, names)
    ensures GetValueForKey(entries, GetOrCreateKey(registry, loc)) == Some(v) <==> GetKey(names, v) == Some(loc)
  {
  }
}
