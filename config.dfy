/** The plugin's configuration file: numeric and boolean entries, each
 *  addressed by a section and a key. The file is modelled by the entries it
 *  holds in memory; reading it from disk and writing it back are not. */
module Config {
  datatype Key = Key(section: string, name: string)

  /** The value a binding of `k` yields: the stored one, else the default. */
  function Lookup<V>(entries: map<Key, V>, k: Key, default: V): V
  {
    if k in entries then entries[k] else default
  }

  /** The entries after binding `k`: a missing entry is created with the
   *  default, an existing one is kept as it is. */
  function Bound<V>(entries: map<Key, V>, k: Key, default: V): (e: map<Key, V>)
    ensures e.Keys == entries.Keys + {k}
    ensures e[k] == Lookup(entries, k, default)
    ensures forall k' :: k' in entries ==> e[k'] == entries[k']
  {
    if k in entries then entries else entries[k := default]
  }

  class ConfigFile {
    var reals: map<Key, real>
    var flags: map<Key, bool>

    constructor (reals: map<Key, real>, flags: map<Key, bool>)
      ensures this.reals == reals && this.flags == flags
    {
      this.reals := reals;
      this.flags := flags;
    }

    /** `Bind(section, key, default).Value` for a numeric entry. */
    method BindReal(k: Key, default: real) returns (v: real)
      modifies this
      ensures v == Lookup(old(reals), k, default)
      ensures reals == Bound(old(reals), k, default) && flags == old(flags)
    {
      v := Lookup(reals, k, default);
      reals := Bound(reals, k, default);
    }

    /** `Bind(section, key, default).Value = v` for a numeric entry: whatever
     *  the default, the entry ends up holding `v`. */
    method SetReal(k: Key, v: real)
      modifies this
      ensures reals == old(reals)[k := v] && flags == old(flags)
    {
      reals := reals[k := v];
    }

    /** `Bind(section, key, default).Value` for a boolean entry. */
    method BindFlag(k: Key, default: bool) returns (v: bool)
      modifies this
      ensures v == Lookup(old(flags), k, default)
      ensures flags == Bound(old(flags), k, default) && reals == old(reals)
    {
      v := Lookup(flags, k, default);
      flags := Bound(flags, k, default);
    }

    /** `Bind(section, key, default).Value = v` for a boolean entry. */
    method SetFlag(k: Key, v: bool)
      modifies this
      ensures flags == old(flags)[k := v] && reals == old(reals)
    {
      flags := flags[k := v];
    }
  }
}
