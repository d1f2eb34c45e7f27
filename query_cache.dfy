/** The react-query cache as the client uses it: a map from query keys to the
    last value written, plus the set of keys marked stale by an invalidation.
    Fetch scheduling, cancellation and subscriber notification belong to the
    library and are not modelled. */
module QueryCache {
  import opened Wrappers

  /** One element of a query key array; `Undefined` is a JavaScript `undefined`
      element (as in `["comments", undefined]`). */
  datatype KeyPart = Str(s: string) | Undefined

  type QueryKey = seq<KeyPart>

  /** react-query's partial key match: a filter key selects every key it is a prefix of. */
  predicate Matches(filter: QueryKey, key: QueryKey) {
    filter <= key
  }

  /** The keys of `entries` selected by `filter`. */
  function MatchingKeys<V>(entries: map<QueryKey, V>, filter: QueryKey): (ks: set<QueryKey>)
    ensures forall k :: k in ks <==> k in entries && Matches(filter, k)
  {
    set k | k in entries && Matches(filter, k)
  }

  class Cache<V> {
    var entries: map<QueryKey, V>
    var stale: set<QueryKey>

    constructor ()
      ensures entries == map[] && stale == {}
    {
      entries := map[];
      stale := {};
    }

    /** `getQueryData(key)`. */
    function Get(key: QueryKey): (r: Option<V>)
      reads this
      ensures r.Some? <==> key in entries
      ensures r.Some? ==> r.value == entries[key]
    {
      if key in entries then Some(entries[key]) else None
    }

    /** `setQueryData(key, value)`: the entry holds `value` and is fresh again. */
    method SetQueryData(key: QueryKey, value: V)
      modifies this
      ensures entries == old(entries)[key := value]
      ensures stale == old(stale) - {key}
    {
      entries := entries[key := value];
      stale := stale - {key};
    }

    /** `invalidateQueries({ queryKey: filter })`: every matching entry is marked
        stale; no value changes. */
    method InvalidateQueries(filter: QueryKey)
      modifies this
      ensures entries == old(entries)
      ensures stale == old(stale) + MatchingKeys(old(entries), filter)
    {
      stale := stale + MatchingKeys(entries, filter);
    }

    /** `removeQueries({ queryKey: filter })`: every matching entry is dropped. */
    method RemoveQueries(filter: QueryKey)
      modifies this
      ensures entries == map k | k in old(entries) && !Matches(filter, k) :: old(entries)[k]
      ensures stale == old(stale) - MatchingKeys(old(entries), filter)
      ensures forall k :: k in old(entries) && Matches(filter, k) ==> k !in entries
    {
      var gone := MatchingKeys(entries, filter);
      entries := map k | k in entries && !Matches(filter, k) :: entries[k];
      stale := stale - gone;
    }
  }
}
