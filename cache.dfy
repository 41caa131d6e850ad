/** The response cache: a key/value store changed in place, pattern
    invalidation, and the GET middleware's hit/miss/store rule. Time to
    live and expiry are not part of this model. */
module Cache {
  import opened Collections
  import opened Text

  /** The entries whose key does not contain `pattern` as a substring. */
  function WithoutPattern<V>(m: map<string, V>, pattern: string): (r: map<string, V>)
    ensures forall k :: k in r <==> k in m && !Includes(k, pattern)
    ensures forall k :: k in r ==> r[k] == m[k]
  {
    map k | k in m && !Includes(k, pattern) :: m[k]
  }

  /** The entries left after `delByPattern` for each pattern in turn. */
  function InvalidateAll<V>(m: map<string, V>, patterns: seq<string>): map<string, V>
  {
    if patterns == [] then m
    else WithoutPattern(InvalidateAll(m, patterns[..|patterns| - 1]), patterns[|patterns| - 1])
  }

  /** A key survives invalidation iff it contains none of the patterns;
      surviving values are untouched. */
  lemma {:induction false} InvalidateAllSpec<V>(m: map<string, V>, patterns: seq<string>)
    ensures forall k :: k in InvalidateAll(m, patterns)
                        <==> k in m && forall i :: 0 <= i < |patterns| ==> !Includes(k, patterns[i])
    ensures forall k :: k in InvalidateAll(m, patterns) ==> InvalidateAll(m, patterns)[k] == m[k]
  {
    if patterns != [] {
      var front := patterns[..|patterns| - 1];
      InvalidateAllSpec(m, front);
      forall k | k in m
        ensures (forall i :: 0 <= i < |patterns| ==> !Includes(k, patterns[i]))
                <==> (forall i :: 0 <= i < |front| ==> !Includes(k, front[i]))
                     && !Includes(k, patterns[|patterns| - 1])
      {
        if forall i :: 0 <= i < |front| ==> !Includes(k, front[i]) {
          if !Includes(k, patterns[|patterns| - 1]) {
            forall i | 0 <= i < |patterns| ensures !Includes(k, patterns[i]) {
              if i < |front| {
                assert patterns[i] == front[i];
              }
            }
          }
        }
      }
    }
  }

  /** The key under which the middleware caches a GET response. */
  function CacheKey(url: string): (k: string)
    ensures |k| == 6 + |url| && k[6..] == url
  {
    "cache:" + url
  }

  /** What the middleware does before the handler runs. */
  datatype CacheStep<V> =
    | PassThrough      // not a GET: the cache is neither read nor written
    | Hit(body: V)     // the stored response is sent, the handler does not run
    | Miss(key: string) // the handler runs; its reply is stored if the status is 200

  /** The node-cache instance behind the service. Every stored value is a
      JSON response body, an object, so a present key is a truthy hit. */
  class CacheService<V> {
    var entries: map<string, V>

    constructor ()
      ensures entries == map[]
    {
      entries := map[];
    }

    /** `get(key)`. */
    function Get(key: string): (r: Option<V>)
      reads this
      ensures r.Some? <==> key in entries
      ensures r.Some? ==> r.value == entries[key]
    {
      if key in entries then Some(entries[key]) else None
    }

    /** `set(key, value)`: afterwards `Get(key)` is `value`. */
    method Set(key: string, value: V)
      modifies this
      ensures entries == old(entries)[key := value]
      ensures Get(key) == Some(value)
    {
      entries := entries[key := value];
    }

    /** `del(key)`: only that key goes. */
    method Del(key: string)
      modifies this
      ensures entries == old(entries) - {key}
      ensures Get(key).None?
    {
      entries := entries - {key};
    }

    /** `delByPattern(pattern)`: the keys containing `pattern` go, every
        other key keeps its value. */
    method DelByPattern(pattern: string)
      modifies this
      ensures entries == WithoutPattern(old(entries), pattern)
    {
      var matching := set k | k in entries && Includes(k, pattern);
      entries := entries - matching;
    }

    /** `flush()`. */
    method Flush()
      modifies this
      ensures entries == map[]
    {
      entries := map[];
    }

    /** `invalidateCache(patterns)`: `delByPattern` for each pattern in turn. */
    method InvalidateCache(patterns: seq<string>)
      modifies this
      ensures entries == InvalidateAll(old(entries), patterns)
    {
      var i := 0;
      while i < |patterns|
        invariant 0 <= i <= |patterns|
        invariant entries == InvalidateAll(old(entries), patterns[..i])
      {
        assert patterns[..i + 1][..i] == patterns[..i];
        DelByPattern(patterns[i]);
        i := i + 1;
      }
      assert patterns[..i] == patterns;
    }

    /** The middleware before the handler: only GET requests use the
        cache, and a stored response under `cache:<url>` is a hit. */
    function Lookup(httpMethod: string, url: string): (r: CacheStep<V>)
      reads this
      ensures httpMethod != "GET" ==> r.PassThrough?
      ensures httpMethod == "GET" ==> (r.Hit? <==> CacheKey(url) in entries)
      ensures r.Hit? ==> r.body == entries[CacheKey(url)]
      ensures r.Miss? ==> r.key == CacheKey(url) && r.key !in entries
    {
      if httpMethod != "GET" then PassThrough
      else if CacheKey(url) in entries then Hit(entries[CacheKey(url)])
      else Miss(CacheKey(url))
    }

    /** The overridden `res.json` on a miss: store only a 200 reply. */
    method Record(key: string, status: nat, body: V)
      modifies this
      ensures status == 200 ==> entries == old(entries)[key := body]
      ensures status != 200 ==> entries == old(entries)
    {
      if status == 200 {
        Set(key, body);
      }
    }
  }
}
