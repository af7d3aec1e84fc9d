/**
 * `MetricsService`: named counters for cache hits and misses, 304 responses,
 * optimistic successes and rollbacks (src/app/utils/metrics.service.ts).
 */
module Metrics {

  datatype MetricKey = CacheHits | CacheMisses | Etag304 | OptimisticSuccess | Rollback

  /** The property name a counter has in a snapshot record. */
  function Name(k: MetricKey): string {
    match k
    case CacheHits => "cache_hits"
    case CacheMisses => "cache_misses"
    case Etag304 => "etag_304"
    case OptimisticSuccess => "optimistic_success"
    case Rollback => "rollback"
  }

  lemma NameInjective(a: MetricKey, b: MetricKey)
    ensures Name(a) == Name(b) ==> a == b
  {
  }

  /** `counters.get(k) ?? 0`. */
  function Count(counters: map<MetricKey, int>, k: MetricKey): (n: int)
    ensures k in counters ==> n == counters[k]
    ensures k !in counters ==> n == 0
  {
    if k in counters then counters[k] else 0
  }

  /** The counters after `inc(k, step)`: only `k` moves, and by exactly `step`. */
  function Bumped(counters: map<MetricKey, int>, k: MetricKey, step: int): (r: map<MetricKey, int>)
    ensures r.Keys == counters.Keys + {k}
    ensures Count(r, k) == Count(counters, k) + step
    ensures forall j :: j != k ==> Count(r, j) == Count(counters, j)
  {
    counters[k := Count(counters, k) + step]
  }

  class MetricsService {
    var counters: map<MetricKey, int>

    constructor ()
      ensures counters == map[]
      ensures forall k :: Count(counters, k) == 0
    {
      counters := map[];
    }

    /** `inc(key, by)`, with `step` for `by` (the source defaults it to 1). */
    method Inc(key: MetricKey, step: int)
      modifies this
      ensures counters == Bumped(old(counters), key, step)
    {
      counters := counters[key := Count(counters, key) + step];
    }

    /** `get(key)`: a key never incremented reads as 0. */
    method Get(key: MetricKey) returns (r: int)
      ensures key !in counters ==> r == 0
      ensures key in counters ==> r == counters[key]
    {
      r := if key in counters then counters[key] else 0;
    }

    /** `snapshot()`: a record holding exactly the incremented counters, under their names. */
    method Snapshot() returns (out: map<string, int>)
      ensures out.Keys == set k | k in counters :: Name(k)
      ensures forall k :: k in counters ==> out[Name(k)] == counters[k]
    {
      out := map[];
      var rest := counters.Keys;
      while rest != {}
        invariant rest <= counters.Keys
        invariant out.Keys == set k | k in counters.Keys - rest :: Name(k)
        invariant forall k :: k in counters.Keys - rest ==> out[Name(k)] == counters[k]
        decreases rest
      {
        var k :| k in rest;
        forall j | j in counters.Keys - rest
          ensures Name(j) != Name(k)
        {
          NameInjective(j, k);
        }
        out := out[Name(k) := counters[k]];
        rest := rest - {k};
      }
    }

    /** `reset()`: afterwards every counter reads as 0. */
    method Reset()
      modifies this
      ensures counters == map[]
      ensures forall k :: Count(counters, k) == 0
    {
      counters := map[];
    }
  }
}
