/**
 * The computation cache of the shared backend (`Backend.get_or_compute`): a
 * map from cache key to the result of the first computation under that key
 * that succeeded. A key with a stored result is answered from the map; any
 * other key is computed, and the result is stored only when the computation
 * succeeded, so a failure can be retried. Nothing ever removes a success.
 *
 * The computation is not run here: `computed` is what it yields when it is
 * called. The futures that let concurrent callers of one key share a single
 * computation are a matter of scheduling and are not modelled.
 */
module Backend {
  import opened Wrappers

  /** One call: the cache key and what its computation yields if it runs. */
  datatype Call<V> = Call(key: string, computed: Result<V, string>)

  /** `get_or_compute` on a cache: the answer and the cache afterwards. */
  function Serve<V>(cache: map<string, V>, key: string, computed: Result<V, string>)
    : (r: (Result<V, string>, map<string, V>))
    ensures key in cache ==> r == (Ok(cache[key]), cache)
    ensures key !in cache ==> r.0 == computed
    ensures cache.Keys <= r.1.Keys && forall k :: k in cache ==> r.1[k] == cache[k]
    ensures key in r.1 <==> key in cache || computed.Ok?
    ensures forall k :: k != key ==> (k in r.1 <==> k in cache)
  {
    if key in cache then (Ok(cache[key]), cache)
    else if computed.Ok? then (computed, cache[key := computed.value])
    else (computed, cache)
  }

  /** The answers to a run of calls from a cache, and the cache afterwards. */
  function Replay<V>(cache: map<string, V>, calls: seq<Call<V>>): (r: (seq<Result<V, string>>, map<string, V>))
    ensures |r.0| == |calls|
    decreases |calls|
  {
    if calls == [] then ([], cache)
    else
      var first := Serve(cache, calls[0].key, calls[0].computed);
      var rest := Replay(first.1, calls[1..]);
      ([first.0] + rest.0, rest.1)
  }

  /** A value stored under a key stays there, unchanged, through any run of calls. */
  lemma {:induction false} StoredStays<V>(cache: map<string, V>, calls: seq<Call<V>>, key: string)
    requires key in cache
    ensures key in Replay(cache, calls).1 && Replay(cache, calls).1[key] == cache[key]
    ensures forall j :: 0 <= j < |calls| && calls[j].key == key ==> Replay(cache, calls).0[j] == Ok(cache[key])
    decreases |calls|
  {
    if calls != [] {
      var first := Serve(cache, calls[0].key, calls[0].computed);
      StoredStays(first.1, calls[1..], key);
      forall j | 0 <= j < |calls| && calls[j].key == key ensures Replay(cache, calls).0[j] == Ok(cache[key]) {
        if j > 0 {
          assert calls[1..][j - 1] == calls[j];
        }
      }
    }
  }

  /**
   * A key's first successful answer is the answer to every later call with that
   * key, whatever those calls' own computations would have yielded.
   */
  lemma {:induction false} FirstSuccessIsKept<V>(cache: map<string, V>, calls: seq<Call<V>>, i: nat, j: nat)
    requires i < j < |calls| && calls[i].key == calls[j].key
    requires Replay(cache, calls).0[i].Ok?
    ensures Replay(cache, calls).0[j] == Replay(cache, calls).0[i]
    decreases i
  {
    var first := Serve(cache, calls[0].key, calls[0].computed);
    if i == 0 {
      StoredStays(first.1, calls[1..], calls[0].key);
      assert calls[1..][j - 1] == calls[j];
    } else {
      FirstSuccessIsKept(first.1, calls[1..], i - 1, j - 1);
    }
  }

  /** A failed computation leaves the cache as it was, so the next call with that key computes again. */
  lemma FailureIsRetried<V>(cache: map<string, V>, key: string, failed: string, retry: Result<V, string>)
    requires key !in cache
    ensures var after := Serve(cache, key, Err(failed)).1;
      after == cache && Serve(after, key, retry).0 == retry
  {
  }

  /** The backend's computation cache, updated in place. */
  class Backend<V> {
    var computationCache: map<string, V>

    /** A new backend starts with an empty cache. */
    constructor()
      ensures computationCache == map[]
    {
      computationCache := map[];
    }

    /** `get_or_compute`: the stored answer for a known key, else the computation's, stored when it succeeded. */
    method GetOrCompute(key: string, computed: Result<V, string>) returns (r: Result<V, string>)
      modifies this
      ensures (r, computationCache) == Serve(old(computationCache), key, computed)
    {
      if key in computationCache {
        return Ok(computationCache[key]);
      }
      r := computed;
      if computed.Ok? {
        computationCache := computationCache[key := computed.value];
      }
    }
  }
}
