/**
 * Pure operations over the per-layer cache of a session, as the Rust client
 * does them on its `HashMap`: the window sent with a forward call, the strip
 * sent with begin/end calls, and the merge that folds a returned cache back.
 */
module CacheLedger {
  import opened Types

  /** Layer `layer` lies in the window of `n` layers starting at `k`. */
  predicate InWindow(layer: nat, k: nat, n: nat)
  {
    k <= layer < k + n
  }

  /** The part of `cache` a forward call from `state` with chunk `n` needs. */
  function Window(cache: Cache, state: ModelRunState, n: nat): (w: Cache)
    ensures forall layer :: layer in w ==> layer in cache && w[layer] == cache[layer]
    ensures state.Steps? ==>
      forall layer :: layer in w <==> layer in cache && InWindow(layer, state.step, n)
    ensures !state.Steps? ==> w == map[]
  {
    match state
    case Steps(k) => map layer | layer in cache && InWindow(layer, k, n) :: cache[layer]
    case _ => map[]
  }

  /** Per-key union where `update` wins on shared keys. */
  function Merge(base: Cache, update: Cache): (m: Cache)
    ensures m.Keys == base.Keys + update.Keys
    ensures forall layer :: layer in update ==> m[layer] == update[layer]
    ensures forall layer :: layer in base && layer !in update ==> m[layer] == base[layer]
  {
    base + update
  }

  /** `get_reduced_session`: the session with its cache cut down to the window of `run`. */
  function ReducedSession(s: Session, run: ModelRun, n: nat): (r: Session)
    ensures SameNonCache(r, s)
    ensures r.caches == Window(s.caches, run.state, n)
  {
    s.(caches := Window(s.caches, run.state, n))
  }

  /** `get_simple_session`: the session with an empty cache. */
  function SimpleSession(s: Session): (r: Session)
    ensures SameNonCache(r, s)
    ensures r.caches == map[]
  {
    s.(caches := map[])
  }

  /** `update_session`: the base session with the update's cache merged on top. */
  function UpdateSession(base: Session, update: Session): (r: Session)
    ensures SameNonCache(r, base)
    ensures r.caches == Merge(base.caches, update.caches)
  {
    base.(caches := Merge(base.caches, update.caches))
  }

  /**
   * `update_session` as written: insert every base entry, then every update
   * entry, into a fresh map. HashMap iteration order is arbitrary, so each loop
   * picks its next key nondeterministically; the result does not depend on it.
   */
  method MergeByInsertion(base: Cache, update: Cache) returns (kv: Cache)
    ensures kv.Keys == base.Keys + update.Keys
    ensures forall layer :: layer in update ==> kv[layer] == update[layer]
    ensures forall layer :: layer in base && layer !in update ==> kv[layer] == base[layer]
  {
    kv := map[];
    var todo := base.Keys;
    while todo != {}
      invariant todo <= base.Keys
      invariant kv.Keys == base.Keys - todo
      invariant forall layer :: layer in kv ==> kv[layer] == base[layer]
      decreases todo
    {
      var layer :| layer in todo;
      kv := kv[layer := base[layer]];
      todo := todo - {layer};
    }
    todo := update.Keys;
    while todo != {}
      invariant todo <= update.Keys
      invariant kv.Keys == base.Keys + (update.Keys - todo)
      invariant forall layer :: layer in update.Keys - todo ==> kv[layer] == update[layer]
      invariant forall layer :: layer in base && layer !in update.Keys - todo ==> kv[layer] == base[layer]
      decreases todo
    {
      var layer :| layer in todo;
      kv := kv[layer := update[layer]];
      todo := todo - {layer};
    }
  }

  // ---- Laws of the ledger ----

  /** Every layer sent in a window lies in `[k, k+n)`. */
  lemma WindowContained(cache: Cache, k: nat, n: nat)
    ensures forall layer :: layer in Window(cache, Steps(k), n) ==> k <= layer < k + n
  {
  }

  /** Windowing a windowed cache again changes nothing. */
  lemma WindowIdempotent(cache: Cache, state: ModelRunState, n: nat)
    ensures Window(Window(cache, state, n), state, n) == Window(cache, state, n)
  {
  }

  /** Windowing distributes over merging. */
  lemma WindowOfMerge(a: Cache, b: Cache, state: ModelRunState, n: nat)
    ensures Window(Merge(a, b), state, n) == Merge(Window(a, state, n), Window(b, state, n))
  {
  }

  /** Merging a window of the cache back into it leaves the cache as it was. */
  lemma MergeWindowBack(cache: Cache, state: ModelRunState, n: nat)
    ensures Merge(cache, Window(cache, state, n)) == cache
  {
  }

  /** `merge(c, c) = c`. */
  lemma MergeIdempotent(c: Cache)
    ensures Merge(c, c) == c
  {
  }

  /** An empty update leaves the base as it was; an empty base yields the update. */
  lemma MergeEmpty(c: Cache)
    ensures Merge(c, map[]) == c
    ensures Merge(map[], c) == c
  {
  }

  /** Merging is associative, so a run of merges may be regrouped. */
  lemma MergeAssociative(a: Cache, b: Cache, c: Cache)
    ensures Merge(Merge(a, b), c) == Merge(a, Merge(b, c))
  {
  }

  /** Stripping a session and merging its cache back restores it. */
  lemma StripThenRestore(s: Session)
    ensures UpdateSession(SimpleSession(s), s) == s
    ensures UpdateSession(s, SimpleSession(s)) == s
  {
  }

  /** Outside `Steps`, the window is the strip. */
  lemma ReducedIsSimpleWhenNotStepping(s: Session, run: ModelRun, n: nat)
    requires !run.state.Steps?
    ensures ReducedSession(s, run, n) == SimpleSession(s)
  {
  }
}
