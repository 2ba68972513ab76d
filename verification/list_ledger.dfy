/**
 * The TypeScript client's cache representation: `k_v_caches` is an array of
 * `[layer, [key, value]]` pairs. `get_reduced_session` filters it in place
 * order, `updateSession` folds both arrays into a plain object keyed by layer
 * (later entries overwrite earlier ones) and reads it back with
 * `Object.entries`, which lists integer keys in ascending order.
 * `ToMap` is the abstraction to the Rust client's map; the lemmas here show
 * that the array operations agree with the map operations of CacheLedger.
 */
module ListLedger {
  import opened Types
  import opened CacheLedger

  type Entry = (nat, KV)
  type CacheList = seq<Entry>

  /** The layers an array mentions. */
  function KeysOf(xs: CacheList): set<nat>
  {
    set i | 0 <= i < |xs| :: xs[i].0
  }

  /** No layer occurs twice. */
  predicate NoDupKeys(xs: CacheList)
  {
    forall i, j :: 0 <= i < j < |xs| ==> xs[i].0 != xs[j].0
  }

  /** Layers strictly ascending, the order `Object.entries` yields integer keys in. */
  predicate Ascending(xs: CacheList)
  {
    forall i, j :: 0 <= i < j < |xs| ==> xs[i].0 < xs[j].0
  }

  /** The layers of an array with one more entry in front. */
  lemma KeysOfCons(e: Entry, xs: CacheList)
    ensures KeysOf([e] + xs) == {e.0} + KeysOf(xs)
  {
    var r := [e] + xs;
    assert r[0].0 == e.0;
    forall layer | layer in KeysOf(r) ensures layer in {e.0} + KeysOf(xs) {
      var i :| 0 <= i < |r| && r[i].0 == layer;
      if i > 0 { assert r[i] == xs[i - 1]; }
    }
    forall layer | layer in KeysOf(xs) ensures layer in KeysOf(r) {
      var i :| 0 <= i < |xs| && xs[i].0 == layer;
      assert r[i + 1] == xs[i];
    }
  }

  /** `xs.forEach(([key, value]) => acc[key] = value)` starting from `acc = m`. */
  function InsertAll(m: Cache, xs: CacheList): (r: Cache)
    ensures r.Keys == m.Keys + KeysOf(xs)
    decreases |xs|
  {
    if xs == [] then m
    else
      assert xs == [xs[0]] + xs[1..];
      KeysOfCons(xs[0], xs[1..]);
      InsertAll(m[xs[0].0 := xs[0].1], xs[1..])
  }

  /** Entries for layers the array never mentions keep their value. */
  lemma {:induction false} InsertAllUntouched(m: Cache, xs: CacheList, layer: nat)
    requires layer in m && layer !in KeysOf(xs)
    ensures InsertAll(m, xs)[layer] == m[layer]
    decreases |xs|
  {
    if xs != [] {
      assert xs == [xs[0]] + xs[1..];
      KeysOfCons(xs[0], xs[1..]);
      InsertAllUntouched(m[xs[0].0 := xs[0].1], xs[1..], layer);
    }
  }

  /** The last occurrence of a layer in the array decides its value in the fold. */
  lemma {:induction false} InsertAllLastWins(m: Cache, xs: CacheList, i: nat)
    requires i < |xs|
    requires forall j :: i < j < |xs| ==> xs[j].0 != xs[i].0
    ensures xs[i].0 in InsertAll(m, xs) && InsertAll(m, xs)[xs[i].0] == xs[i].1
    decreases |xs|
  {
    var e := xs[0];
    if i == 0 {
      assert xs[0].0 !in KeysOf(xs[1..]) by {
        forall k | 0 <= k < |xs[1..]| ensures xs[1..][k].0 != xs[0].0 {
          assert xs[1..][k] == xs[k + 1];
        }
      }
      InsertAllUntouched(m[e.0 := e.1], xs[1..], e.0);
    } else {
      forall j | i - 1 < j < |xs[1..]| ensures xs[1..][j].0 != xs[1..][i - 1].0 {
        assert xs[1..][j] == xs[j + 1];
      }
      InsertAllLastWins(m[e.0 := e.1], xs[1..], i - 1);
    }
  }

  /** The object an array reduces to: the map it stands for, later entries winning. */
  function ToMap(xs: CacheList): (m: Cache)
    ensures m.Keys == KeysOf(xs)
  {
    InsertAll(map[], xs)
  }

  /** Folding an array into a map merges the array's map on top of it. */
  lemma {:induction false} InsertAllIsMerge(m: Cache, xs: CacheList)
    ensures InsertAll(m, xs) == Merge(m, ToMap(xs))
    decreases |xs|
  {
    if xs != [] {
      var e := xs[0];
      var single: Cache := map[e.0 := e.1];
      var rest := ToMap(xs[1..]);
      InsertAllIsMerge(m[e.0 := e.1], xs[1..]);
      InsertAllIsMerge(single, xs[1..]);
      UpdateIsMerge(m, e.0, e.1);
      MergeAssociative(m, single, rest);
    }
  }

  /** Setting one layer is merging a one-layer map on top. */
  lemma UpdateIsMerge(m: Cache, layer: nat, kv: KV)
    ensures m[layer := kv] == Merge(m, map[layer := kv])
    ensures map[][layer := kv] == map[layer := kv]
  {
  }

  /** Appending arrays merges their maps: the later array wins. */
  lemma {:induction false} ToMapAppend(a: CacheList, b: CacheList)
    ensures ToMap(a + b) == Merge(ToMap(a), ToMap(b))
  {
    InsertAllOfAppend(map[], a, b);
    InsertAllIsMerge(ToMap(a), b);
  }

  lemma {:induction false} InsertAllOfAppend(m: Cache, a: CacheList, b: CacheList)
    ensures InsertAll(m, a + b) == InsertAll(InsertAll(m, a), b)
    decreases |a|
  {
    if a == [] {
      assert a + b == b;
    } else {
      assert (a + b)[1..] == a[1..] + b;
      InsertAllOfAppend(m[a[0].0 := a[0].1], a[1..], b);
    }
  }

  /** The last occurrence of a layer in the array decides its value. */
  lemma ToMapLastWins(xs: CacheList, i: nat)
    requires i < |xs|
    requires forall j :: i < j < |xs| ==> xs[j].0 != xs[i].0
    ensures xs[i].0 in ToMap(xs) && ToMap(xs)[xs[i].0] == xs[i].1
  {
    InsertAllLastWins(map[], xs, i);
  }

  // ---- get_reduced_session on arrays ----

  /** `k_v_caches.filter(([layer]) => k <= layer < k + n)`. */
  function FilterWindow(xs: CacheList, k: nat, n: nat): (r: CacheList)
    ensures |r| <= |xs|
    ensures forall e :: e in r <==> e in xs && InWindow(e.0, k, n)
    decreases |xs|
  {
    if xs == [] then []
    else if InWindow(xs[0].0, k, n) then [xs[0]] + FilterWindow(xs[1..], k, n)
    else FilterWindow(xs[1..], k, n)
  }

  /** The TypeScript `get_reduced_session` on the cache array. */
  function ReduceList(xs: CacheList, state: ModelRunState, n: nat): (r: CacheList)
    ensures state.Steps? ==> forall e :: e in r <==> e in xs && InWindow(e.0, state.step, n)
    ensures !state.Steps? ==> r == []
  {
    match state
    case Steps(k) => FilterWindow(xs, k, n)
    case _ => []
  }

  /** Filtering keeps the original order: it distributes over concatenation. */
  lemma {:induction false} FilterWindowAppend(a: CacheList, b: CacheList, k: nat, n: nat)
    ensures FilterWindow(a + b, k, n) == FilterWindow(a, k, n) + FilterWindow(b, k, n)
    decreases |a|
  {
    if a == [] {
      assert a + b == b;
    } else {
      assert (a + b)[1..] == a[1..] + b;
      FilterWindowAppend(a[1..], b, k, n);
    }
  }

  /** Writing one entry commutes with windowing: it lands in the window or is dropped. */
  lemma WindowUpdate(m: Cache, e: Entry, k: nat, n: nat)
    ensures InWindow(e.0, k, n) ==> Window(m[e.0 := e.1], Steps(k), n) == Window(m, Steps(k), n)[e.0 := e.1]
    ensures !InWindow(e.0, k, n) ==> Window(m[e.0 := e.1], Steps(k), n) == Window(m, Steps(k), n)
  {
  }

  lemma {:induction false} InsertAllWindow(m: Cache, xs: CacheList, k: nat, n: nat)
    ensures InsertAll(Window(m, Steps(k), n), FilterWindow(xs, k, n))
         == Window(InsertAll(m, xs), Steps(k), n)
    decreases |xs|
  {
    if xs != [] {
      var e := xs[0];
      var m' := m[e.0 := e.1];
      var w := Window(m, Steps(k), n);
      InsertAllWindow(m', xs[1..], k, n);
      WindowUpdate(m, e, k, n);
      assert InsertAll(m, xs) == InsertAll(m', xs[1..]);
      if InWindow(e.0, k, n) {
        assert FilterWindow(xs, k, n) == [e] + FilterWindow(xs[1..], k, n);
        assert InsertAll(w, [e] + FilterWindow(xs[1..], k, n))
            == InsertAll(w[e.0 := e.1], FilterWindow(xs[1..], k, n));
      } else {
        assert FilterWindow(xs, k, n) == FilterWindow(xs[1..], k, n);
      }
    }
  }

  /** The TypeScript array window and the Rust map window send the same cache. */
  lemma ReduceListAgrees(xs: CacheList, state: ModelRunState, n: nat)
    ensures ToMap(ReduceList(xs, state, n)) == Window(ToMap(xs), state, n)
  {
    if state.Steps? {
      InsertAllWindow(map[], xs, state.step, n);
    }
  }

  // ---- Object.entries ----

  /** The least element of a non-empty set of layers. */
  function MinLayer(s: set<nat>): (k: nat)
    requires s != {}
    ensures k in s && forall j :: j in s ==> k <= j
  {
    MinLayerExists(s);
    var k :| IsLeast(k, s);
    k
  }

  /** `k` is the least layer of `s`. */
  predicate IsLeast(k: nat, s: set<nat>)
  {
    k in s && forall j :: j in s ==> k <= j
  }

  lemma {:induction false} MinLayerExists(s: set<nat>)
    requires s != {}
    ensures exists k :: IsLeast(k, s)
    decreases |s|
  {
    var x :| x in s;
    if s == {x} {
      assert IsLeast(x, s);
    } else {
      var t := s - {x};
      assert |t| < |s|;
      assert t != {} by {
        var y :| y in s && y != x;
        assert y in t;
      }
      MinLayerExists(t);
      var k :| IsLeast(k, t);
      LeastOfAdded(k, t, x, s);
    }
  }

  /** Adding one layer to a set keeps the smaller of the old least and the new layer least. */
  lemma LeastOfAdded(k: nat, t: set<nat>, x: nat, s: set<nat>)
    requires IsLeast(k, t) && s == t + {x}
    ensures IsLeast(if x < k then x else k, s)
  {
  }

  /** `Object.entries(m)`: every entry of the map, layers ascending. */
  function Entries(m: Cache): (r: CacheList)
    ensures Ascending(r)
    ensures KeysOf(r) == m.Keys
    ensures forall i :: 0 <= i < |r| ==> r[i].0 in m && m[r[i].0] == r[i].1
    decreases |m|
  {
    if m == map[] then []
    else
      var k := MinLayer(m.Keys);
      var rest := m - {k};
      assert rest.Keys == m.Keys - {k};
      var tail := Entries(rest);
      EntriesCons(m, k, tail);
      [(k, m[k])] + tail
  }

  lemma EntriesCons(m: Cache, k: nat, tail: CacheList)
    requires k in m && forall j :: j in m ==> k <= j
    requires Ascending(tail) && KeysOf(tail) == m.Keys - {k}
    requires forall i :: 0 <= i < |tail| ==> tail[i].0 in m - {k} && (m - {k})[tail[i].0] == tail[i].1
    ensures Ascending([(k, m[k])] + tail)
    ensures KeysOf([(k, m[k])] + tail) == m.Keys
    ensures forall i :: 0 <= i < |[(k, m[k])] + tail| ==>
      ([(k, m[k])] + tail)[i].0 in m && m[([(k, m[k])] + tail)[i].0] == ([(k, m[k])] + tail)[i].1
  {
    var r := [(k, m[k])] + tail;
    KeysOfCons((k, m[k]), tail);
    forall i | 0 <= i < |r| ensures r[i].0 in m && m[r[i].0] == r[i].1 {
      if i > 0 { assert r[i] == tail[i - 1]; }
    }
    forall i, j | 0 <= i < j < |r| ensures r[i].0 < r[j].0 {
      assert r[j] == tail[j - 1];
      assert tail[j - 1].0 in KeysOf(tail);
      if i > 0 { assert r[i] == tail[i - 1]; }
    }
  }

  /** Reading the map back from its entries gives the map again. */
  lemma EntriesRoundTrip(m: Cache)
    ensures ToMap(Entries(m)) == m
  {
    var r := Entries(m);
    forall layer | layer in m ensures ToMap(r)[layer] == m[layer] {
      assert layer in KeysOf(r);
      var i :| 0 <= i < |r| && r[i].0 == layer;
      ToMapLastWins(r, i);
    }
  }

  /**
   * The TypeScript `updateSession` on the cache arrays: fold `base`, then
   * `update`, into one object and list its entries.
   */
  function UpdateList(base: CacheList, update: CacheList): (r: CacheList)
    ensures NoDupKeys(r) && Ascending(r)
    ensures KeysOf(r) == KeysOf(base) + KeysOf(update)
    ensures ToMap(r) == Merge(ToMap(base), ToMap(update))
  {
    var r := Entries(InsertAll(ToMap(base), update));
    InsertAllIsMerge(ToMap(base), update);
    EntriesRoundTrip(InsertAll(ToMap(base), update));
    r
  }

  /**
   * In the merged array, a layer's value is the one of its last occurrence in
   * `base` followed by `update`.
   */
  lemma UpdateListLastWins(base: CacheList, update: CacheList, i: nat)
    requires i < |base + update|
    requires forall j :: i < j < |base + update| ==> (base + update)[j].0 != (base + update)[i].0
    ensures exists p :: 0 <= p < |UpdateList(base, update)| && UpdateList(base, update)[p] == (base + update)[i]
  {
    var xs := base + update;
    var r := UpdateList(base, update);
    ToMapLastWins(xs, i);
    ToMapAppend(base, update);
    assert xs[i].0 in KeysOf(r);
    var p :| 0 <= p < |r| && r[p].0 == xs[i].0;
    ToMapLastWins(r, p);
  }
}
