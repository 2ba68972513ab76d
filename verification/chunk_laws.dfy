/**
 * Laws of `forward`: what the folded cache holds, resumability, fuel
 * monotonicity, and the number of calls under a well-behaved backend.
 */
module ChunkDriverLaws {
  import opened Wrappers
  import opened Types
  import opened CacheLedger
  import opened Remote
  import opened ChunkDriver

  /** Some reply in `rs` carries `layer`. */
  ghost predicate Mentions(rs: seq<ForwardReply>, layer: nat)
  {
    exists j :: 0 <= j < |rs| && layer in rs[j].session.caches
  }

  /** The folded cache holds exactly the start's layers and every returned layer. */
  lemma {:induction false} FoldCachesKeys(c: Cache, rs: seq<ForwardReply>)
    ensures forall layer :: layer in FoldCaches(c, rs) <==> layer in c || Mentions(rs, layer)
    decreases |rs|
  {
    if rs != [] {
      var init := rs[..|rs| - 1];
      var last := rs[|rs| - 1];
      FoldCachesKeys(c, init);
      forall layer | Mentions(rs, layer) && layer !in last.session.caches
        ensures Mentions(init, layer)
      {
        var j :| 0 <= j < |rs| && layer in rs[j].session.caches;
        assert init[j] == rs[j];
      }
      forall layer | Mentions(init, layer) ensures Mentions(rs, layer) {
        var j :| 0 <= j < |init| && layer in init[j].session.caches;
        assert rs[j] == init[j];
      }
    }
  }

  /** A returned layer ends up with the value of the last reply that carried it. */
  lemma {:induction false} FoldCachesLastWins(c: Cache, rs: seq<ForwardReply>, j: nat, layer: nat)
    requires j < |rs| && layer in rs[j].session.caches
    requires forall i :: j < i < |rs| ==> layer !in rs[i].session.caches
    ensures layer in FoldCaches(c, rs) && FoldCaches(c, rs)[layer] == rs[j].session.caches[layer]
    decreases |rs|
  {
    if j < |rs| - 1 {
      var init := rs[..|rs| - 1];
      forall i | j < i < |init| ensures layer !in init[i].session.caches {
        assert init[i] == rs[i];
      }
      FoldCachesLastWins(c, init, j, layer);
    }
  }

  /** A layer no reply carried keeps its starting value. */
  lemma {:induction false} FoldCachesUntouched(c: Cache, rs: seq<ForwardReply>, layer: nat)
    requires layer in c && !Mentions(rs, layer)
    ensures layer in FoldCaches(c, rs) && FoldCaches(c, rs)[layer] == c[layer]
    decreases |rs|
  {
    if rs != [] {
      var init := rs[..|rs| - 1];
      assert layer !in rs[|rs| - 1].session.caches;
      assert !Mentions(init, layer) by {
        forall j | 0 <= j < |init| ensures layer !in init[j].session.caches {
          assert init[j] == rs[j];
        }
      }
      FoldCachesUntouched(c, init, layer);
    }
  }

  /** `forward` never drops a cache entry of the session it was given, and changes nothing else. */
  lemma ForwardKeepsEntries(b: Backend, s: Session, run: ModelRun, n: nat, fuel: nat)
    requires Drive(b, s, run, n, fuel).Success?
    ensures s.caches.Keys <= Drive(b, s, run, n, fuel).value.session.caches.Keys
    ensures SameNonCache(Drive(b, s, run, n, fuel).value.session, s)
  {
    var f := Drive(b, s, run, n, fuel).value;
    DriveIsTrace(b, s, run, n, fuel);
    assert f.replies[..|f.replies|] == f.replies;
    FoldCachesKeys(s.caches, f.replies);
  }

  /** More fuel than a successful run needed changes nothing. */
  lemma {:induction false} DriveFuelMonotone(b: Backend, s: Session, run: ModelRun, n: nat, fuel: nat, more: nat)
    requires Drive(b, s, run, n, fuel).Success?
    requires fuel <= more
    ensures Drive(b, s, run, n, more) == Drive(b, s, run, n, fuel)
    decreases fuel
  {
    var call := FirstCall(s, run, n);
    var reply := b.forward(call).value;
    if !reply.fin {
      DriveFuelMonotone(b, UpdateSession(s, reply.session), reply.run, n, fuel - 1, more - 1);
    }
  }

  /**
   * Resumability: stopping after `k` calls and restarting `forward` from the
   * run and session reached so far ends in the same session and run, making
   * the remaining calls.
   */
  lemma {:induction false} Resume(b: Backend, s: Session, run: ModelRun, n: nat, fuel: nat, k: nat)
    requires Drive(b, s, run, n, fuel).Success?
    requires 0 < k < |Drive(b, s, run, n, fuel).value.calls|
    ensures var f := Drive(b, s, run, n, fuel).value;
            var g := Drive(b, SessionAfter(s, f.replies, k), f.replies[k - 1].run, n, fuel - k);
            && g.Success?
            && g.value.session == f.session
            && g.value.run == f.run
            && g.value.calls == f.calls[k..]
    decreases k, 1
  {
    if k == 1 {
      ResumeAfterFirst(b, s, run, n, fuel);
    } else {
      ResumeLater(b, s, run, n, fuel, k);
    }
  }

  /** Resume for `k > 1`: the run from the first reply resumes after call `k - 1`. */
  lemma {:induction false} ResumeLater(b: Backend, s: Session, run: ModelRun, n: nat, fuel: nat, k: nat)
    requires Drive(b, s, run, n, fuel).Success?
    requires 1 < k < |Drive(b, s, run, n, fuel).value.calls|
    ensures var f := Drive(b, s, run, n, fuel).value;
            var g := Drive(b, SessionAfter(s, f.replies, k), f.replies[k - 1].run, n, fuel - k);
            && g.Success?
            && g.value.session == f.session
            && g.value.run == f.run
            && g.value.calls == f.calls[k..]
    decreases k, 0
  {
    var f := Drive(b, s, run, n, fuel).value;
    var reply := b.forward(FirstCall(s, run, n)).value;
    var s' := UpdateSession(s, reply.session);
    DriveUnfold(b, s, run, n, fuel);
    var rest := Drive(b, s', reply.run, n, fuel - 1).value;
    Resume(b, s', reply.run, n, fuel - 1, k - 1);
    var later := Drive(b, SessionAfter(s', rest.replies, k - 1), rest.replies[k - 2].run, n, (fuel - 1) - (k - 1));
    assert later.Success? && later.value.session == rest.session && later.value.run == rest.run;
    assert later.value.calls == rest.calls[k - 1..];
    RestartMatches(b, s, reply, rest.replies, f.replies, k, n, fuel);
    SliceOfCons(FirstCall(s, run, n), rest.calls, k);
    assert Drive(b, SessionAfter(s, f.replies, k), f.replies[k - 1].run, n, fuel - k) == later;
  }

  /** Restarting after call `k` of a run is restarting after call `k - 1` of the run from its first reply. */
  lemma RestartMatches(b: Backend, s: Session, reply: ForwardReply, rs: seq<ForwardReply>,
                       replies: seq<ForwardReply>, k: nat, n: nat, fuel: nat)
    requires replies == [reply] + rs && 2 <= k <= |replies| && k <= fuel
    ensures Drive(b, SessionAfter(s, replies, k), replies[k - 1].run, n, fuel - k)
         == Drive(b, SessionAfter(UpdateSession(s, reply.session), rs, k - 1), rs[k - 2].run, n, (fuel - 1) - (k - 1))
  {
    SessionAfterCons(s, reply, rs, k - 1);
  }

  lemma SliceOfCons<T>(x: T, xs: seq<T>, k: nat)
    requires 1 <= k <= |xs| + 1
    ensures ([x] + xs)[k..] == xs[k - 1..]
  {
  }

  /** Resuming after the first call is the run from the first reply. */
  lemma ResumeAfterFirst(b: Backend, s: Session, run: ModelRun, n: nat, fuel: nat)
    requires Drive(b, s, run, n, fuel).Success?
    requires 1 < |Drive(b, s, run, n, fuel).value.calls|
    ensures var f := Drive(b, s, run, n, fuel).value;
            var g := Drive(b, SessionAfter(s, f.replies, 1), f.replies[0].run, n, fuel - 1);
            && g.Success?
            && g.value.session == f.session
            && g.value.run == f.run
            && g.value.calls == f.calls[1..]
  {
    var f := Drive(b, s, run, n, fuel).value;
    var reply := b.forward(FirstCall(s, run, n)).value;
    DriveUnfold(b, s, run, n, fuel);
    assert SessionAfter(s, f.replies, 1) == UpdateSession(s, reply.session) by {
      assert f.replies[..1] == [reply];
      assert FoldCaches(s.caches, [reply]) == Merge(FoldCaches(s.caches, []), reply.session.caches) by {
        assert [reply][..0] == [];
      }
    }
  }

  /** A run of more than one call is its first call followed by the run from the first reply. */
  lemma DriveUnfold(b: Backend, s: Session, run: ModelRun, n: nat, fuel: nat)
    requires Drive(b, s, run, n, fuel).Success?
    requires |Drive(b, s, run, n, fuel).value.calls| > 1
    ensures fuel > 0 && b.forward(FirstCall(s, run, n)).Some?
    ensures
      var f := Drive(b, s, run, n, fuel).value;
      var reply := b.forward(FirstCall(s, run, n)).value;
      var rest := Drive(b, UpdateSession(s, reply.session), reply.run, n, fuel - 1);
      && !reply.fin
      && rest.Success?
      && f.calls == [FirstCall(s, run, n)] + rest.value.calls
      && f.replies == [reply] + rest.value.replies
      && f.session == rest.value.session
      && f.run == rest.value.run
  {
  }

  // ---- Call count under a well-behaved backend ----

  /**
   * An assumption about the backend, not enforced by the client: from
   * `Steps(k)` a forward call computes `chunk` layers, finishing once the
   * model's `layers` layers are done.
   */
  ghost predicate AdvancesByChunk(b: Backend, layers: nat)
  {
    forall call: ForwardCall {:trigger b.forward(call)} :: call.run.state.Steps? ==>
      && b.forward(call).Some?
      && (call.run.state.step + call.chunk >= layers ==> b.forward(call).value.fin)
      && (call.run.state.step + call.chunk < layers ==>
            !b.forward(call).value.fin
            && b.forward(call).value.run.state == Steps(call.run.state.step + call.chunk))
  }

  /** Number of chunks of `n` layers needed to cover `a > 0` layers. */
  function Chunks(a: nat, n: nat): (c: nat)
    requires a > 0 && n > 0
    ensures c >= 1
    ensures (c - 1) * n < a <= c * n
    decreases a
  {
    if a <= n then 1 else 1 + Chunks(a - n, n)
  }

  /** From layer `k` of `layers`, `forward` makes exactly the ceiling of `(layers - k) / n` calls. */
  lemma {:induction false} DriveCallCount(b: Backend, s: Session, run: ModelRun, n: nat, layers: nat, fuel: nat)
    requires AdvancesByChunk(b, layers)
    requires 0 < n < 256
    requires run.state.Steps? && run.state.step < layers
    requires fuel >= Chunks(layers - run.state.step, n)
    ensures Drive(b, s, run, n, fuel).Success?
    ensures |Drive(b, s, run, n, fuel).value.calls| == Chunks(layers - run.state.step, n)
    decreases layers - run.state.step
  {
    var call := FirstCall(s, run, n);
    assert b.forward(call).Some?;
    var reply := b.forward(call).value;
    if run.state.step + n < layers {
      DriveCallCount(b, UpdateSession(s, reply.session), reply.run, n, layers, fuel - 1);
    }
  }

  /** Four layers in chunks of two take two calls. */
  lemma FourLayersTwoCalls(b: Backend, s: Session, run: ModelRun)
    requires AdvancesByChunk(b, 4)
    requires run.state == Steps(0)
    ensures Drive(b, s, run, 2, 2).Success?
    ensures |Drive(b, s, run, 2, 2).value.calls| == 2
  {
    assert Chunks(2, 2) == 1;
    DriveCallCount(b, s, run, 2, 4, 2);
  }
}
