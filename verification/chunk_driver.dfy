/**
 * `forward`: drive one model run to completion by repeated bounded remote
 * calls, each carrying only the window of the cache the next chunk of layers
 * needs, and fold every returned cache back into the session.
 */
module ChunkDriver {
  import opened Wrappers
  import opened Types
  import opened CacheLedger
  import opened Remote

  /** What `forward` hands back, with the calls it made and the replies it got. */
  datatype Forwarded = Forwarded(
    session: Session,
    run: ModelRun,
    calls: seq<ForwardCall>,
    replies: seq<ForwardReply>)

  /** Left fold of `Merge` over the caches of `replies`, starting from `c`. */
  function FoldCaches(c: Cache, replies: seq<ForwardReply>): Cache
    decreases |replies|
  {
    if replies == [] then c
    else Merge(FoldCaches(c, replies[..|replies| - 1]), replies[|replies| - 1].session.caches)
  }

  /** The session after folding in the first `j` replies. */
  function SessionAfter(s: Session, replies: seq<ForwardReply>, j: nat): Session
    requires j <= |replies|
  {
    s.(caches := FoldCaches(s.caches, replies[..j]))
  }

  /** Each call after the first continues from the run the previous reply returned. */
  ghost predicate RunsChain(run: ModelRun, calls: seq<ForwardCall>, replies: seq<ForwardReply>)
    requires 1 <= |calls| == |replies|
  {
    && calls[0].run == run
    && forall j :: 0 < j < |calls| ==> calls[j].run == replies[j - 1].run
  }

  /** Each call sends the chunk byte and the window of the session folded so far. */
  ghost predicate CallsWindowed(s: Session, n: nat, calls: seq<ForwardCall>, replies: seq<ForwardReply>)
    requires |calls| == |replies|
  {
    forall j :: 0 <= j < |calls| ==>
      && calls[j].chunk == ChunkByte(n)
      && calls[j].session == ReducedSession(SessionAfter(s, replies, j), calls[j].run, n)
  }

  /** Each reply is the backend's answer to its call. */
  ghost predicate RepliesAnswer(b: Backend, calls: seq<ForwardCall>, replies: seq<ForwardReply>)
    requires |calls| == |replies|
  {
    forall j :: 0 <= j < |calls| ==> b.forward(calls[j]) == Some(replies[j])
  }

  /** Only the last reply reports `fin`. */
  ghost predicate FinOnlyLast(replies: seq<ForwardReply>)
  {
    forall j :: 0 <= j < |replies| ==> (replies[j].fin <==> j == |replies| - 1)
  }

  /**
   * `f` is a complete run of the loop of `forward` from `(s, run)`: every call
   * sends the window of the session folded so far, every reply answers the
   * call before it, only the last reply is final, and the result is the last
   * run together with the fold of all returned caches over `s`.
   */
  ghost predicate IsForwardTrace(b: Backend, s: Session, run: ModelRun, n: nat, f: Forwarded)
  {
    && 1 <= |f.calls| == |f.replies|
    && RunsChain(run, f.calls, f.replies)
    && CallsWindowed(s, n, f.calls, f.replies)
    && RepliesAnswer(b, f.calls, f.replies)
    && FinOnlyLast(f.replies)
    && f.run == f.replies[|f.replies| - 1].run
    && f.session == SessionAfter(s, f.replies, |f.replies|)
  }

  /**
   * The loop of `forward` (`while !finished`), bounded by `fuel` calls.
   * DriveIsTrace states what a successful run did.
   */
  function Drive(b: Backend, s: Session, run: ModelRun, n: nat, fuel: nat): (r: Result<Forwarded>)
    ensures r.Success? ==> 1 <= |r.value.calls| == |r.value.replies| <= fuel
    ensures r.Failure? ==> r.error == CallFailed || r.error == OutOfFuel
    decreases fuel
  {
    if fuel == 0 then Failure(OutOfFuel)
    else
      var call := FirstCall(s, run, n);
      match b.forward(call)
      case None => Failure(CallFailed)
      case Some(reply) =>
        var s' := UpdateSession(s, reply.session);
        if reply.fin then Success(Forwarded(s', reply.run, [call], [reply]))
        else
          match Drive(b, s', reply.run, n, fuel - 1)
          case Failure(e) => Failure(e)
          case Success(rest) =>
            Success(Forwarded(rest.session, rest.run, [call] + rest.calls, [reply] + rest.replies))
  }

  /** The forward call `forward` makes from `(s, run)`. */
  function FirstCall(s: Session, run: ModelRun, n: nat): (call: ForwardCall)
    ensures call.run == run
    ensures call.session.caches == Window(s.caches, run.state, n)
    ensures SameNonCache(call.session, s)
  {
    ForwardCall(ChunkByte(n), run, ReducedSession(s, run, n))
  }

  /** A successful `forward` is a complete trace of its loop. */
  lemma {:induction false} DriveIsTrace(b: Backend, s: Session, run: ModelRun, n: nat, fuel: nat)
    requires Drive(b, s, run, n, fuel).Success?
    ensures IsForwardTrace(b, s, run, n, Drive(b, s, run, n, fuel).value)
    decreases fuel
  {
    var call := FirstCall(s, run, n);
    var reply := b.forward(call).value;
    var s' := UpdateSession(s, reply.session);
    if reply.fin {
      var f := Forwarded(s', reply.run, [call], [reply]);
      assert FoldCaches(s.caches, f.replies[..0]) == s.caches;
      assert f.replies[..1] == [reply];
    } else {
      DriveIsTrace(b, s', reply.run, n, fuel - 1);
      TraceCons(b, s, run, n, call, reply, Drive(b, s', reply.run, n, fuel - 1).value);
    }
  }

  /** Folding a first reply into the start is the same as folding it as the first element. */
  lemma {:induction false} FoldCachesCons(c: Cache, x: ForwardReply, rs: seq<ForwardReply>)
    ensures FoldCaches(Merge(c, x.session.caches), rs) == FoldCaches(c, [x] + rs)
    decreases |rs|
  {
    if rs == [] {
      assert ([x] + rs)[..0] == [];
    } else {
      assert ([x] + rs)[..|[x] + rs| - 1] == [x] + rs[..|rs| - 1];
      FoldCachesCons(c, x, rs[..|rs| - 1]);
    }
  }

  /** The after-`j+1` session of the longer trace is the after-`j` session of the shorter one. */
  lemma SessionAfterCons(s: Session, reply: ForwardReply, rs: seq<ForwardReply>, j: nat)
    requires j <= |rs|
    ensures SessionAfter(UpdateSession(s, reply.session), rs, j) == SessionAfter(s, [reply] + rs, j + 1)
  {
    assert ([reply] + rs)[..j + 1] == [reply] + rs[..j];
    FoldCachesCons(s.caches, reply, rs[..j]);
  }

  lemma TraceCons(b: Backend, s: Session, run: ModelRun, n: nat,
                  call: ForwardCall, reply: ForwardReply, rest: Forwarded)
    requires call == FirstCall(s, run, n)
    requires b.forward(call) == Some(reply) && !reply.fin
    requires IsForwardTrace(b, UpdateSession(s, reply.session), reply.run, n, rest)
    ensures IsForwardTrace(b, s, run, n,
      Forwarded(rest.session, rest.run, [call] + rest.calls, [reply] + rest.replies))
  {
    var calls := [call] + rest.calls;
    var replies := [reply] + rest.replies;
    RunsChainCons(run, call, reply, rest.calls, rest.replies);
    CallsWindowedCons(s, n, call, reply, rest.calls, rest.replies);
    RepliesAnswerCons(b, call, reply, rest.calls, rest.replies);
    FinOnlyLastCons(reply, rest.replies);
    assert replies[|replies| - 1] == rest.replies[|rest.replies| - 1];
    SessionAfterCons(s, reply, rest.replies, |rest.replies|);
  }

  lemma RunsChainCons(run: ModelRun, call: ForwardCall, reply: ForwardReply,
                      calls: seq<ForwardCall>, replies: seq<ForwardReply>)
    requires call.run == run
    requires 1 <= |calls| == |replies| && RunsChain(reply.run, calls, replies)
    ensures RunsChain(run, [call] + calls, [reply] + replies)
  {
    var cs := [call] + calls;
    var rs := [reply] + replies;
    forall j | 0 < j < |cs| ensures cs[j].run == rs[j - 1].run {
      assert cs[j] == calls[j - 1];
      if j > 1 { assert rs[j - 1] == replies[j - 2]; }
    }
  }

  lemma CallsWindowedCons(s: Session, n: nat, call: ForwardCall, reply: ForwardReply,
                          calls: seq<ForwardCall>, replies: seq<ForwardReply>)
    requires call == FirstCall(s, call.run, n)
    requires |calls| == |replies| && CallsWindowed(UpdateSession(s, reply.session), n, calls, replies)
    ensures CallsWindowed(s, n, [call] + calls, [reply] + replies)
  {
    var cs := [call] + calls;
    var rs := [reply] + replies;
    assert FoldCaches(s.caches, rs[..0]) == s.caches;
    forall j | 0 <= j < |cs|
      ensures cs[j].chunk == ChunkByte(n)
      ensures cs[j].session == ReducedSession(SessionAfter(s, rs, j), cs[j].run, n)
    {
      if j > 0 {
        assert cs[j] == calls[j - 1];
        SessionAfterCons(s, reply, replies, j - 1);
      }
    }
  }

  lemma RepliesAnswerCons(b: Backend, call: ForwardCall, reply: ForwardReply,
                          calls: seq<ForwardCall>, replies: seq<ForwardReply>)
    requires b.forward(call) == Some(reply)
    requires |calls| == |replies| && RepliesAnswer(b, calls, replies)
    ensures RepliesAnswer(b, [call] + calls, [reply] + replies)
  {
    var cs := [call] + calls;
    var rs := [reply] + replies;
    forall j | 0 < j < |cs| ensures b.forward(cs[j]) == Some(rs[j]) {
      assert cs[j] == calls[j - 1];
      assert rs[j] == replies[j - 1];
    }
  }

  lemma FinOnlyLastCons(reply: ForwardReply, replies: seq<ForwardReply>)
    requires !reply.fin && |replies| >= 1 && FinOnlyLast(replies)
    ensures FinOnlyLast([reply] + replies)
  {
    var rs := [reply] + replies;
    forall j | 0 <= j < |rs| ensures (rs[j].fin <==> j == |rs| - 1) {
      if j > 0 { assert rs[j] == replies[j - 1]; }
    }
  }
}
