/**
 * One phase step each: `step` (one decode step: begin, forward, end, merge
 * back), its older TypeScript variant, and `start_iterative` (repeated
 * prompt-ingestion rounds until the first text appears).
 */
module Phases {
  import opened Wrappers
  import opened Types
  import opened CacheLedger
  import opened Remote
  import opened ChunkDriver
  import ChunkDriverLaws

  /** Layer chunk of a decode step in the Rust client and `client/internal.ts`. */
  const StepChunk: nat := 5
  /** Layer chunk of a decode step in `client/client.ts`. */
  const LegacyStepChunk: nat := 6

  /** What a decode step hands back: `(text, eos, session)`. */
  datatype Stepped = Stepped(text: Option<string>, eos: bool, session: Session)

  /**
   * `begin_step` on the stripped session, then `forward` from the full
   * session: the backend sees the session without its cache, the first
   * forward call carries the run it began, and the forwarded session keeps
   * every layer and every non-cache field of `s`.
   */
  function BeginAndForward(b: Backend, s: Session, n: nat, fuel: nat): (r: Result<Forwarded>)
    ensures r.Success? ==>
      && 1 <= |r.value.calls|
      && b.beginStep(Session(s.logitProcessor, s.tos, map[])) == Some(r.value.calls[0].run)
      && r == Drive(b, s, r.value.calls[0].run, n, fuel)
    ensures r.Success? ==>
      && SameNonCache(r.value.session, s)
      && s.caches.Keys <= r.value.session.caches.Keys
    ensures b.beginStep(Session(s.logitProcessor, s.tos, map[])).None? ==> r == Failure(CallFailed)
  {
    match b.beginStep(SimpleSession(s))
    case None => Failure(CallFailed)
    case Some(run) =>
      var f := Drive(b, s, run, n, fuel);
      if f.Success? then
        DriveIsTrace(b, s, run, n, fuel);
        ChunkDriverLaws.ForwardKeepsEntries(b, s, run, n, fuel);
        f
      else f
  }

  /**
   * `step`: begin on the stripped session, forward with chunk 5, end on the
   * stripped forwarded session, and merge the forwarded cache on top of the
   * session `end_step` returned. StepMergesBack states the result.
   */
  function Step(b: Backend, s: Session, fuel: nat): (r: Result<Stepped>)
    ensures r.Failure? ==> r.error == CallFailed || r.error == OutOfFuel
  {
    match BeginAndForward(b, s, StepChunk, fuel)
    case Failure(e) => Failure(e)
    case Success(f) =>
      match b.endStep(f.run, SimpleSession(f.session))
      case None => Failure(CallFailed)
      case Some(e) => Success(Stepped(e.text, e.eos, UpdateSession(e.session, f.session)))
  }

  /**
   * A successful step passes on `end_step`'s text and flag and its non-cache
   * state; its cache holds every layer of either side, the locally forwarded
   * value winning where both have one.
   */
  lemma StepMergesBack(b: Backend, s: Session, fuel: nat)
    requires Step(b, s, fuel).Success?
    ensures
      && var r := Step(b, s, fuel).value;
      && var f := BeginAndForward(b, s, StepChunk, fuel);
      && f.Success?
      && b.endStep(f.value.run, SimpleSession(f.value.session)).Some?
      && var e := b.endStep(f.value.run, SimpleSession(f.value.session)).value;
      && r.text == e.text && r.eos == e.eos
      && SameNonCache(r.session, e.session)
      && r.session.caches.Keys == e.session.caches.Keys + f.value.session.caches.Keys
      && (forall layer :: layer in f.value.session.caches ==>
            r.session.caches[layer] == f.value.session.caches[layer])
      && (forall layer :: layer in e.session.caches && layer !in f.value.session.caches ==>
            r.session.caches[layer] == e.session.caches[layer])
  {
  }

  /**
   * `step` of `client/client.ts`: chunk 6, and `end_step` read as
   * `[text, session]`; there is no end-of-sequence flag.
   * LegacyStepMergesBack states the result.
   */
  function LegacyStep(b: Backend, s: Session, fuel: nat): (r: Result<(Option<string>, Session)>)
    ensures r.Failure? ==> r.error == CallFailed || r.error == OutOfFuel
  {
    match BeginAndForward(b, s, LegacyStepChunk, fuel)
    case Failure(e) => Failure(e)
    case Success(f) =>
      match b.endStepLegacy(f.run, SimpleSession(f.session))
      case None => Failure(CallFailed)
      case Some(e) => Success((e.text, UpdateSession(e.session, f.session)))
  }

  /**
   * A successful legacy step passes on `end_step`'s text and non-cache
   * state; its cache holds every layer of either side, the locally forwarded
   * value winning where both have one.
   */
  lemma LegacyStepMergesBack(b: Backend, s: Session, fuel: nat)
    requires LegacyStep(b, s, fuel).Success?
    ensures
      && var r := LegacyStep(b, s, fuel).value;
      && var f := BeginAndForward(b, s, LegacyStepChunk, fuel);
      && f.Success?
      && b.endStepLegacy(f.value.run, SimpleSession(f.value.session)).Some?
      && var e := b.endStepLegacy(f.value.run, SimpleSession(f.value.session)).value;
      && r.0 == e.text
      && SameNonCache(r.1, e.session)
      && r.1.caches.Keys == e.session.caches.Keys + f.value.session.caches.Keys
      && (forall layer :: layer in f.value.session.caches ==>
            r.1.caches[layer] == f.value.session.caches[layer])
      && (forall layer :: layer in e.session.caches && layer !in f.value.session.caches ==>
            r.1.caches[layer] == e.session.caches[layer])
  {
  }

  /**
   * The same `step` of `client/client.ts` against the three-field
   * `end_step` reply `(text, eos, session)` the other clients read: the
   * second field, the end-of-sequence flag, is taken as the new session,
   * and `updateSession` then reads `k_v_caches` of a boolean, which is
   * `undefined`, and throws. So once begin, forward and end succeed, the
   * step always fails.
   */
  function LegacyStepOnCurrentReply(b: Backend, s: Session, fuel: nat): (r: Result<(Option<string>, Session)>)
    ensures r.Failure?
    ensures r.error == NotASession <==>
      && BeginAndForward(b, s, LegacyStepChunk, fuel).Success?
      && var f := BeginAndForward(b, s, LegacyStepChunk, fuel).value;
      b.endStep(f.run, SimpleSession(f.session)).Some?
  {
    match BeginAndForward(b, s, LegacyStepChunk, fuel)
    case Failure(e) => Failure(e)
    case Success(f) =>
      match b.endStep(f.run, SimpleSession(f.session))
      case None => Failure(CallFailed)
      case Some(_) => Failure(NotASession)
  }

  /** A decode step never drops a cache entry the client already held. */
  lemma StepKeepsEntries(b: Backend, s: Session, fuel: nat)
    requires Step(b, s, fuel).Success?
    ensures s.caches.Keys <= Step(b, s, fuel).value.session.caches.Keys
  {
    var run := b.beginStep(SimpleSession(s)).value;
    StepMergesBack(b, s, fuel);
    ChunkDriverLaws.ForwardKeepsEntries(b, s, run, StepChunk, fuel);
  }

  // ---- Prompt ingestion ----

  /**
   * How a variant of `start_iterative` runs: its layer chunk, and whether an
   * empty run from `begin_start` ends the phase with `""` (TypeScript) or
   * is unwrapped and traps (Rust).
   */
  datatype StartPolicy = StartPolicy(chunk: nat, emptyRunEndsPhase: bool)

  const RustStart := StartPolicy(10, false)
  const TsStart := StartPolicy(10, true)
  const LegacyStart := StartPolicy(15, true)

  /** One round of the ingestion loop ended: no run was left, or `end_start` answered. */
  datatype Round = NoRunLeft | Ended(text: Option<string>, session: Session)

  /** The body of the `start_iterative` loop: begin, forward, end. */
  function StartRound(b: Backend, s: Session, chunk: nat, fuel: nat): (r: Result<Round>)
    ensures r.Success? ==> b.beginStart(s, true).Some?
    ensures r.Success? && r.value.NoRunLeft? ==> b.beginStart(s, true).value.run.None?
    ensures r.Success? && r.value.Ended? ==>
      && var br := b.beginStart(s, true).value;
      && br.run.Some?
      && var f := Drive(b, br.session, br.run.value, chunk, fuel);
      && f.Success?
      && b.endStart(f.value.run, f.value.session) == Some(EndStartReply(r.value.text, r.value.session))
    ensures r.Failure? ==> r.error == CallFailed || r.error == OutOfFuel
  {
    match b.beginStart(s, true)
    case None => Failure(CallFailed)
    case Some(br) =>
      match br.run
      case None => Success(NoRunLeft)
      case Some(run) =>
        match Drive(b, br.session, run, chunk, fuel)
        case Failure(e) => Failure(e)
        case Success(f) =>
          match b.endStart(f.run, f.session)
          case None => Failure(CallFailed)
          case Some(e) => Success(Ended(e.text, e.session))
  }

  /** What `start_iterative` hands back, with the session each round started from. */
  datatype Started = Started(text: string, session: Session, starts: seq<Session>)

  /**
   * `st` is a record of a complete ingestion from `s`: every round but the
   * last ended without text and handed its session to the next, and the last
   * one ended the phase, with a text or (TypeScript) with an empty run.
   */
  ghost predicate IsIngestion(b: Backend, s: Session, p: StartPolicy, fuel: nat, st: Started)
  {
    && 1 <= |st.starts| && st.starts[0] == s
    && (forall i :: 0 <= i < |st.starts| - 1 ==>
          StartRound(b, st.starts[i], p.chunk, fuel) == Success(Ended(None, st.starts[i + 1])))
    && var last := st.starts[|st.starts| - 1];
       || StartRound(b, last, p.chunk, fuel) == Success(Ended(Some(st.text), st.session))
       || (p.emptyRunEndsPhase && StartRound(b, last, p.chunk, fuel) == Success(NoRunLeft)
           && st.text == "" && st.session == last)
  }

  /**
   * `start_iterative`: repeat rounds, at most `rounds` of them, until
   * `end_start` returns a text. StartIterativeIsTrace states what a
   * successful ingestion did.
   */
  function StartIterative(b: Backend, s: Session, p: StartPolicy, rounds: nat, fuel: nat): (r: Result<Started>)
    ensures r.Success? ==> 1 <= |r.value.starts| <= rounds && r.value.starts[0] == s
    ensures r.Failure? && r.error == NoRun ==> !p.emptyRunEndsPhase
    decreases rounds
  {
    if rounds == 0 then Failure(OutOfFuel)
    else
      match StartRound(b, s, p.chunk, fuel)
      case Failure(e) => Failure(e)
      case Success(NoRunLeft) =>
        if p.emptyRunEndsPhase then Success(Started("", s, [s])) else Failure(NoRun)
      case Success(Ended(Some(text), s')) => Success(Started(text, s', [s]))
      case Success(Ended(None, s')) =>
        match StartIterative(b, s', p, rounds - 1, fuel)
        case Failure(e) => Failure(e)
        case Success(st) => Success(Started(st.text, st.session, [s] + st.starts))
  }

  /** A successful `start_iterative` is a complete ingestion record. */
  lemma {:induction false} StartIterativeIsTrace(b: Backend, s: Session, p: StartPolicy, rounds: nat, fuel: nat)
    requires StartIterative(b, s, p, rounds, fuel).Success?
    ensures IsIngestion(b, s, p, fuel, StartIterative(b, s, p, rounds, fuel).value)
    decreases rounds
  {
    var round := StartRound(b, s, p.chunk, fuel);
    if round.value.Ended? && round.value.text.None? {
      var s' := round.value.session;
      StartIterativeIsTrace(b, s', p, rounds - 1, fuel);
      var st := StartIterative(b, s', p, rounds - 1, fuel).value;
      var starts := [s] + st.starts;
      assert forall i :: 0 < i < |starts| ==> starts[i] == st.starts[i - 1];
    }
  }

  /** TypeScript: an empty run ends ingestion with `""` and the session passed to `begin_start`. */
  lemma EmptyRunEndsWithInput(b: Backend, s: Session, p: StartPolicy, rounds: nat, fuel: nat, x: Session)
    requires rounds > 0 && p.emptyRunEndsPhase
    requires b.beginStart(s, true) == Some(BeginStartReply(None, x))
    ensures StartIterative(b, s, p, rounds, fuel) == Success(Started("", s, [s]))
  {
  }

  /** Rust: an empty run is unwrapped and the call traps. */
  lemma EmptyRunTrapsInRust(b: Backend, s: Session, rounds: nat, fuel: nat, x: Session)
    requires rounds > 0
    requires b.beginStart(s, true) == Some(BeginStartReply(None, x))
    ensures StartIterative(b, s, RustStart, rounds, fuel) == Failure(NoRun)
  {
  }

  /** More rounds than a successful ingestion needed change nothing. */
  lemma {:induction false} StartRoundsMonotone(b: Backend, s: Session, p: StartPolicy, rounds: nat, more: nat, fuel: nat)
    requires StartIterative(b, s, p, rounds, fuel).Success?
    requires rounds <= more
    ensures StartIterative(b, s, p, more, fuel) == StartIterative(b, s, p, rounds, fuel)
    decreases rounds
  {
    var round := StartRound(b, s, p.chunk, fuel);
    if round.value.Ended? && round.value.text.None? {
      StartRoundsMonotone(b, round.value.session, p, rounds - 1, more - 1, fuel);
    }
  }
}
