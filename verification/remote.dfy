/**
 * The interface of the inference backend as the client sees it. Each remote
 * operation is a function of its request; `None` stands for a call that was
 * rejected (transport failure, exhausted budget, trap in the backend).
 * The backend is deterministic, so a function is a faithful stand-in.
 */
module Remote {
  import opened Wrappers
  import opened Types

  /** Arguments of `forward(n, run, reduced_session)`; `chunk` is the byte actually sent. */
  datatype ForwardCall = ForwardCall(chunk: nat, run: ModelRun, session: Session)

  /** `(fin, new_run, new_session)` */
  datatype ForwardReply = ForwardReply(fin: bool, run: ModelRun, session: Session)

  /** `(Option<run>, session)` from `begin_start` */
  datatype BeginStartReply = BeginStartReply(run: Option<ModelRun>, session: Session)

  /** `(Option<text>, session)` from `end_start` */
  datatype EndStartReply = EndStartReply(text: Option<string>, session: Session)

  /** `(Option<text>, eos, session)` from `end_step` */
  datatype EndStepReply = EndStepReply(text: Option<string>, eos: bool, session: Session)

  /** `[text, session]`: the shape of `end_step` the older TypeScript client reads. */
  datatype LegacyEndStepReply = LegacyEndStepReply(text: Option<string>, session: Session)

  datatype Backend = Backend(
    startPrompt: string -> Option<Session>,
    beginStart: (Session, bool) -> Option<BeginStartReply>,
    forward: ForwardCall -> Option<ForwardReply>,
    endStart: (ModelRun, Session) -> Option<EndStartReply>,
    beginStep: Session -> Option<ModelRun>,
    endStep: (ModelRun, Session) -> Option<EndStepReply>,
    endStepLegacy: (ModelRun, Session) -> Option<LegacyEndStepReply>)

  /** The Rust client sends the chunk size as `n as u8`. */
  function ChunkByte(n: nat): (b: nat)
    ensures b < 256
    ensures n < 256 ==> b == n
  {
    n % 256
  }
}
