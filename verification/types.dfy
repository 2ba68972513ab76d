/**
 * The data the client exchanges with the inference backend: the prompt session
 * with its per-layer key/value cache, and the handle of one model run.
 * Tensor payloads and floating-point fields are carried as opaque bit patterns;
 * the client never looks inside them.
 */
module Types {
  import opened Wrappers

  /** Tensor payload; `f32` values are kept as their IEEE bit patterns. */
  datatype TensorData = F32(bits: seq<bv32>) | U8(bytes: seq<bv8>)

  datatype Tensor = Tensor(data: TensorData, shape: seq<nat>)

  /** The (key, value) attention tensors of one layer. */
  datatype KV = KV(key: Tensor, value: Tensor)

  /** The per-layer cache: layer index to its key/value pair. */
  type Cache = map<nat, KV>

  /** Sampling strategy; `f64` parameters are kept as their IEEE bit patterns. */
  datatype Sampling =
    | ArgMax
    | All(temperature: bv64)
    | TopK(k: nat, temperature: bv64)
    | TopP(p: bv64, temperature: bv64)
    | TopKThenTopP(k: nat, p: bv64, temperature: bv64)

  datatype LogitProcessor = LogitProcessor(rng: string, sampling: Sampling)

  datatype TokenOutputStream = TokenOutputStream(
    tokens: seq<nat>,
    prevIndex: nat,
    currentIndex: nat,
    promptIndex: nat,
    prompt: seq<nat>)

  /** A serialized prompt session, owned by the client between calls. */
  datatype Session = Session(
    logitProcessor: LogitProcessor,
    tos: TokenOutputStream,
    caches: Cache)

  /** Progress marker of a model run: next layer to compute, or finishing / finished. */
  datatype ModelRunState = Steps(step: nat) | Finish | Finished

  datatype ModelRun = ModelRun(
    indexPos: nat,
    layerIn: Tensor,
    mask: Option<Tensor>,
    seqLen: nat,
    state: ModelRunState)

  /** Two sessions agree on everything except the cache. */
  predicate SameNonCache(a: Session, b: Session)
  {
    a.logitProcessor == b.logitProcessor && a.tos == b.tos
  }
}
