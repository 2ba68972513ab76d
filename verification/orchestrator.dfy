/**
 * The top-level drivers: the prompt (`prompt` in Rust, `internal_prompt` in
 * TypeScript) runs ingestion, then a capped decode loop that stops right
 * after an end-of-sequence step; the older `main` of `client/client.ts` runs
 * exactly 100 decode steps. The library front end (`chat`, `prompt`) renders
 * the chat template and hands the string to the prompt driver.
 */
module Orchestrator {
  import opened Wrappers
  import opened Types
  import opened Remote
  import opened Phases
  import opened ChatTemplate

  /** Decode-step cap of the Rust `prompt`. */
  const RustCap: nat := 50
  /** Decode-step cap of the TypeScript `internal_prompt` and of `main`. */
  const TsCap: nat := 100

  /** The prompt string hard-coded in `main` of `client/client.ts`. */
  const LegacyPrompt :=
    "<|begin_of_text|><|start_header_id|>system<|end_header_id|>\n"
    + "You are a helpful assistant<|eot_id|>\n"
    + "<|start_header_id|>user<|end_header_id|>\n"
    + "\n"
    + "Where is Poland placed?<|eot_id|><|start_header_id|>assistant<|end_header_id|>"

  /** A variant of the prompt driver: its ingestion policy and its decode cap. */
  datatype Variant = Variant(start: StartPolicy, cap: nat)

  const RustPrompt := Variant(RustStart, RustCap)
  const TsPrompt := Variant(TsStart, TsCap)

  /** The texts of the steps that produced one, concatenated in order. */
  function JoinTexts(steps: seq<Stepped>): string
  {
    if steps == [] then ""
    else
      (match steps[0].text case Some(t) => t case None => "") + JoinTexts(steps[1..])
  }

  /** The session the `j`-th decode step starts from. */
  function SessionBefore(s: Session, steps: seq<Stepped>, j: nat): Session
    requires j <= |steps|
  {
    if j == 0 then s else steps[j - 1].session
  }

  /** Each of `steps` is the step the client takes from the session the previous one returned. */
  ghost predicate StepChain(b: Backend, s: Session, fuel: nat, steps: seq<Stepped>)
    decreases |steps|
  {
    steps == [] ||
      (StepChain(b, s, fuel, steps[..|steps| - 1])
       && Step(b, SessionBefore(s, steps, |steps| - 1), fuel) == Success(steps[|steps| - 1]))
  }

  /**
   * `steps` is a run of the decode loop from `s`: each step is the step the
   * client takes from the session the previous one returned, no step but the
   * last reports end-of-sequence, and the loop stopped at the cap or right
   * after an end-of-sequence step.
   */
  ghost predicate IsDecodeRun(b: Backend, s: Session, cap: nat, fuel: nat, steps: seq<Stepped>)
  {
    && |steps| <= cap
    && StepChain(b, s, fuel, steps)
    && (forall j :: 0 <= j < |steps| - 1 ==> !steps[j].eos)
    && (|steps| == cap || (|steps| > 0 && steps[|steps| - 1].eos))
  }

  /** The loop `for _ in 0..cap { step; push text; if eos break }`. */
  method DecodeLoop(b: Backend, s: Session, cap: nat, fuel: nat) returns (r: Result<seq<Stepped>>)
    ensures r.Success? ==> IsDecodeRun(b, s, cap, fuel, r.value)
    ensures r.Failure? ==> r.error == CallFailed || r.error == OutOfFuel
  {
    var session := s;
    var steps: seq<Stepped> := [];
    var i := 0;
    while i < cap
      invariant i == |steps| <= cap
      invariant session == SessionBefore(s, steps, i)
      invariant StepChain(b, s, fuel, steps)
      invariant forall j :: 0 <= j < |steps| ==> !steps[j].eos
    {
      var st := Step(b, session, fuel);
      if st.Failure? {
        return Failure(st.error);
      }
      SessionBeforeSnoc(s, steps, st.value);
      assert (steps + [st.value])[..|steps|] == steps;
      steps := steps + [st.value];
      session := st.value.session;
      if st.value.eos {
        return Success(steps);
      }
      i := i + 1;
    }
    return Success(steps);
  }

  /** Appending a step does not change the sessions earlier steps started from. */
  lemma SessionBeforeSnoc(s: Session, steps: seq<Stepped>, x: Stepped)
    ensures forall j :: 0 <= j <= |steps| ==> SessionBefore(s, steps + [x], j) == SessionBefore(s, steps, j)
    ensures SessionBefore(s, steps + [x], |steps| + 1) == x.session
  {
    forall j | 0 < j <= |steps| ensures SessionBefore(s, steps + [x], j) == SessionBefore(s, steps, j) {
      assert (steps + [x])[j - 1] == steps[j - 1];
    }
  }

  /** What the prompt driver produced: the text, the ingestion result and the decode steps. */
  datatype Transcript = Transcript(text: string, started: Started, steps: seq<Stepped>)

  /**
   * `t` is what the prompt driver of variant `v` produces for `prompt`: the
   * session from `start_prompt` goes through ingestion, the decode loop
   * continues from ingestion's session, and the text is the ingestion text
   * followed by the step texts in order.
   */
  ghost predicate IsPromptRun(b: Backend, prompt: string, v: Variant, rounds: nat, fuel: nat, t: Transcript)
  {
    && b.startPrompt(prompt).Some?
    && StartIterative(b, b.startPrompt(prompt).value, v.start, rounds, fuel) == Success(t.started)
    && IsDecodeRun(b, t.started.session, v.cap, fuel, t.steps)
    && t.text == t.started.text + JoinTexts(t.steps)
  }

  /** `prompt` (Rust) and `internal_prompt` (TypeScript). */
  method Prompt(b: Backend, prompt: string, v: Variant, rounds: nat, fuel: nat) returns (r: Result<Transcript>)
    ensures r.Success? ==> IsPromptRun(b, prompt, v, rounds, fuel, r.value)
    ensures r.Success? ==> |r.value.steps| <= v.cap
  {
    var s := b.startPrompt(prompt);
    if s.None? {
      return Failure(CallFailed);
    }
    var started := StartIterative(b, s.value, v.start, rounds, fuel);
    if started.Failure? {
      return Failure(started.error);
    }
    var decoded := DecodeLoop(b, started.value.session, v.cap, fuel);
    if decoded.Failure? {
      return Failure(decoded.error);
    }
    r := Success(Transcript(started.value.text + JoinTexts(decoded.value), started.value, decoded.value));
  }

  /** The library's `chat`: render the template and run the Rust prompt driver on it. */
  method Chat(b: Backend, messages: seq<ChatMessage>, rounds: nat, fuel: nat) returns (r: Result<Transcript>)
    ensures r.Success? ==> IsPromptRun(b, RenderChat(messages), RustPrompt, rounds, fuel, r.value)
  {
    r := Prompt(b, RenderChat(messages), RustPrompt, rounds, fuel);
  }

  /** The library's `prompt`: the fixed system instruction and the user's text, as a chat. */
  method PromptUser(b: Backend, text: string, rounds: nat, fuel: nat) returns (r: Result<Transcript>)
    ensures r.Success? ==> IsPromptRun(b, RenderChat(PromptMessages(text)), RustPrompt, rounds, fuel, r.value)
  {
    r := Chat(b, PromptMessages(text), rounds, fuel);
  }

  /** What `main` of `client/client.ts` logs: the ingestion text, then each step's text. */
  datatype LegacyTranscript = LegacyTranscript(started: Started, texts: seq<Option<string>>, session: Session)

  /** `main` of `client/client.ts`: ingestion, then exactly 100 steps with no end-of-sequence check. */
  method LegacyMain(b: Backend, rounds: nat, fuel: nat) returns (r: Result<LegacyTranscript>)
    ensures r.Success? ==> b.startPrompt(LegacyPrompt).Some?
    ensures r.Success? ==>
      StartIterative(b, b.startPrompt(LegacyPrompt).value, LegacyStart, rounds, fuel) == Success(r.value.started)
    ensures r.Success? ==> |r.value.texts| == TsCap
    ensures r.Success? ==> LegacySteps(b, r.value.started.session, TsCap, fuel) == Success((r.value.texts, r.value.session))
  {
    var s := b.startPrompt(LegacyPrompt);
    if s.None? {
      return Failure(CallFailed);
    }
    var started := StartIterative(b, s.value, LegacyStart, rounds, fuel);
    if started.Failure? {
      return Failure(started.error);
    }
    var session := started.value.session;
    var texts: seq<Option<string>> := [];
    var i := 0;
    while i < TsCap
      invariant i == |texts| <= TsCap
      invariant LegacySteps(b, started.value.session, i, fuel) == Success((texts, session))
    {
      var st := LegacyStep(b, session, fuel);
      if st.Failure? {
        LegacyStepsFail(b, started.value.session, i, fuel);
        return Failure(st.error);
      }
      LegacyStepsSnoc(b, started.value.session, i, fuel);
      texts := texts + [st.value.0];
      session := st.value.1;
      i := i + 1;
    }
    return Success(LegacyTranscript(started.value, texts, session));
  }

  /** `k` legacy steps from `s`: the texts in order and the final session. */
  function LegacySteps(b: Backend, s: Session, k: nat, fuel: nat): (r: Result<(seq<Option<string>>, Session)>)
    ensures r.Success? ==> |r.value.0| == k
    decreases k
  {
    if k == 0 then Success(([], s))
    else
      match LegacySteps(b, s, k - 1, fuel)
      case Failure(e) => Failure(e)
      case Success(prev) =>
        match LegacyStep(b, prev.1, fuel)
        case Failure(e) => Failure(e)
        case Success(st) => Success((prev.0 + [st.0], st.1))
  }

  lemma LegacyStepsSnoc(b: Backend, s: Session, k: nat, fuel: nat)
    requires LegacySteps(b, s, k, fuel).Success?
    requires LegacyStep(b, LegacySteps(b, s, k, fuel).value.1, fuel).Success?
    ensures var prev := LegacySteps(b, s, k, fuel).value;
            var st := LegacyStep(b, prev.1, fuel).value;
            LegacySteps(b, s, k + 1, fuel) == Success((prev.0 + [st.0], st.1))
  {
  }

  lemma LegacyStepsFail(b: Backend, s: Session, k: nat, fuel: nat)
    requires LegacySteps(b, s, k, fuel).Success?
    requires LegacyStep(b, LegacySteps(b, s, k, fuel).value.1, fuel).Failure?
    ensures LegacySteps(b, s, k + 1, fuel).Failure?
  {
  }
}

/** Laws of the decode loop and of the transcript text. */
module OrchestratorLaws {
  import opened Wrappers
  import opened Types
  import opened Remote
  import opened Phases
  import opened Orchestrator

  /** In a chain, each step is the client's step from the session before it. */
  lemma {:induction false} StepChainAt(b: Backend, s: Session, fuel: nat, steps: seq<Stepped>, j: nat)
    requires StepChain(b, s, fuel, steps) && j < |steps|
    ensures Step(b, SessionBefore(s, steps, j), fuel) == Success(steps[j])
    decreases |steps|
  {
    if j < |steps| - 1 {
      var init := steps[..|steps| - 1];
      StepChainAt(b, s, fuel, init, j);
      if j > 0 { assert init[j - 1] == steps[j - 1]; }
    }
  }

  /** Two chains from the same session agree on their common prefix. */
  lemma {:induction false} ChainsAgree(b: Backend, s: Session, fuel: nat, a: seq<Stepped>, c: seq<Stepped>, k: nat)
    requires StepChain(b, s, fuel, a) && StepChain(b, s, fuel, c)
    requires k <= |a| && k <= |c|
    ensures a[..k] == c[..k]
    decreases k
  {
    if k > 0 {
      ChainsAgree(b, s, fuel, a, c, k - 1);
      NextStepAgrees(b, s, fuel, a, c, k - 1);
      PrefixExtends(a, c, k);
    }
  }

  /** Equal prefixes followed by an equal element are equal prefixes one longer. */
  lemma PrefixExtends<T>(a: seq<T>, c: seq<T>, k: nat)
    requires 0 < k <= |a| && k <= |c|
    requires a[..k - 1] == c[..k - 1] && a[k - 1] == c[k - 1]
    ensures a[..k] == c[..k]
  {
    assert a[..k] == a[..k - 1] + [a[k - 1]];
    assert c[..k] == c[..k - 1] + [c[k - 1]];
  }

  /** Two chains that agree up to step `j` take the same step `j`. */
  lemma NextStepAgrees(b: Backend, s: Session, fuel: nat, a: seq<Stepped>, c: seq<Stepped>, j: nat)
    requires StepChain(b, s, fuel, a) && StepChain(b, s, fuel, c)
    requires j < |a| && j < |c| && a[..j] == c[..j]
    ensures a[j] == c[j]
  {
    assert SessionBefore(s, a, j) == SessionBefore(s, c, j) by {
      if j > 0 { assert a[j - 1] == a[..j][j - 1]; assert c[j - 1] == c[..j][j - 1]; }
    }
    StepChainAt(b, s, fuel, a, j);
    StepChainAt(b, s, fuel, c, j);
  }

  /** The decode loop is determined by the backend and the session it starts from. */
  lemma DecodeRunUnique(b: Backend, s: Session, cap: nat, fuel: nat, a: seq<Stepped>, c: seq<Stepped>)
    requires IsDecodeRun(b, s, cap, fuel, a) && IsDecodeRun(b, s, cap, fuel, c)
    ensures a == c
  {
    if |a| < |c| {
      ChainsAgree(b, s, fuel, a, c, |a|);
      assert false;
    } else if |c| < |a| {
      ChainsAgree(b, s, fuel, a, c, |c|);
      assert false;
    } else {
      ChainsAgree(b, s, fuel, a, c, |a|);
      assert a == a[..|a|] && c == c[..|c|];
    }
  }

  /**
   * If the third step the client would take reports end-of-sequence and the
   * first two do not, the loop stops after exactly those three steps, well
   * before the cap.
   */
  lemma StopsAtThirdStep(b: Backend, s: Session, fuel: nat, ref: seq<Stepped>, steps: seq<Stepped>)
    requires |ref| == 3 && StepChain(b, s, fuel, ref)
    requires !ref[0].eos && !ref[1].eos && ref[2].eos
    requires IsDecodeRun(b, s, TsCap, fuel, steps)
    ensures steps == ref
    ensures |steps| == 3
  {
    DecodeRunUnique(b, s, TsCap, fuel, ref, steps);
  }

  /** Texts of consecutive runs of steps concatenate. */
  lemma {:induction false} JoinTextsAppend(a: seq<Stepped>, c: seq<Stepped>)
    ensures JoinTexts(a + c) == JoinTexts(a) + JoinTexts(c)
    decreases |a|
  {
    if a == [] {
      assert a + c == c;
    } else {
      assert (a + c)[1..] == a[1..] + c;
      JoinTextsAppend(a[1..], c);
    }
  }

  /** A step with text appends it; a step without text adds nothing. */
  lemma JoinTextsSnoc(steps: seq<Stepped>, x: Stepped)
    ensures x.text.Some? ==> JoinTexts(steps + [x]) == JoinTexts(steps) + x.text.value
    ensures x.text.None? ==> JoinTexts(steps + [x]) == JoinTexts(steps)
  {
    JoinTextsAppend(steps, [x]);
    assert [x][1..] == [];
  }
}
