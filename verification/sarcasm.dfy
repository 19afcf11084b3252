/**
 * The Sarcasm Sentinel (`domain/services/signal_integrity/sarcasm_sentinel_agent.py`): a cue
 * score from indicator patterns, combined with a model score and the author's historical rate,
 * a language model consulted for the ambiguous middle band, and the author's profile updated
 * after every verdict.
 *
 * Regular-expression matching is left abstract: `matches` is the number of the twelve indicator
 * patterns found in the text. The classifier is never loaded (`model_available` stays `False`),
 * so its score is 0.0. The language model's answer is the parameter `llm`: `None` when the call
 * failed, otherwise the decoded JSON value.
 */
module SarcasmSentinel {
  import opened Wrappers
  import opened Values
  import Text
  import Rounding
  import opened MemoryStore

  /** The result record; `confidence_level` keeps its default `"Medium"`. */
  datatype SarcasmResult = SarcasmResult(isSarcastic: bool, pSarcasm: real, reason: Value, confidenceLevel: string)

  /** The conservative answer of the `except` branch. */
  const ErrorResult: SarcasmResult :=
    SarcasmResult(false, 0.0, VStr("Error in analysis, defaulting to non-sarcastic"), "Medium")

  // ---------------------------------------------------------------------------------------------
  // Cues, prior and combination
  // ---------------------------------------------------------------------------------------------

  /** The ellipsis cue: `"..."` together with a praising word. */
  predicate EllipsisCue(text: string)
  {
    Text.Contains(text, "...") && Text.ContainsAny(Text.Lower(text), ["great", "perfect", "wonderful"])
  }

  /** The exclamation cue: two or more `!` in a row together with an enthusiastic word. */
  predicate ExclamationCue(text: string)
  {
    Text.Contains(text, "!!") && Text.ContainsAny(Text.Lower(text), ["amazing", "fantastic", "brilliant"])
  }

  /** `cue_count`: one per matching pattern, one for the ellipsis cue, a half for the exclamation cue. */
  function CueCount(text: string, matches: nat): (n: real)
    ensures n >= matches as real
    ensures n == 0.0 <==> matches == 0 && !EllipsisCue(text) && !ExclamationCue(text)
  {
    matches as real + (if EllipsisCue(text) then 1.0 else 0.0) + (if ExclamationCue(text) then 0.5 else 0.0)
  }

  /** `_detect_linguistic_cues`: `min(1.0, cue_count * 0.3)`. */
  function CueScore(text: string, matches: nat): (c: real)
    ensures 0.0 <= c <= 1.0
    ensures c == 0.0 <==> CueCount(text, matches) == 0.0
    ensures CueCount(text, matches) >= 4.0 ==> c == 1.0
    ensures c < 1.0 ==> c == 0.3 * CueCount(text, matches)
  {
    Rounding.Min(1.0, CueCount(text, matches) * 0.3)
  }

  /** More matching patterns never lower the cue score. */
  lemma {:induction false} CueScoreMonotone(text: string, m: nat, m': nat)
    requires m <= m'
    ensures CueScore(text, m) <= CueScore(text, m')
  {
  }

  /**
   * `_get_author_sarcasm_prior`: the stored `sarcasm_rate`, 0.1 for an author without a profile
   * or a record without the field, and an error for a rate that is not a number.
   */
  function AuthorPrior(st: Store, author: string): (r: Result<real>)
    ensures Find(st, Key(SarcasmNamespace, author)).None? ==> r == Ok(0.1)
    ensures forall p :: Find(st, Key(SarcasmNamespace, author)) == Some(Sarcasm(p)) ==> r == Ok(p.rate)
  {
    match Find(st, Key(SarcasmNamespace, author))
    case None => Ok(0.1)
    case Some(Sarcasm(p)) => Ok(p.rate)
    case Some(Other(fields)) =>
      (match FieldValue(fields, "sarcasm_rate")
       case None => Ok(0.1)
       case Some(v) => if Num(v).Some? then Ok(Num(v).value) else Raised("TypeError: can't multiply sequence by 'float'"))
    case Some(_) => Ok(0.1)
  }

  /** A consistent stored profile gives a prior in `[0, 1]`. */
  lemma {:induction false} AuthorPriorWithin(st: Store, author: string, p: SarcasmVector)
    requires Find(st, Key(SarcasmNamespace, author)) == Some(Sarcasm(p)) && SarcasmOk(p)
    ensures AuthorPrior(st, author).Ok? && 0.0 <= AuthorPrior(st, author).value <= 1.0
  {
    if p.total > 0 {
      RatioWithin(p.sarcastic, p.total);
    }
  }

  /** `_combine_scores`: `0.5·cue + 0.3·model + 0.2·prior`, clamped to `[0, 1]`. */
  function Combine(cue: real, model: real, prior: real): (r: real)
    ensures 0.0 <= r <= 1.0
    ensures 0.0 <= 0.5 * cue + 0.3 * model + 0.2 * prior <= 1.0 ==> r == 0.5 * cue + 0.3 * model + 0.2 * prior
  {
    Rounding.Max(0.0, Rounding.Min(1.0, cue * 0.5 + model * 0.3 + prior * 0.2))
  }

  /** The combination never decreases when any of its three inputs grows. */
  lemma {:induction false} CombineMonotone(c: real, m: real, a: real, c': real, m': real, a': real)
    requires c <= c' && m <= m' && a <= a'
    ensures Combine(c, m, a) <= Combine(c', m', a')
  {
  }

  /** Inputs in `[0, 1]` need no clamping. */
  lemma {:induction false} CombineUnclamped(c: real, m: real, a: real)
    requires 0.0 <= c <= 1.0 && 0.0 <= m <= 1.0 && 0.0 <= a <= 1.0
    ensures Combine(c, m, a) == 0.5 * c + 0.3 * m + 0.2 * a
  {
  }

  /** The band in which the language model is asked. */
  predicate Ambiguous(score: real)
  {
    0.4 <= score <= 0.6
  }

  // ---------------------------------------------------------------------------------------------
  // Reasons and the verdict
  // ---------------------------------------------------------------------------------------------

  const NoIndicators: string := "No clear sarcasm indicators detected"

  /** `_generate_reason`: the crossed indicators joined by `"; "`, or the no-indicator sentence. */
  function GenerateReason(cue: real, model: real, prior: real): (r: string)
    ensures r == NoIndicators <==> cue <= 0.3 && model <= 0.5 && prior <= 0.3
  {
    var reasons :=
      (if cue > 0.3 then ["Contains sarcasm indicators (emojis, phrases)"] else [])
      + (if model > 0.5 then ["Model detected sarcastic tone"] else [])
      + (if prior > 0.3 then ["Author frequently uses sarcasm"] else []);
    if |reasons| == 0 then NoIndicators
    else
      var joined := Text.Join(reasons, "; ");
      assert joined != NoIndicators by {
        assert forall i :: 0 <= i < |reasons| ==> |reasons[i]| >= 29;
        if |reasons| == 1 {
          assert joined == reasons[0];
        } else {
          var rest := Text.Join(reasons[1..], "; ");
          assert |rest| >= 29 by {
            if |reasons| > 2 {
              assert rest == reasons[1] + "; " + Text.Join(reasons[2..], "; ");
            }
          }
          assert joined == reasons[0] + "; " + rest;
        }
      }
      joined
  }

  /**
   * The score and reason after step 5: the combined score, replaced by the language model's
   * `p_sarcasm` (and its reason) when the score is ambiguous and the model answered with a
   * non-empty value. A truthy answer that is not a dictionary raises.
   */
  function Verdict(combined: real, cue: real, prior: real, llm: Option<Value>): (r: Result<(Value, Value)>)
    ensures !Ambiguous(combined) ==> r == Ok((VReal(combined), VStr(GenerateReason(cue, 0.0, prior))))
    ensures Ambiguous(combined) && (llm.None? || !Truthy(llm.value)) ==>
      r == Ok((VReal(combined), VStr(GenerateReason(cue, 0.0, prior))))
    ensures Ambiguous(combined) && llm.Some? && Truthy(llm.value) && llm.value.VDict? ==>
      r == Ok((Get(llm.value.fields, "p_sarcasm", VReal(combined)), Get(llm.value.fields, "reason", VStr(""))))
    ensures r.Raised? <==> Ambiguous(combined) && llm.Some? && Truthy(llm.value) && !llm.value.VDict?
  {
    if Ambiguous(combined) && llm.Some? && Truthy(llm.value) then
      match llm.value
      case VDict(answer) => Ok((Get(answer, "p_sarcasm", VReal(combined)), Get(answer, "reason", VStr(""))))
      case _ => Raised("AttributeError: object has no attribute 'get'")
    else Ok((VReal(combined), VStr(GenerateReason(cue, 0.0, prior))))
  }

  // ---------------------------------------------------------------------------------------------
  // The profile update
  // ---------------------------------------------------------------------------------------------

  /** The profile `_update_author_profile` starts from: the stored one, or zeroes without a timestamp. */
  function AgentProfile(st: Store, author: string): (r: Result<SarcasmVector>)
    ensures r.Ok? && Find(st, Key(SarcasmNamespace, author)).Some? ==> r == SarcasmProfile(st, author, 0)
    ensures Find(st, Key(SarcasmNamespace, author)).None? ==> r == Ok(SarcasmVector(0, 0, 0.0, None, None))
  {
    match Find(st, Key(SarcasmNamespace, author))
    case None => Ok(SarcasmVector(0, 0, 0.0, None, None))
    case Some(Sarcasm(p)) => Ok(p)
    case Some(_) => Raised("KeyError: total_tweets")
  }

  /** The agent's own profile step: counts and rate, with no timestamp and no confidence history. */
  function AgentNext(p: SarcasmVector, isSarcastic: bool): (q: SarcasmVector)
    ensures q.total == p.total + 1
    ensures q.lastUpdated == p.lastUpdated && q.confidences == p.confidences
  {
    var total := p.total + 1;
    var sarcastic := if isSarcastic then p.sarcastic + 1 else p.sarcastic;
    p.(total := total, sarcastic := sarcastic, rate := sarcastic as real / total as real)
  }

  /**
   * The agent's step and the memory manager's step write the same counts and rate; they differ
   * only in the manager's `last_updated` stamp.
   */
  lemma {:induction false} AgentNextAgrees(p: SarcasmVector, isSarcastic: bool, now: int)
    ensures AgentNext(p, isSarcastic) == NextSarcasm(p, isSarcastic, None, now).(lastUpdated := p.lastUpdated)
    ensures SarcasmOk(p) ==> SarcasmOk(AgentNext(p, isSarcastic))
  {
    if SarcasmOk(p) {
      NextSarcasmOk(p, isSarcastic, None, now);
    }
  }

  /** `_update_author_profile`. */
  function UpdateAuthorProfile(st: Store, author: string, isSarcastic: bool): (r: Result<Store>)
    ensures r.Ok? <==> AgentProfile(st, author).Ok?
    ensures r.Ok? ==> Find(r.value, Key(SarcasmNamespace, author)) == Some(Sarcasm(AgentNext(AgentProfile(st, author).value, isSarcastic)))
    ensures r.Ok? ==> forall k :: k != Key(SarcasmNamespace, author) ==> Find(r.value, k) == Find(st, k)
  {
    var p :- AgentProfile(st, author);
    var e := Sarcasm(AgentNext(p, isSarcastic));
    PutFind(st, Key(SarcasmNamespace, author), e, "");
    forall k | k != Key(SarcasmNamespace, author)
      ensures Find(Put(st, Key(SarcasmNamespace, author), e), k) == Find(st, k)
    {
      PutFind(st, Key(SarcasmNamespace, author), e, k);
    }
    Ok(Put(st, Key(SarcasmNamespace, author), e))
  }

  // ---------------------------------------------------------------------------------------------
  // `analyze_sarcasm`
  // ---------------------------------------------------------------------------------------------

  /** Step 6 and the rounding of the result: sarcastic exactly above 0.5, reported to three decimals. */
  function Decide(score: real): (d: (bool, real))
    ensures d.0 <==> score > 0.5
    ensures d.0 ==> d.1 >= 0.5
    ensures !d.0 ==> d.1 <= 0.5
    ensures score - 0.0005 <= d.1 <= score + 0.0005
  {
    Rounding.RoundThreeBetween(score, 500, 500);
    Rounding.RoundError(score, 3);
    assert Rounding.Pow10(3) == 1000;
    (score > 0.5, Rounding.Round(score, 3))
  }

  /** The body of the `try` block of `analyze_sarcasm`: the result and the updated store, or the exception. */
  function Analysis(text: string, author: string, matches: nat, st: Store, llm: Option<Value>): (r: Result<(SarcasmResult, Store)>)
    ensures r.Ok? ==> (r.value.0.isSarcastic ==> r.value.0.pSarcasm >= 0.5) && (!r.value.0.isSarcastic ==> r.value.0.pSarcasm <= 0.5)
  {
    var prior :- AuthorPrior(st, author);
    var cue := CueScore(text, matches);
    var combined := Combine(cue, 0.0, prior);
    var verdict :- Verdict(combined, cue, prior, llm);
    var score :- (if Num(verdict.0).Some? then Ok(Num(verdict.0).value) else Raised("TypeError: '>' not supported"));
    var (isSarcastic, p) := Decide(score);
    var st' :- UpdateAuthorProfile(st, author, isSarcastic);
    Ok((SarcasmResult(isSarcastic, p, verdict.1, "Medium"), st'))
  }

  /**
   * `analyze_sarcasm`: the result and the memory store after it. Any exception on the way gives
   * the conservative result and leaves the store as it was.
   */
  function AnalyzeSarcasm(text: string, author: string, matches: nat, st: Store, llm: Option<Value>): (r: (SarcasmResult, Store))
    ensures r.0.isSarcastic ==> r.0.pSarcasm >= 0.5
    ensures !r.0.isSarcastic ==> r.0.pSarcasm <= 0.5
    ensures Analysis(text, author, matches, st, llm).Raised? ==> r == (ErrorResult, st)
  {
    match Analysis(text, author, matches, st, llm)
    case Ok(res) => res
    case Raised(_) => (ErrorResult, st)
  }

  /** The language model's answer matters only when the combined score is in `[0.4, 0.6]`. */
  lemma {:induction false} LlmOnlyWhenAmbiguous(text: string, author: string, matches: nat, st: Store, llm: Option<Value>, llm': Option<Value>)
    requires AuthorPrior(st, author).Ok? ==> !Ambiguous(Combine(CueScore(text, matches), 0.0, AuthorPrior(st, author).value))
    ensures AnalyzeSarcasm(text, author, matches, st, llm) == AnalyzeSarcasm(text, author, matches, st, llm')
  {
  }

  /**
   * Without any cue and with a prior in `[0, 1]` the tweet is judged not sarcastic, without asking
   * the language model, with a probability of at most 0.2.
   */
  lemma {:induction false} NoCueNotSarcastic(text: string, author: string, st: Store, llm: Option<Value>)
    requires !EllipsisCue(text) && !ExclamationCue(text)
    requires AuthorPrior(st, author).Ok? && 0.0 <= AuthorPrior(st, author).value <= 1.0
    ensures !AnalyzeSarcasm(text, author, 0, st, llm).0.isSarcastic
    ensures AnalyzeSarcasm(text, author, 0, st, llm).0.pSarcasm <= 0.2
  {
    var prior := AuthorPrior(st, author).value;
    assert CueScore(text, 0) == 0.0;
    var combined := Combine(0.0, 0.0, prior);
    assert combined == 0.2 * prior <= 0.2;
    Rounding.RoundThreeBetween(combined, 0, 200);
  }

  /**
   * A completed analysis counts the tweet in its author's profile, as sarcastic exactly when the
   * verdict is, and leaves every other record alone.
   */
  lemma {:induction false} AnalysisRecords(text: string, author: string, matches: nat, st: Store, llm: Option<Value>, k: string)
    requires Analysis(text, author, matches, st, llm).Ok?
    ensures var (res, st') := Analysis(text, author, matches, st, llm).value;
      var before := AgentProfile(st, author).value;
      var after := Find(st', Key(SarcasmNamespace, author));
      && after.Some? && after.value.Sarcasm?
      && after.value.sarcasm.total == before.total + 1
      && after.value.sarcasm.sarcastic == before.sarcastic + (if res.isSarcastic then 1 else 0)
      && (k != Key(SarcasmNamespace, author) ==> Find(st', k) == Find(st, k))
  {
  }
}
