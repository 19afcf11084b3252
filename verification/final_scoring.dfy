/**
 * The command-line entry point's last two steps (`main.py`): `calculate_final_scoring`, which
 * shifts the original consolidated score by fixed signal adjustments and grades the result, and
 * `assess_human_escalation`, which lists the signals that call for a human.
 *
 * The signal results are a dictionary from agent name to a dictionary holding an
 * `analysis_result` dictionary. A lookup through something that is not a dictionary raises
 * `AttributeError` and a comparison of a non-number raises `TypeError`; both end in the functions'
 * `except` branches, modelled as `Raised`.
 */
module FinalScoring {
  import opened Wrappers
  import opened Values
  import Rounding

  /** `results.get(agent, {}).get('analysis_result', {}).get(field, default)`. */
  function SignalField(results: Record, agent: string, field: string, default: Value): (r: Result<Value>)
    ensures agent !in results ==> r == Ok(default)
  {
    match Get(results, agent, VDict(map[]))
    case VDict(entry) =>
      (match Get(entry, "analysis_result", VDict(map[]))
       case VDict(analysis) => Ok(Get(analysis, field, default))
       case _ => Raised("AttributeError: object has no attribute 'get'"))
    case _ => Raised("AttributeError: object has no attribute 'get'")
  }

  /** `SignalField(...) > t`, raising for a non-number. */
  function SignalAbove(results: Record, agent: string, field: string, t: real): (r: Result<bool>)
    ensures agent !in results ==> r == Ok(false) || t < 0.0
  {
    var v :- SignalField(results, agent, field, VReal(0.0));
    match Num(v)
    case Some(x) => Ok(x > t)
    case None => Raised("TypeError: '>' not supported")
  }

  /** The number behind a field that passed `SignalAbove`. */
  function SignalNumber(results: Record, agent: string, field: string): real
  {
    match SignalField(results, agent, field, VReal(0.0))
    case Ok(v) => Num(v).GetOr(0.0)
    case Raised(_) => 0.0
  }

  /** `bool(SignalField(..., False))`. */
  function SignalFlag(results: Record, agent: string, field: string): (r: Result<bool>)
    ensures agent !in results ==> r == Ok(false)
  {
    var v :- SignalField(results, agent, field, VBool(false));
    Ok(Truthy(v))
  }

  const Sarcasm: string := "sarcasm_sentinel"
  const Echo: string := "echo_mapper"
  const Latency: string := "latency_guard"
  const Slop: string := "slop_filter"
  const Banned: string := "banned_phrase_skeptic"

  /** The five readings the scoring and escalation rules look at. */
  datatype Signals = Signals(sarcasm: real, echo: real, repriced: bool, slop: real, banned: real)

  /** The readings, or the error the first failing lookup raises. */
  function ReadSignals(results: Record): (r: Result<Signals>)
    ensures results == map[] ==> r == Ok(Signals(0.0, 0.0, false, 0.0, 0.0))
  {
    var _ :- SignalAbove(results, Sarcasm, "sarcasm_probability", 0.7);
    var _ :- SignalAbove(results, Echo, "echo_velocity", 0.5);
    var repriced :- SignalFlag(results, Latency, "content_repriced");
    var _ :- SignalAbove(results, Slop, "quality_score", 0.5);
    var _ :- SignalAbove(results, Banned, "total_penalty_weight", 0.3);
    Ok(Signals(
      SignalNumber(results, Sarcasm, "sarcasm_probability"),
      SignalNumber(results, Echo, "echo_velocity"),
      repriced,
      SignalNumber(results, Slop, "quality_score"),
      SignalNumber(results, Banned, "total_penalty_weight")))
  }

  /** The signal adjustment: -1.0, +0.5, -0.8, -slop and -banned, each when its signal crosses its line. */
  function Adjustments(s: Signals): (a: real)
    ensures a <= 0.5
    ensures s.sarcasm <= 0.7 && s.echo <= 0.5 && !s.repriced && s.slop <= 0.5 && s.banned <= 0.3 ==> a == 0.0
  {
    (if s.sarcasm > 0.7 then -1.0 else 0.0)
    + (if s.echo > 0.5 then 0.5 else 0.0)
    + (if s.repriced then -0.8 else 0.0)
    + (if s.slop > 0.5 then -s.slop else 0.0)
    + (if s.banned > 0.3 then -s.banned else 0.0)
  }

  datatype Quality = Excellent | Good | Average | Poor | VeryPoor
  datatype Recommendation = Approve | Review | Reject
  {
    function Rank(): nat
    {
      match this
      case Approve => 0
      case Review => 1
      case Reject => 2
    }
  }

  /** The grading: cuts at 8, 6, 4 and 2. */
  function Grade(score: real): (g: (Quality, Recommendation))
    ensures g.1 == Approve <==> score >= 6.0
    ensures g.1 == Review <==> 4.0 <= score < 6.0
    ensures g.1 == Reject <==> score < 4.0
    ensures g.0 == Excellent <==> score >= 8.0
    ensures g.0 == VeryPoor <==> score < 2.0
  {
    if score >= 8.0 then (Excellent, Approve)
    else if score >= 6.0 then (Good, Approve)
    else if score >= 4.0 then (Average, Review)
    else if score >= 2.0 then (Poor, Reject)
    else (VeryPoor, Reject)
  }

  /** A higher score never gets a worse recommendation. */
  lemma {:induction false} GradeMonotone(a: real, b: real)
    requires a <= b
    ensures Grade(b).1.Rank() <= Grade(a).1.Rank()
  {
  }

  datatype FinalScore = FinalScore(
    original: real,
    adjustments: real,
    final: real,
    quality: Quality,
    recommendation: Recommendation)

  /** What the `except` branch returns. */
  const ScoringFallback: FinalScore := FinalScore(5.0, 0.0, 5.0, Average, Review)

  /** The original score: the consolidated score when the analysis has one, else 5.0. */
  function OriginalScore(consolidated: Option<real>): real
  {
    consolidated.GetOr(5.0)
  }

  /** `calculate_final_scoring`. */
  function CalculateFinalScoring(results: Record, consolidated: Option<real>): (f: FinalScore)
    ensures 0.0 <= f.final <= 10.0
    ensures ReadSignals(results).Raised? ==> f == ScoringFallback
    ensures ReadSignals(results).Ok? ==>
      && f.original == OriginalScore(consolidated)
      && f.adjustments == Adjustments(ReadSignals(results).value)
      && f.final == Rounding.Clamp(f.original + f.adjustments, 0.0, 10.0)
      && (f.quality, f.recommendation) == Grade(f.final)
  {
    match ReadSignals(results)
    case Raised(_) => ScoringFallback
    case Ok(s) =>
      var original := OriginalScore(consolidated);
      var adjustments := Adjustments(s);
      var final := Rounding.Max(0.0, Rounding.Min(10.0, original + adjustments));
      var g := Grade(final);
      FinalScore(original, adjustments, final, g.0, g.1)
  }

  /** With no signal results the final score is the original one, clamped, and unadjusted. */
  lemma {:induction false} FinalScoringWithoutSignals(consolidated: Option<real>)
    ensures CalculateFinalScoring(map[], consolidated).adjustments == 0.0
    ensures CalculateFinalScoring(map[], consolidated).final == Rounding.Clamp(OriginalScore(consolidated), 0.0, 10.0)
  {
  }

  /** A higher original score never lowers the final score nor worsens the recommendation. */
  lemma {:induction false} FinalScoringMonotone(results: Record, c: real, c': real)
    requires c <= c'
    ensures CalculateFinalScoring(results, Some(c)).final <= CalculateFinalScoring(results, Some(c')).final
    ensures CalculateFinalScoring(results, Some(c')).recommendation.Rank() <= CalculateFinalScoring(results, Some(c)).recommendation.Rank()
  {
    var f, f' := CalculateFinalScoring(results, Some(c)), CalculateFinalScoring(results, Some(c'));
    GradeMonotone(f.final, f'.final);
  }

  // ---------------------------------------------------------------------------------------------
  // Escalation
  // ---------------------------------------------------------------------------------------------

  const HighSarcasm: string := "High sarcasm probability detected"
  const ProhibitedPhrases: string := "Significant prohibited phrase penalty detected"
  const StaleNews: string := "Content repricing detected - possible stale news"

  datatype Escalation = Escalation(required: bool, reasons: seq<string>)

  /** The escalation triggers in the order they are checked. */
  function Reasons(s: Signals): (rs: seq<string>)
    ensures HighSarcasm in rs <==> s.sarcasm > 0.8
    ensures ProhibitedPhrases in rs <==> s.banned > 0.3
    ensures StaleNews in rs <==> s.repriced
    ensures |rs| <= 3
    ensures |rs| == (if s.sarcasm > 0.8 then 1 else 0) + (if s.banned > 0.3 then 1 else 0) + (if s.repriced then 1 else 0)
    ensures HighSarcasm in rs ==> rs[0] == HighSarcasm
    ensures StaleNews in rs ==> rs[|rs| - 1] == StaleNews
  {
    (if s.sarcasm > 0.8 then [HighSarcasm] else [])
    + (if s.banned > 0.3 then [ProhibitedPhrases] else [])
    + (if s.repriced then [StaleNews] else [])
  }

  /** The sarcasm, banned-phrase and repricing readings, which are all escalation looks at. */
  function ReadEscalationSignals(results: Record): Result<(real, real, bool)>
  {
    var _ :- SignalAbove(results, Sarcasm, "sarcasm_probability", 0.8);
    var _ :- SignalAbove(results, Banned, "total_penalty_weight", 0.3);
    var repriced :- SignalFlag(results, Latency, "content_repriced");
    Ok((SignalNumber(results, Sarcasm, "sarcasm_probability"),
        SignalNumber(results, Banned, "total_penalty_weight"),
        repriced))
  }

  /**
   * `assess_human_escalation`: required exactly when some reason is given; nothing is escalated
   * when a lookup raises.
   */
  function AssessHumanEscalation(results: Record): (e: Escalation)
    ensures e.required <==> |e.reasons| > 0
    ensures ReadEscalationSignals(results).Raised? ==> e == Escalation(false, [])
    ensures ReadEscalationSignals(results).Ok? ==>
      var (sarcasm, banned, repriced) := ReadEscalationSignals(results).value;
      e.reasons == Reasons(Signals(sarcasm, 0.0, repriced, 0.0, banned))
  {
    match ReadEscalationSignals(results)
    case Raised(_) => Escalation(false, [])
    case Ok((sarcasm, banned, repriced)) =>
      var reasons := Reasons(Signals(sarcasm, 0.0, repriced, 0.0, banned));
      Escalation(|reasons| > 0, reasons)
  }

  /** Escalation is required exactly when sarcasm exceeds 0.8, the banned penalty 0.3, or the content was repriced. */
  lemma {:induction false} EscalationIff(results: Record)
    requires ReadEscalationSignals(results).Ok?
    ensures var (sarcasm, banned, repriced) := ReadEscalationSignals(results).value;
      AssessHumanEscalation(results).required <==> sarcasm > 0.8 || banned > 0.3 || repriced
  {
    var (sarcasm, banned, repriced) := ReadEscalationSignals(results).value;
    var rs := Reasons(Signals(sarcasm, 0.0, repriced, 0.0, banned));
    if sarcasm > 0.8 || banned > 0.3 || repriced {
      assert HighSarcasm in rs || ProhibitedPhrases in rs || StaleNews in rs;
    }
  }

  /** An empty result map escalates nothing. */
  lemma {:induction false} NoEscalationWithoutSignals()
    ensures AssessHumanEscalation(map[]) == Escalation(false, [])
  {
  }

  /**
   * Every escalation trigger is also penalised by the final scoring: whenever escalation is
   * required the signal adjustment is negative unless the echo boost offsets it.
   */
  lemma {:induction false} EscalationIsPenalised(results: Record)
    requires ReadSignals(results).Ok?
    requires AssessHumanEscalation(results).required
    ensures Adjustments(ReadSignals(results).value) < 0.5
    ensures ReadSignals(results).value.echo <= 0.5 ==> Adjustments(ReadSignals(results).value) < 0.0
  {
    var s := ReadSignals(results).value;
    assert ReadEscalationSignals(results).Ok?;
    EscalationIff(results);
    assert s.sarcasm > 0.8 || s.banned > 0.3 || s.repriced;
  }
}
