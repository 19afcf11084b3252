/**
 * The arithmetic of `EnhancedMultiAgentAnalyzer`
 * (`domain/services/orchestration/enhanced_multi_agent_analyzer.py`) beyond its weight table and
 * sequence (those live in `Agents`): the scores the five signal agents report, the sequential
 * adjustments of the consolidated score, and the per-namespace statistics of the memory store.
 */
module Enhanced {
  import opened Wrappers
  import opened Values
  import opened Agents
  import opened AnalysisResults
  import Consolidation
  import Rounding
  import Text
  import opened Tallies

  // ---------------------------------------------------------------------------------------------
  // Signal-agent scores
  // ---------------------------------------------------------------------------------------------

  /** The sarcasm sentinel's `agent_score`: 8.0 for a sarcastic verdict, 7.0 otherwise. */
  function SarcasmAgentScore(isSarcastic: bool): (s: real)
    ensures 7.0 <= s <= 8.0
    ensures s == 8.0 <==> isSarcastic
  {
    if isSarcastic then 8.0 else 7.0
  }

  /** The echo mapper's `agent_score`: `min(10, 5 + 5 * velocity)`. */
  function EchoAgentScore(velocity: real): (s: real)
    ensures s <= 10.0
    ensures 0.0 <= velocity ==> 5.0 <= s
    ensures velocity <= 1.0 ==> s == 5.0 + 5.0 * velocity
  {
    Rounding.Min(10.0, 5.0 + velocity * 5.0)
  }

  /** The slop filter's and the banned-phrase skeptic's `agent_score`: `max(1, 10 - 8 * x)`. */
  function InverseAgentScore(x: real): (s: real)
    ensures 1.0 <= s
    ensures 0.0 <= x ==> s <= 10.0
    ensures x <= 1.0 ==> s == 10.0 - 8.0 * x && 2.0 <= s
  {
    Rounding.Max(1.0, 10.0 - x * 8.0)
  }

  /** A higher echo velocity never lowers the echo score. */
  lemma {:induction false} EchoAgentScoreMonotone(v: real, w: real)
    requires v <= w
    ensures EchoAgentScore(v) <= EchoAgentScore(w)
  {
  }

  /** A higher slop score or tone penalty never raises the inverse score. */
  lemma {:induction false} InverseAgentScoreAntitone(x: real, y: real)
    requires x <= y
    ensures InverseAgentScore(y) <= InverseAgentScore(x)
  {
  }

  /** Every signal-agent score lies in `[1, 10]` for inputs in `[0, 1]`. */
  lemma {:induction false} SignalScoresWithin(b: bool, v: real, x: real)
    requires 0.0 <= v <= 1.0 && 0.0 <= x <= 1.0
    ensures 1.0 <= SarcasmAgentScore(b) <= 10.0
    ensures 1.0 <= EchoAgentScore(v) <= 10.0
    ensures 1.0 <= InverseAgentScore(x) <= 10.0
  {
  }

  // ---------------------------------------------------------------------------------------------
  // Sequential adjustments
  // ---------------------------------------------------------------------------------------------

  /**
   * An agent's reading that crosses its threshold: the number in `field` (0.0 when absent) when
   * the agent answered successfully and the number exceeds `threshold`. Comparing a non-number
   * raises `TypeError`.
   */
  function Reading(rs: seq<AgentResponse>, a: Agent, field: string, threshold: real): (r: Result<Option<real>>)
    ensures Consolidation.SuccessData(rs, a).None? ==> r == Ok(None)
    ensures r.Ok? && r.value.Some? ==> threshold < r.value.value
  {
    match Consolidation.SuccessData(rs, a)
    case None => Ok(None)
    case Some(d) =>
      match Num(Get(d, field, VReal(0.0)))
      case None => Raised("TypeError: '>' not supported")
      case Some(x) => Ok(if x > threshold then Some(x) else None)
  }

  /**
   * The sarcasm rule's condition: a successful sarcastic verdict and a successful fact check
   * whose `agent_score` (5.0 when absent) is below 4.0.
   */
  function SarcasmGuard(rs: seq<AgentResponse>): (r: Result<bool>)
    ensures Consolidation.SuccessData(rs, SarcasmSentinel).None? ==> r == Ok(false)
    ensures Consolidation.SuccessData(rs, FactChecker).None? ==> r == Ok(false)
  {
    match Consolidation.SuccessData(rs, SarcasmSentinel)
    case None => Ok(false)
    case Some(d) =>
      if !Truthy(Get(d, "is_sarcastic", VNone)) then Ok(false)
      else
        match Consolidation.SuccessData(rs, FactChecker)
        case None => Ok(false)
        case Some(f) => Consolidation.Below(Get(f, "agent_score", VReal(5.0)), 4.0)
  }

  /** The sarcasm rule keeps a sarcastic tweet with a poor fact score from ending below 5.0. */
  function SarcasmStep(rs: seq<AgentResponse>, cur: real): (r: Result<real>)
    ensures r.Ok? <==> SarcasmGuard(rs).Ok?
    ensures r.Ok? ==> cur <= r.value
    ensures r.Ok? && SarcasmGuard(rs).value ==> 5.0 <= r.value
    ensures r.Ok? && r.value != cur ==> SarcasmGuard(rs).value && r.value == 5.0
  {
    var fires :- SarcasmGuard(rs);
    Ok(if fires then Rounding.Max(cur, 5.0) else cur)
  }

  /** The echo boost `2 * (velocity - 0.5)` for a velocity above 0.5, capped at 10.0. */
  function EchoStep(rs: seq<AgentResponse>, cur: real): (r: Result<real>)
    ensures r.Ok? <==> Reading(rs, EchoMapper, "echo_velocity", 0.5).Ok?
    ensures r.Ok? && r.value != cur ==> r.value <= 10.0 && Reading(rs, EchoMapper, "echo_velocity", 0.5).value.Some?
    ensures r.Ok? && cur <= 10.0 ==> cur <= r.value <= 10.0
    ensures r.Ok? && Reading(rs, EchoMapper, "echo_velocity", 0.5).value.None? ==> r.value == cur
    ensures r.Ok? && Reading(rs, EchoMapper, "echo_velocity", 0.5).value.Some? ==>
      var boost := 2.0 * (Reading(rs, EchoMapper, "echo_velocity", 0.5).value.value - 0.5);
      && 0.0 < boost
      && (cur + boost <= 10.0 ==> r.value == cur + boost)
      && (10.0 < cur + boost ==> r.value == 10.0)
      && (Reading(rs, EchoMapper, "echo_velocity", 0.5).value.value <= 1.0 ==> r.value <= cur + 1.0)
  {
    var v :- Reading(rs, EchoMapper, "echo_velocity", 0.5);
    Ok(match v case Some(x) => Rounding.Min(10.0, cur + (x - 0.5) * 2.0) case None => cur)
  }

  /** The slop penalty `3 * (slop - 0.7)` for a slop score above 0.7, floored at 1.0. */
  function SlopStep(rs: seq<AgentResponse>, cur: real): (r: Result<real>)
    ensures r.Ok? <==> Reading(rs, SlopFilter, "slop_score", 0.7).Ok?
    ensures r.Ok? && r.value != cur ==> 1.0 <= r.value && Reading(rs, SlopFilter, "slop_score", 0.7).value.Some?
    ensures r.Ok? && 1.0 <= cur ==> 1.0 <= r.value <= cur
    ensures r.Ok? && Reading(rs, SlopFilter, "slop_score", 0.7).value.None? ==> r.value == cur
    ensures r.Ok? && Reading(rs, SlopFilter, "slop_score", 0.7).value.Some? ==>
      var penalty := 3.0 * (Reading(rs, SlopFilter, "slop_score", 0.7).value.value - 0.7);
      && 0.0 < penalty
      && (1.0 <= cur - penalty ==> r.value == cur - penalty)
      && (cur - penalty < 1.0 ==> r.value == 1.0)
      && (Reading(rs, SlopFilter, "slop_score", 0.7).value.value <= 1.0 ==> cur - 0.9 <= r.value)
  {
    var s :- Reading(rs, SlopFilter, "slop_score", 0.7);
    Ok(match s case Some(x) => Rounding.Max(1.0, cur - (x - 0.7) * 3.0) case None => cur)
  }

  /** The tone penalty `2 * tone_penalty` for a penalty above 0.2, floored at 1.0. */
  function ToneStep(rs: seq<AgentResponse>, cur: real): (r: Result<real>)
    ensures r.Ok? <==> Reading(rs, BannedPhraseSkeptic, "tone_penalty", 0.2).Ok?
    ensures r.Ok? && r.value != cur ==> 1.0 <= r.value && Reading(rs, BannedPhraseSkeptic, "tone_penalty", 0.2).value.Some?
    ensures r.Ok? && 1.0 <= cur ==> 1.0 <= r.value <= cur
    ensures r.Ok? && Reading(rs, BannedPhraseSkeptic, "tone_penalty", 0.2).value.None? ==> r.value == cur
    ensures r.Ok? && Reading(rs, BannedPhraseSkeptic, "tone_penalty", 0.2).value.Some? ==>
      var penalty := 2.0 * Reading(rs, BannedPhraseSkeptic, "tone_penalty", 0.2).value.value;
      && 0.0 < penalty
      && (1.0 <= cur - penalty ==> r.value == cur - penalty)
      && (cur - penalty < 1.0 ==> r.value == 1.0)
      && (Reading(rs, BannedPhraseSkeptic, "tone_penalty", 0.2).value.value <= 1.0 ==> cur - 2.0 <= r.value)
  {
    var t :- Reading(rs, BannedPhraseSkeptic, "tone_penalty", 0.2);
    Ok(match t case Some(x) => Rounding.Max(1.0, cur - x * 2.0) case None => cur)
  }

  /** The four rules in order: sarcasm, echo, slop, tone. */
  function Adjusted(rs: seq<AgentResponse>, cur: real): Result<real>
  {
    var s1 :- SarcasmStep(rs, cur);
    var s2 :- EchoStep(rs, s1);
    var s3 :- SlopStep(rs, s2);
    ToneStep(rs, s3)
  }

  /** Whether the rules raise does not depend on the running score. */
  lemma {:induction false} AdjustedOkIndependent(rs: seq<AgentResponse>, cur: real, cur': real)
    ensures Adjusted(rs, cur).Ok? <==> Adjusted(rs, cur').Ok?
  {
  }

  /** The rules keep a score in `[1, 10]` inside `[1, 10]`. */
  lemma {:induction false} AdjustedWithin(rs: seq<AgentResponse>, cur: real)
    requires 1.0 <= cur <= 10.0
    requires Adjusted(rs, cur).Ok?
    ensures 1.0 <= Adjusted(rs, cur).value <= 10.0
  {
  }

  /** A higher starting score never ends lower: every rule is monotone in the running score. */
  lemma {:induction false} AdjustedMonotone(rs: seq<AgentResponse>, cur: real, cur': real)
    requires cur <= cur'
    requires Adjusted(rs, cur).Ok?
    ensures Adjusted(rs, cur').Ok? && Adjusted(rs, cur).value <= Adjusted(rs, cur').value
  {
    AdjustedOkIndependent(rs, cur, cur');
    var s1, s1' := SarcasmStep(rs, cur).value, SarcasmStep(rs, cur').value;
    assert s1 <= s1';
    var s2, s2' := EchoStep(rs, s1).value, EchoStep(rs, s1').value;
    assert s2 <= s2' by {
      match Reading(rs, EchoMapper, "echo_velocity", 0.5).value
      case Some(x) =>
      case None =>
    }
    var s3, s3' := SlopStep(rs, s2).value, SlopStep(rs, s2').value;
    assert s3 <= s3' by {
      match Reading(rs, SlopFilter, "slop_score", 0.7).value
      case Some(x) =>
      case None =>
    }
  }

  /** With no signal agent answering successfully the score passes through unchanged. */
  lemma {:induction false} AdjustedWithoutSignals(rs: seq<AgentResponse>, cur: real)
    requires Consolidation.SuccessData(rs, SarcasmSentinel).None?
    requires Consolidation.SuccessData(rs, EchoMapper).None?
    requires Consolidation.SuccessData(rs, SlopFilter).None?
    requires Consolidation.SuccessData(rs, BannedPhraseSkeptic).None?
    ensures Adjusted(rs, cur) == Ok(cur)
  {
  }

  /** `consolidated_score or 5.0`: an absent or zero score starts from 5.0. */
  function StartScore(stored: Option<real>): (s: real)
    ensures stored.Some? && stored.value != 0.0 ==> s == stored.value
    ensures stored.None? || stored.value == 0.0 ==> s == 5.0
  {
    match stored
    case Some(x) => if x != 0.0 then x else 5.0
    case None => 5.0
  }

  /**
   * `_apply_enhanced_score_adjustments`: the adjusted score rounded to two decimals, or, when a
   * rule raised, the stored score untouched (the `except` only logs).
   */
  function ApplyEnhancedAdjustments(rs: seq<AgentResponse>, stored: Option<real>): (r: Option<real>)
    ensures Adjusted(rs, StartScore(stored)).Raised? ==> r == stored
    ensures Adjusted(rs, StartScore(stored)).Ok? ==> r.Some?
  {
    match Adjusted(rs, StartScore(stored))
    case Ok(x) => Some(Rounding.Round(x, 2))
    case Raised(_) => stored
  }

  /** A stored score in `[1, 10]` stays in `[1, 10]`. */
  lemma {:induction false} ApplyEnhancedWithin(rs: seq<AgentResponse>, stored: Option<real>)
    requires stored.None? || 1.0 <= stored.value <= 10.0
    ensures var r := ApplyEnhancedAdjustments(rs, stored);
      r.None? || 1.0 <= r.value <= 10.0
  {
    var start := StartScore(stored);
    if Adjusted(rs, start).Ok? {
      AdjustedWithin(rs, start);
      Rounding.RoundStaysWithin(Adjusted(rs, start).value, 100, 1000);
    }
  }

  /** Without any signal response the stored score is only rounded. */
  lemma {:induction false} ApplyEnhancedWithoutSignals(rs: seq<AgentResponse>, stored: Option<real>)
    requires Consolidation.SuccessData(rs, SarcasmSentinel).None?
    requires Consolidation.SuccessData(rs, EchoMapper).None?
    requires Consolidation.SuccessData(rs, SlopFilter).None?
    requires Consolidation.SuccessData(rs, BannedPhraseSkeptic).None?
    ensures ApplyEnhancedAdjustments(rs, stored) == Some(Rounding.Round(StartScore(stored), 2))
  {
    AdjustedWithoutSignals(rs, StartScore(stored));
  }

  /** Whether the analysis holds a response, of any status, from one of the four signal agents. */
  predicate SignalStored(rs: seq<AgentResponse>)
  {
    || Lookup(rs, SarcasmSentinel.Name()).Some?
    || Lookup(rs, EchoMapper.Name()).Some?
    || Lookup(rs, SlopFilter.Name()).Some?
    || Lookup(rs, BannedPhraseSkeptic.Name()).Some?
  }

  /**
   * `_apply_enhanced_score_adjustments` as written. A signal agent's stored response is an
   * `AgentResponse` record, and the rules call `.get('status')` on it, which raises
   * `AttributeError`; an absent one is the default `{}`, whose status is `None`. A stored
   * consolidated score is the `ConsolidatedScore` object, which `round` rejects. Every raise
   * lands in the `except`, which only logs. So a score is written only when neither is stored,
   * and it is then `round(5.0, 2)`.
   */
  function ApplyEnhancedAsWritten(rs: seq<AgentResponse>, stored: Option<real>): (r: Option<real>)
    ensures stored.Some? ==> r == stored
    ensures SignalStored(rs) ==> r == stored
    ensures stored.None? && !SignalStored(rs) ==> r == Some(5.0)
  {
    if stored.Some? || SignalStored(rs) then stored else Some(5.0)
  }

  /**
   * The program as written and the corrected adjustments agree when nothing is stored and no
   * signal agent answered: both write 5.0.
   */
  lemma {:induction false} AsWrittenAgreesWithoutSignals(rs: seq<AgentResponse>)
    requires !SignalStored(rs)
    ensures ApplyEnhancedAsWritten(rs, None) == ApplyEnhancedAdjustments(rs, None) == Some(5.0)
  {
    ApplyEnhancedWithoutSignals(rs, None);
    Rounding.RoundFixes(500, 2);
    assert Rounding.Pow10(2) == 100;
  }

  /** A single successful echo response of velocity 1.0. */
  function EchoOnly(): seq<AgentResponse>
  {
    [AgentResponse(EchoMapper.Name(), map["echo_velocity" := VReal(1.0)], VReal(10.0), 1.0, Success, None)]
  }

  /**
   * A successful echo reading of velocity 1.0 on a tweet scored 5.0: the corrected rules boost
   * the score to 6.0, the program as written leaves it at 5.0.
   */
  lemma {:induction false} AsWrittenIgnoresEcho()
    ensures ApplyEnhancedAsWritten(EchoOnly(), Some(5.0)) == Some(5.0)
    ensures ApplyEnhancedAdjustments(EchoOnly(), Some(5.0)) == Some(6.0)
  {
    assert StartScore(Some(5.0)) == 5.0;
    EchoOnlyAdjusted();
    RoundSix();
  }

  lemma {:induction false} RoundSix()
    ensures Rounding.Round(6.0, 2) == 6.0
  {
    Rounding.RoundFixes(600, 2);
    assert Rounding.Pow10(2) == 100;
  }

  /** Of the four rules only the echo boost applies to `EchoOnly`, and it adds one point to 5.0. */
  lemma {:induction false} EchoOnlyAdjusted()
    ensures Adjusted(EchoOnly(), 5.0) == Ok(6.0)
  {
    var rs := EchoOnly();
    EchoOnlyData();
    assert SarcasmStep(rs, 5.0) == Ok(5.0);
    assert EchoStep(rs, 5.0) == Ok(6.0);
    assert SlopStep(rs, 6.0) == Ok(6.0);
  }

  /** `EchoOnly` holds the echo agent's data and no other signal agent's. */
  lemma {:induction false} EchoOnlyData()
    ensures Consolidation.SuccessData(EchoOnly(), SarcasmSentinel).None?
    ensures Consolidation.SuccessData(EchoOnly(), SlopFilter).None?
    ensures Consolidation.SuccessData(EchoOnly(), BannedPhraseSkeptic).None?
    ensures Consolidation.SuccessData(EchoOnly(), EchoMapper) == Some(map["echo_velocity" := VReal(1.0)])
  {
    var rs := EchoOnly();
    assert rs[0].name == "echo_mapper";
    assert Lookup(rs, SarcasmSentinel.Name()).None?;
    assert Lookup(rs, SlopFilter.Name()).None?;
    assert Lookup(rs, BannedPhraseSkeptic.Name()).None?;
  }

  // ---------------------------------------------------------------------------------------------
  // Memory statistics
  // ---------------------------------------------------------------------------------------------

  /** `key.split(':')[0] if ':' in key else 'unknown'`. */
  function NamespaceOf(key: string): (ns: string)
    ensures Text.Contains(key, ":") ==> ns <= key && !Text.Contains(ns, ":")
    ensures !Text.Contains(key, ":") ==> ns == "unknown"
  {
    var i := Text.Find(key, ":", 0);
    if i == -1 then "unknown"
    else
      assert key[..i] <= key;
      assert !Text.Contains(key[..i], ":") by {
        forall j | Text.OccursAt(key[..i], ":", j)
          ensures false
        {
          assert key[j] == key[..i][j];
          assert Text.OccursAt(key, ":", j);
        }
      }
      key[..i]
  }

  /** The number of keys in namespace `ns`. */
  function KeysIn(keys: seq<string>, ns: string): nat
  {
    if |keys| == 0 then 0
    else KeysIn(keys[..|keys| - 1], ns) + (if NamespaceOf(keys[|keys| - 1]) == ns then 1 else 0)
  }

  /** `get_memory_stats`: the number of entries and the per-namespace counts. */
  datatype MemoryStats = MemoryStats(totalEntries: nat, namespaces: Tally)

  function NamespaceTally(keys: seq<string>): Tally
  {
    if |keys| == 0 then [] else AddTo(NamespaceTally(keys[..|keys| - 1]), NamespaceOf(keys[|keys| - 1]), 1)
  }

  function MemoryStatsOf(keys: seq<string>): (s: MemoryStats)
    ensures s.totalEntries == |keys|
  {
    MemoryStats(|keys|, NamespaceTally(keys))
  }

  /**
   * Each namespace's count is the number of keys in it, and the counts add up to the number of
   * entries.
   */
  lemma {:induction false} MemoryStatsCounts(keys: seq<string>, ns: string)
    ensures CountOf(MemoryStatsOf(keys).namespaces, ns) == KeysIn(keys, ns)
    ensures TallyTotal(MemoryStatsOf(keys).namespaces) == MemoryStatsOf(keys).totalEntries
  {
    if |keys| > 0 {
      var init := keys[..|keys| - 1];
      MemoryStatsCounts(init, ns);
      AddToCounts(NamespaceTally(init), NamespaceOf(keys[|keys| - 1]), 1, ns);
    }
  }
}
