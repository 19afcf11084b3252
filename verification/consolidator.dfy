/**
 * `EnhancedScoreConsolidator` (`domain/services/orchestration/enhanced_score_consolidator.py`): a
 * weighted base score over the traditional agents, four threshold-gated adjustments from the
 * signal agents, a clamped and rounded final score, quality flags and a confidence tier.
 *
 * The consolidator reads each response's `status` and `response_data`; here those are the
 * `status` and `data` of the analysis result's `AgentResponse` entries. A comparison of a
 * non-number with a threshold raises `TypeError` in the program, which the `try` around
 * `consolidate_scores` turns into the fallback result; here that is the `Raised` case.
 */
module Consolidation {
  import opened Wrappers
  import opened Values
  import opened Agents
  import opened AnalysisResults
  import opened Weighting
  import Rounding
  import Sums

  // ---------------------------------------------------------------------------------------------
  // Reading the responses
  // ---------------------------------------------------------------------------------------------

  /** `response_data` of the agent's response, when it has one whose status is SUCCESS. */
  function SuccessData(rs: seq<AgentResponse>, a: Agent): Option<Record>
  {
    match Lookup(rs, a.Name())
    case Some(resp) => if resp.status == Success then Some(resp.data) else None
    case None => None
  }

  /** Python's `v < t` for a float threshold: `TypeError` unless `v` is a number. */
  function Below(v: Value, t: real): (r: Result<bool>)
    ensures r.Ok? <==> Num(v).Some?
    ensures r.Ok? ==> (r.value <==> Num(v).value < t)
  {
    match Num(v)
    case Some(x) => Ok(x < t)
    case None => Raised("TypeError: '<' not supported")
  }

  /** `legacy_mappings.get(agent_name)`. */
  function LegacyFieldOf(a: Agent): (f: Option<string>)
    ensures f.Some? <==> a.IsTraditional()
  {
    if a.IsTraditional() then Some(a.LegacyField()) else None
  }

  /**
   * `_extract_agent_score`: `float(agent_score)` when that field is there and converts, else
   * `float` of the agent's legacy field when that converts, else 5.0. It never fails.
   */
  function ExtractScore(data: Record, a: Agent): (s: real)
    ensures (forall k :: k in data ==> ToFloat(data[k]).None?) ==> s == 5.0
  {
    var primary := Get(data, "agent_score", VNone);
    if primary != VNone && ToFloat(primary).Some? then ToFloat(primary).value
    else
      match LegacyFieldOf(a)
      case Some(f) => if f in data && ToFloat(data[f]).Some? then ToFloat(data[f]).value else 5.0
      case None => 5.0
  }

  /**
   * The extracted score is `agent_score` whenever that converts; otherwise the legacy field when
   * that converts; otherwise the default 5.0.
   */
  lemma {:induction false} ExtractScorePriority(data: Record, a: Agent)
    ensures "agent_score" in data && ToFloat(data["agent_score"]).Some? ==>
      ExtractScore(data, a) == ToFloat(data["agent_score"]).value
    ensures (!("agent_score" in data && ToFloat(data["agent_score"]).Some?) && a.IsTraditional()
             && a.LegacyField() in data && ToFloat(data[a.LegacyField()]).Some?) ==>
      ExtractScore(data, a) == ToFloat(data[a.LegacyField()]).value
    ensures (!("agent_score" in data && ToFloat(data["agent_score"]).Some?)
             && !(a.IsTraditional() && a.LegacyField() in data && ToFloat(data[a.LegacyField()]).Some?)) ==>
      ExtractScore(data, a) == 5.0
  {
  }

  /**
   * The extracted score is the default or the conversion of one of the fields of the response, so
   * it lies within any bounds that hold 5.0 and every field that converts.
   */
  lemma {:induction false} ExtractScoreWithin(data: Record, a: Agent, lo: real, hi: real)
    requires lo <= 5.0 <= hi
    requires forall f :: f in data && ToFloat(data[f]).Some? ==> lo <= ToFloat(data[f]).value <= hi
    ensures lo <= ExtractScore(data, a) <= hi
  {
  }

  // ---------------------------------------------------------------------------------------------
  // Base score
  // ---------------------------------------------------------------------------------------------

  /**
   * What one agent of `traditional_agents` adds to the base score: its extracted score and its
   * weight, when that weight is positive and its response succeeded.
   */
  function BaseEntry(weights: WeightTable, rs: seq<AgentResponse>, a: Agent): (e: Option<Contribution>)
    ensures e.Some? <==> WeightOf(weights, a) > 0.0 && SuccessData(rs, a).Some?
    ensures e.Some? ==> e.value == Contribution(a.Name(), ExtractScore(SuccessData(rs, a).value, a), WeightOf(weights, a))
  {
    if WeightOf(weights, a) <= 0.0 then None
    else
      match SuccessData(rs, a)
      case Some(d) => Some(Contribution(a.Name(), ExtractScore(d, a), WeightOf(weights, a)))
      case None => None
  }

  /** The entries a loop over `agents` keeps, in order. */
  function Counted(agents: seq<Agent>, entry: Agent -> Option<Contribution>): (cs: seq<Contribution>)
    ensures |cs| <= |agents|
    ensures (forall a :: entry(a).Some? ==> entry(a).value.weight > 0.0) ==>
      forall i :: 0 <= i < |cs| ==> cs[i].weight > 0.0
    decreases |agents|
  {
    if |agents| == 0 then []
    else
      var n := |agents| - 1;
      Counted(agents[..n], entry) + (match entry(agents[n]) case Some(c) => [c] case None => [])
  }

  /** Every kept entry is the entry of one of the agents. */
  lemma {:induction false} CountedSound(agents: seq<Agent>, entry: Agent -> Option<Contribution>, i: nat)
    requires i < |Counted(agents, entry)|
    ensures exists k :: 0 <= k < |agents| && entry(agents[k]) == Some(Counted(agents, entry)[i])
    decreases |agents|
  {
    var n := |agents| - 1;
    var init := agents[..n];
    var cs := Counted(init, entry);
    if i < |cs| {
      CountedSound(init, entry, i);
      var k :| 0 <= k < |init| && entry(init[k]) == Some(cs[i]);
      assert init[k] == agents[k];
    } else {
      assert entry(agents[n]) == Some(Counted(agents, entry)[i]);
    }
  }

  /** Every agent that has an entry has it kept. */
  lemma {:induction false} CountedComplete(agents: seq<Agent>, entry: Agent -> Option<Contribution>, k: nat)
    requires k < |agents| && entry(agents[k]).Some?
    ensures entry(agents[k]).value in Counted(agents, entry)
    decreases |agents|
  {
    var n := |agents| - 1;
    var init := agents[..n];
    if k < n {
      assert init[k] == agents[k];
      CountedComplete(init, entry, k);
    }
  }

  /** `_calculate_base_score`'s loop: the counted traditional agents, in list order. */
  function BaseContributions(agents: seq<Agent>, weights: WeightTable, rs: seq<AgentResponse>): (cs: seq<Contribution>)
    ensures forall i :: 0 <= i < |cs| ==> cs[i].weight > 0.0
  {
    Counted(agents, a => BaseEntry(weights, rs, a))
  }

  /** `_calculate_base_score`'s score: the weighted average of the counted agents, or 5.0. */
  function BaseScore(agents: seq<Agent>, weights: WeightTable, rs: seq<AgentResponse>): (base: real)
    ensures |BaseContributions(agents, weights, rs)| == 0 ==> base == 5.0
  {
    var cs := BaseContributions(agents, weights, rs);
    if TotalWeight(cs) > 0.0 then WeightedSum(cs) / TotalWeight(cs) else 5.0
  }

  /**
   * The base score is 5.0 when no agent is counted and otherwise lies within any bounds of the
   * counted agents' scores.
   */
  lemma {:induction false} BaseScoreWithin(agents: seq<Agent>, weights: WeightTable, rs: seq<AgentResponse>, lo: real, hi: real)
    requires forall k :: 0 <= k < |agents| && BaseEntry(weights, rs, agents[k]).Some? ==>
      lo <= BaseEntry(weights, rs, agents[k]).value.score <= hi
    ensures (forall k :: 0 <= k < |agents| ==> BaseEntry(weights, rs, agents[k]).None?) ==>
      BaseScore(agents, weights, rs) == 5.0
    ensures (exists k :: 0 <= k < |agents| && BaseEntry(weights, rs, agents[k]).Some?) ==>
      lo <= BaseScore(agents, weights, rs) <= hi
  {
    var entry := a => BaseEntry(weights, rs, a);
    var cs := BaseContributions(agents, weights, rs);
    assert cs == Counted(agents, entry);
    forall i | 0 <= i < |cs| ensures lo <= cs[i].score <= hi {
      CountedSound(agents, entry, i);
    }
    if exists k :: 0 <= k < |agents| && BaseEntry(weights, rs, agents[k]).Some? {
      var k :| 0 <= k < |agents| && BaseEntry(weights, rs, agents[k]).Some?;
      CountedComplete(agents, entry, k);
      AverageWithin(cs, lo, hi);
    } else if |cs| > 0 {
      CountedSound(agents, entry, 0);
    }
  }

  /**
   * `individual_scores` names exactly the traditional agents with positive weight whose response
   * succeeded, each with its extracted score.
   */
  lemma {:induction false} BaseContributorsExactly(agents: seq<Agent>, weights: WeightTable, rs: seq<AgentResponse>, a: Agent)
    requires a in agents
    ensures (exists s :: (a.Name(), s) in Individual(BaseContributions(agents, weights, rs)))
      <==> WeightOf(weights, a) > 0.0 && SuccessData(rs, a).Some?
    ensures forall s :: (a.Name(), s) in Individual(BaseContributions(agents, weights, rs)) ==>
      s == ExtractScore(SuccessData(rs, a).value, a)
  {
    var entry := a => BaseEntry(weights, rs, a);
    var cs := BaseContributions(agents, weights, rs);
    assert cs == Counted(agents, entry);
    var ind := Individual(cs);
    forall s | (a.Name(), s) in ind
      ensures WeightOf(weights, a) > 0.0 && SuccessData(rs, a).Some? && s == ExtractScore(SuccessData(rs, a).value, a)
    {
      var i :| 0 <= i < |ind| && ind[i] == (a.Name(), s);
      CountedSound(agents, entry, i);
      var k :| 0 <= k < |agents| && entry(agents[k]) == Some(cs[i]);
      if agents[k] != a {
        NamesDistinct(agents[k], a);
      }
    }
    if WeightOf(weights, a) > 0.0 && SuccessData(rs, a).Some? {
      var k :| 0 <= k < |agents| && agents[k] == a;
      CountedComplete(agents, entry, k);
      var i :| 0 <= i < |cs| && cs[i] == entry(a).value;
      assert ind[i] == (a.Name(), ExtractScore(SuccessData(rs, a).value, a));
    }
  }

  // ---------------------------------------------------------------------------------------------
  // Signal adjustments
  // ---------------------------------------------------------------------------------------------

  datatype Kind = Boost | Penalty

  /** `ScoreAdjustment`; the reason text is not modelled. */
  datatype Adjustment = Adjustment(agent: Agent, kind: Kind, value: real, confidence: real)

  /**
   * The rule shared by the echo, slop and tone adjustments, on the agent's number `x`: nothing
   * below `threshold`; otherwise the magnitude `min(cap, (x - threshold) * scaling)`, kept only
   * when it exceeds 0.1.
   */
  function Magnitude(x: real, threshold: real, cap: real, scaling: real): (m: Option<real>)
    ensures m.Some? ==> threshold <= x && 0.1 < m.value <= cap
  {
    if x < threshold then None
    else
      var magnitude := Rounding.Min(cap, (x - threshold) * scaling);
      if magnitude > 0.1 then Some(magnitude) else None
  }

  /**
   * With a positive scaling and a cap above 0.1, the rule fires exactly when the number exceeds
   * the threshold by more than `0.1 / scaling`.
   */
  lemma {:induction false} MagnitudeFiresIff(x: real, threshold: real, cap: real, scaling: real)
    requires scaling > 0.0 && cap > 0.1
    ensures Magnitude(x, threshold, cap, scaling).Some? <==> x > threshold + 0.1 / scaling
  {
    ScaleCompare(x - threshold, 0.1, scaling);
    assert 0.1 / scaling > 0.0;
  }

  /** The magnitude never shrinks as the number grows: a larger excess is adjusted at least as much. */
  lemma {:induction false} MagnitudeMonotone(x: real, y: real, threshold: real, cap: real, scaling: real)
    requires scaling > 0.0 && x <= y
    requires Magnitude(x, threshold, cap, scaling).Some?
    ensures Magnitude(y, threshold, cap, scaling).Some?
    ensures Magnitude(x, threshold, cap, scaling).value <= Magnitude(y, threshold, cap, scaling).value
  {
    Rounding.MulMonotone(x - threshold, y - threshold, scaling);
    var ex, ey := (x - threshold) * scaling, (y - threshold) * scaling;
    assert ex <= ey;
    var mx, my := Rounding.Min(cap, ex), Rounding.Min(cap, ey);
    assert mx <= cap && mx <= ex;
    assert my == cap || my == ey;
    assert mx <= my;
    assert threshold <= y;
  }

  /**
   * The agent's number is the field (0.0 when absent), compared with the threshold, which raises
   * for a non-number; the result pairs the magnitude with the number.
   */
  function Excess(d: Record, field: string, threshold: real, cap: real, scaling: real): (r: Result<Option<(real, real)>>)
    ensures r.Ok? <==> Num(Get(d, field, VReal(0.0))).Some?
    ensures r.Ok? ==> match Magnitude(Num(Get(d, field, VReal(0.0))).value, threshold, cap, scaling)
      case Some(m) => r.value == Some((m, Num(Get(d, field, VReal(0.0))).value))
      case None => r.value.None?
  {
    var v := Get(d, field, VReal(0.0));
    match Num(v)
    case None => Raised("TypeError: '<' not supported")
    case Some(x) =>
      match Magnitude(x, threshold, cap, scaling)
      case Some(m) => Ok(Some((m, x)))
      case None => Ok(None)
  }

  lemma {:induction false} ScaleCompare(e: real, c: real, s: real)
    requires s > 0.0
    ensures e * s > c <==> e > c / s
  {
    var q := c / s;
    assert q * s == c;
    if e > q {
      assert e * s - q * s == (e - q) * s;
    } else {
      assert q * s - e * s == (q - e) * s;
    }
  }

  /**
   * `_calculate_sarcasm_adjustment`: a boost `min(2.0, (0.8 - p) * 3.0)` with confidence `p` when
   * the sarcasm sentinel succeeded, marked the tweet sarcastic with `p_sarcasm >= 0.5`, and the
   * fact checker succeeded with a non-zero score below 4.0.
   */
  function SarcasmAdjustment(rs: seq<AgentResponse>): (r: Result<Option<Adjustment>>)
    ensures r.Ok? && r.value.Some? ==>
      r.value.value.agent == SarcasmSentinel && r.value.value.kind == Boost && SuccessData(rs, SarcasmSentinel).Some?
  {
    match SuccessData(rs, SarcasmSentinel)
    case None => Ok(None)
    case Some(d) =>
      if !Truthy(Get(d, "is_sarcastic", VBool(false))) then Ok(None)
      else
        var p := Get(d, "p_sarcasm", VReal(0.0));
        var below :- Below(p, 0.5);
        if below then Ok(None)
        else
          match SuccessData(rs, FactChecker)
          case None => Ok(None)
          case Some(fd) =>
            var fact := ExtractScore(fd, FactChecker);
            if fact != 0.0 && fact < 4.0 then
              var x := Num(p).value;
              Ok(Some(Adjustment(SarcasmSentinel, Boost, Rounding.Min(2.0, (0.8 - x) * 3.0), x)))
            else Ok(None)
  }

  /**
   * The sarcasm adjustment fires exactly under its four conditions; its value is at most 0.9 and
   * is negative, a penalty despite its kind, whenever `p_sarcasm` exceeds 0.8.
   */
  lemma {:induction false} SarcasmAdjustmentCases(rs: seq<AgentResponse>)
    requires SarcasmAdjustment(rs).Ok?
    ensures SarcasmAdjustment(rs).value.Some? <==>
      && SuccessData(rs, SarcasmSentinel).Some?
      && Truthy(Get(SuccessData(rs, SarcasmSentinel).value, "is_sarcastic", VBool(false)))
      && Num(Get(SuccessData(rs, SarcasmSentinel).value, "p_sarcasm", VReal(0.0))).value >= 0.5
      && SuccessData(rs, FactChecker).Some?
      && ExtractScore(SuccessData(rs, FactChecker).value, FactChecker) != 0.0
      && ExtractScore(SuccessData(rs, FactChecker).value, FactChecker) < 4.0
    ensures SarcasmAdjustment(rs).value.Some? ==>
      var adj := SarcasmAdjustment(rs).value.value;
      && adj.confidence >= 0.5
      && adj.value <= 0.9
      && (adj.value < 0.0 <==> adj.confidence > 0.8)
  {
    match SuccessData(rs, SarcasmSentinel)
    case None =>
    case Some(d) =>
      if Truthy(Get(d, "is_sarcastic", VBool(false))) {
        var p := Get(d, "p_sarcasm", VReal(0.0));
        assert Below(p, 0.5).Ok?;
        match SuccessData(rs, FactChecker)
        case None =>
        case Some(fd) =>
          var x := Num(p).value;
          var v := Rounding.Min(2.0, (0.8 - x) * 3.0);
          assert x >= 0.5 ==> v <= 0.9 && (v < 0.0 <==> x > 0.8);
      }
  }

  /** `_calculate_echo_adjustment`: a boost from `echo_velocity` past 0.5, capped at 1.5. */
  function EchoAdjustment(rs: seq<AgentResponse>): (r: Result<Option<Adjustment>>)
    ensures r.Ok? && r.value.Some? ==>
      var adj := r.value.value;
      && adj.agent == EchoMapper && adj.kind == Boost
      && 0.1 < adj.value <= 1.5 && adj.confidence <= 1.0
      && SuccessData(rs, EchoMapper).Some?
  {
    match SuccessData(rs, EchoMapper)
    case None => Ok(None)
    case Some(d) =>
      var e :- Excess(d, "echo_velocity", 0.5, 1.5, 2.0);
      match e
      case Some((boost, v)) => Ok(Some(Adjustment(EchoMapper, Boost, boost, Rounding.Min(1.0, v))))
      case None => Ok(None)
  }

  /** `_calculate_slop_adjustment`: a penalty from `slop_score` past 0.7, capped at 2.5. */
  function SlopAdjustment(rs: seq<AgentResponse>): (r: Result<Option<Adjustment>>)
    ensures r.Ok? && r.value.Some? ==>
      var adj := r.value.value;
      && adj.agent == SlopFilter && adj.kind == Penalty
      && -2.5 <= adj.value < -0.1 && adj.confidence >= 0.7
      && SuccessData(rs, SlopFilter).Some?
  {
    match SuccessData(rs, SlopFilter)
    case None => Ok(None)
    case Some(d) =>
      var e :- Excess(d, "slop_score", 0.7, 2.5, 3.0);
      match e
      case Some((penalty, s)) => Ok(Some(Adjustment(SlopFilter, Penalty, -penalty, s)))
      case None => Ok(None)
  }

  /**
   * `_calculate_tone_adjustment`: a penalty from `tone_penalty` past 0.3, capped at 2.0. The
   * reason text takes `len(banned_terms)`, which raises for a value without a length.
   */
  function ToneAdjustment(rs: seq<AgentResponse>): (r: Result<Option<Adjustment>>)
    ensures r.Ok? && r.value.Some? ==>
      var adj := r.value.value;
      && adj.agent == BannedPhraseSkeptic && adj.kind == Penalty
      && -2.0 <= adj.value < -0.1 && adj.confidence >= 0.3
      && SuccessData(rs, BannedPhraseSkeptic).Some?
  {
    match SuccessData(rs, BannedPhraseSkeptic)
    case None => Ok(None)
    case Some(d) =>
      var e :- Excess(d, "tone_penalty", 0.3, 2.0, 2.5);
      match e
      case Some((penalty, t)) =>
        if Sized(Get(d, "banned_terms", VList([]))) then Ok(Some(Adjustment(BannedPhraseSkeptic, Penalty, -penalty, t)))
        else Raised("TypeError: object has no len()")
      case None => Ok(None)
  }

  /**
   * The echo, slop and tone adjustments fire exactly when their agent succeeded and its number
   * passes the threshold by more than the 0.1 significance margin (velocity above 0.55, slop
   * above 0.7 + 1/30, tone above 0.34).
   */
  lemma {:induction false} ThresholdAdjustmentsFire(rs: seq<AgentResponse>)
    ensures EchoAdjustment(rs).Ok? && EchoAdjustment(rs).value.Some? <==>
      SuccessData(rs, EchoMapper).Some?
      && Num(Get(SuccessData(rs, EchoMapper).value, "echo_velocity", VReal(0.0))).Some?
      && Num(Get(SuccessData(rs, EchoMapper).value, "echo_velocity", VReal(0.0))).value > 0.55
    ensures SlopAdjustment(rs).Ok? && SlopAdjustment(rs).value.Some? <==>
      SuccessData(rs, SlopFilter).Some?
      && Num(Get(SuccessData(rs, SlopFilter).value, "slop_score", VReal(0.0))).Some?
      && Num(Get(SuccessData(rs, SlopFilter).value, "slop_score", VReal(0.0))).value > 0.7 + 0.1 / 3.0
  {
    match SuccessData(rs, EchoMapper)
    case Some(d) =>
      if Num(Get(d, "echo_velocity", VReal(0.0))).Some? {
        MagnitudeFiresIff(Num(Get(d, "echo_velocity", VReal(0.0))).value, 0.5, 1.5, 2.0);
      }
    case None =>
    match SuccessData(rs, SlopFilter)
    case Some(d) =>
      if Num(Get(d, "slop_score", VReal(0.0))).Some? {
        MagnitudeFiresIff(Num(Get(d, "slop_score", VReal(0.0))).value, 0.7, 2.5, 3.0);
      }
    case None =>
  }

  /** The tone adjustment fires when its agent succeeded with a sized term list and a penalty above 0.34. */
  lemma {:induction false} ToneAdjustmentFires(rs: seq<AgentResponse>)
    ensures ToneAdjustment(rs).Ok? && ToneAdjustment(rs).value.Some? <==>
      SuccessData(rs, BannedPhraseSkeptic).Some?
      && Num(Get(SuccessData(rs, BannedPhraseSkeptic).value, "tone_penalty", VReal(0.0))).Some?
      && Num(Get(SuccessData(rs, BannedPhraseSkeptic).value, "tone_penalty", VReal(0.0))).value > 0.34
      && Sized(Get(SuccessData(rs, BannedPhraseSkeptic).value, "banned_terms", VList([])))
  {
    match SuccessData(rs, BannedPhraseSkeptic)
    case Some(d) =>
      if Num(Get(d, "tone_penalty", VReal(0.0))).Some? {
        MagnitudeFiresIff(Num(Get(d, "tone_penalty", VReal(0.0))).value, 0.3, 2.0, 2.5);
      }
    case None =>
  }

  function OptionList(o: Option<Adjustment>): (r: seq<Adjustment>)
    ensures o.Some? ==> r == [o.value]
    ensures o.None? ==> r == []
  {
    match o
    case Some(a) => [a]
    case None => []
  }

  /** Position of a signal agent in the order the adjustments are computed. */
  function Position(a: Agent): nat
  {
    match a
    case SarcasmSentinel => 0
    case EchoMapper => 1
    case SlopFilter => 2
    case BannedPhraseSkeptic => 3
    case _ => 4
  }

  /** `_calculate_signal_adjustments`: sarcasm, echo, slop and tone, each when it applies. */
  function SignalAdjustments(rs: seq<AgentResponse>): (r: Result<seq<Adjustment>>)
    ensures r.Raised? <==>
      SarcasmAdjustment(rs).Raised? || EchoAdjustment(rs).Raised? || SlopAdjustment(rs).Raised? || ToneAdjustment(rs).Raised?
    ensures r.Ok? ==>
      r.value == OptionList(SarcasmAdjustment(rs).value) + OptionList(EchoAdjustment(rs).value)
                 + OptionList(SlopAdjustment(rs).value) + OptionList(ToneAdjustment(rs).value)
  {
    var sarcasm :- SarcasmAdjustment(rs);
    var echo :- EchoAdjustment(rs);
    var slop :- SlopAdjustment(rs);
    var tone :- ToneAdjustment(rs);
    Ok(OptionList(sarcasm) + OptionList(echo) + OptionList(slop) + OptionList(tone))
  }

  /**
   * The adjustments come in the fixed order sarcasm, echo, slop, tone, so no agent contributes
   * twice; each comes from an agent whose response succeeded, boosts are the sarcasm and echo
   * agents' and penalties the slop and tone agents', and every penalty is below -0.1.
   */
  lemma {:induction false} SignalAdjustmentsShape(rs: seq<AgentResponse>)
    requires SignalAdjustments(rs).Ok?
    ensures var adj := SignalAdjustments(rs).value;
      && |adj| <= 4
      && (forall i, j :: 0 <= i < j < |adj| ==> Position(adj[i].agent) < Position(adj[j].agent))
      && (forall i :: 0 <= i < |adj| ==> Good(adj[i], rs))
  {
    var s, e, sl, t := SarcasmAdjustment(rs), EchoAdjustment(rs), SlopAdjustment(rs), ToneAdjustment(rs);
    assert s.Ok? && e.Ok? && sl.Ok? && t.Ok?;
    ShapeOf(rs, s, e, sl, t);
  }

  /** The shape of the adjustment list, from what each of the four adjustments promises on its own. */
  lemma {:induction false} ShapeOf(rs: seq<AgentResponse>, s: Result<Option<Adjustment>>, e: Result<Option<Adjustment>>,
                                   sl: Result<Option<Adjustment>>, t: Result<Option<Adjustment>>)
    requires s.Ok? && e.Ok? && sl.Ok? && t.Ok?
    requires s.value.Some? ==> s.value.value.agent == SarcasmSentinel && s.value.value.kind == Boost && SuccessData(rs, SarcasmSentinel).Some?
    requires e.value.Some? ==> e.value.value.agent == EchoMapper && e.value.value.kind == Boost && SuccessData(rs, EchoMapper).Some?
    requires sl.value.Some? ==>
      sl.value.value.agent == SlopFilter && sl.value.value.kind == Penalty && sl.value.value.value < -0.1 && SuccessData(rs, SlopFilter).Some?
    requires t.value.Some? ==>
      t.value.value.agent == BannedPhraseSkeptic && t.value.value.kind == Penalty && t.value.value.value < -0.1
      && SuccessData(rs, BannedPhraseSkeptic).Some?
    ensures var adj := OptionList(s.value) + OptionList(e.value) + OptionList(sl.value) + OptionList(t.value);
      |adj| <= 4 && Ordered(adj) && AllGoodIn(adj, rs)
  {
    OrderedOf(s.value, e.value, sl.value, t.value);
    GoodOf(rs, s, e, sl, t);
  }

  /** `InOrder`, stated with `Ordered`. */
  lemma {:induction false} OrderedOf(s: Option<Adjustment>, e: Option<Adjustment>, sl: Option<Adjustment>, t: Option<Adjustment>)
    requires s.Some? ==> s.value.agent == SarcasmSentinel
    requires e.Some? ==> e.value.agent == EchoMapper
    requires sl.Some? ==> sl.value.agent == SlopFilter
    requires t.Some? ==> t.value.agent == BannedPhraseSkeptic
    ensures var adj := OptionList(s) + OptionList(e) + OptionList(sl) + OptionList(t);
      |adj| <= 4 && Ordered(adj)
  {
    InOrder(s, e, sl, t);
  }

  /** Each listed adjustment keeps what its own function promises of it. */
  lemma {:induction false} GoodOf(rs: seq<AgentResponse>, s: Result<Option<Adjustment>>, e: Result<Option<Adjustment>>,
                                  sl: Result<Option<Adjustment>>, t: Result<Option<Adjustment>>)
    requires s.Ok? && e.Ok? && sl.Ok? && t.Ok?
    requires s.value.Some? ==> s.value.value.agent == SarcasmSentinel && s.value.value.kind == Boost && SuccessData(rs, SarcasmSentinel).Some?
    requires e.value.Some? ==> e.value.value.agent == EchoMapper && e.value.value.kind == Boost && SuccessData(rs, EchoMapper).Some?
    requires sl.value.Some? ==>
      sl.value.value.agent == SlopFilter && sl.value.value.kind == Penalty && sl.value.value.value < -0.1 && SuccessData(rs, SlopFilter).Some?
    requires t.value.Some? ==>
      t.value.value.agent == BannedPhraseSkeptic && t.value.value.kind == Penalty && t.value.value.value < -0.1
      && SuccessData(rs, BannedPhraseSkeptic).Some?
    ensures AllGoodIn(OptionList(s.value) + OptionList(e.value) + OptionList(sl.value) + OptionList(t.value), rs)
  {
    var s', e', sl', t' := s.value, e.value, sl.value, t.value;
    assert s'.Some? ==> Good(s'.value, rs) by {
      if s'.Some? { GoodSignal(s'.value, rs); }
    }
    assert e'.Some? ==> Good(e'.value, rs) by {
      if e'.Some? { GoodSignal(e'.value, rs); }
    }
    assert sl'.Some? ==> Good(sl'.value, rs) by {
      if sl'.Some? { GoodSignal(sl'.value, rs); }
    }
    assert t'.Some? ==> Good(t'.value, rs) by {
      if t'.Some? { GoodSignal(t'.value, rs); }
    }
    AllGood(s', e', sl', t', rs);
  }

  /** Four optional adjustments of positions 0 to 3, listed in that order, are strictly ordered. */
  lemma {:induction false} InOrder(s: Option<Adjustment>, e: Option<Adjustment>, sl: Option<Adjustment>, t: Option<Adjustment>)
    requires s.Some? ==> Position(s.value.agent) == 0
    requires e.Some? ==> Position(e.value.agent) == 1
    requires sl.Some? ==> Position(sl.value.agent) == 2
    requires t.Some? ==> Position(t.value.agent) == 3
    ensures var adj := OptionList(s) + OptionList(e) + OptionList(sl) + OptionList(t);
      |adj| <= 4 && forall i, j :: 0 <= i < j < |adj| ==> Position(adj[i].agent) < Position(adj[j].agent)
  {
    var adj := OptionList(s) + OptionList(e) + OptionList(sl) + OptionList(t);
    var ps := seq(|adj|, i requires 0 <= i < |adj| => Position(adj[i].agent));
    assert ps == OptionPositions(s, 0) + OptionPositions(e, 1) + OptionPositions(sl, 2) + OptionPositions(t, 3);
  }

  /** Listing four optional adjustments keeps each one's properties. */
  lemma {:induction false} AllGood(s: Option<Adjustment>, e: Option<Adjustment>, sl: Option<Adjustment>, t: Option<Adjustment>, rs: seq<AgentResponse>)
    requires s.Some? ==> Good(s.value, rs)
    requires e.Some? ==> Good(e.value, rs)
    requires sl.Some? ==> Good(sl.value, rs)
    requires t.Some? ==> Good(t.value, rs)
    ensures AllGoodIn(OptionList(s) + OptionList(e) + OptionList(sl) + OptionList(t), rs)
  {
    var p := OptionList(s) + OptionList(e);
    AllGoodAppend(OptionList(s), OptionList(e), rs);
    AllGoodAppend(p, OptionList(sl), rs);
    AllGoodAppend(p + OptionList(sl), OptionList(t), rs);
  }

  /** An adjustment of one of the four signal agents, of its agent's kind and sign, from a succeeded response. */
  lemma {:induction false} GoodSignal(a: Adjustment, rs: seq<AgentResponse>)
    requires Position(a.agent) < 4 && SuccessData(rs, a.agent).Some?
    requires Position(a.agent) < 2 ==> a.kind == Boost
    requires Position(a.agent) >= 2 ==> a.kind == Penalty && a.value < -0.1
    ensures Good(a, rs)
  {
  }

  /** Two lists of adjustments with each one's properties concatenate into such a list. */
  lemma {:induction false} AllGoodAppend(a: seq<Adjustment>, b: seq<Adjustment>, rs: seq<AgentResponse>)
    requires AllGoodIn(a, rs) && AllGoodIn(b, rs)
    ensures AllGoodIn(a + b, rs)
  {
    forall i | 0 <= i < |a + b|
      ensures Good((a + b)[i], rs)
    {
      if i >= |a| {
        assert (a + b)[i] == b[i - |a|];
      }
    }
  }

  /** The adjustments are listed in strictly increasing agent position. */
  predicate Ordered(adj: seq<Adjustment>)
  {
    forall i, j :: 0 <= i < j < |adj| ==> Position(adj[i].agent) < Position(adj[j].agent)
  }

  /** Every listed adjustment has the properties of `Good`. */
  predicate AllGoodIn(adj: seq<Adjustment>, rs: seq<AgentResponse>)
  {
    forall i :: 0 <= i < |adj| ==> Good(adj[i], rs)
  }

  /**
   * What `_calculate_signal_adjustments` promises of each adjustment it lists: it comes from one
   * of the four signal agents whose response succeeded; the sarcasm and echo agents give boosts,
   * the slop and tone agents penalties below -0.1.
   */
  predicate Good(a: Adjustment, rs: seq<AgentResponse>)
  {
    match a.agent
    case SarcasmSentinel => a.kind == Boost && SuccessData(rs, SarcasmSentinel).Some?
    case EchoMapper => a.kind == Boost && SuccessData(rs, EchoMapper).Some?
    case SlopFilter => a.kind == Penalty && a.value < -0.1 && SuccessData(rs, SlopFilter).Some?
    case BannedPhraseSkeptic => a.kind == Penalty && a.value < -0.1 && SuccessData(rs, BannedPhraseSkeptic).Some?
    case _ => false
  }


  function OptionPositions(o: Option<Adjustment>, p: nat): seq<nat>
  {
    if o.Some? then [p] else []
  }

  // ---------------------------------------------------------------------------------------------
  // Final score, flags and confidence
  // ---------------------------------------------------------------------------------------------

  function AdjustmentValues(adj: seq<Adjustment>): (vs: seq<real>)
    ensures |vs| == |adj| && forall i :: 0 <= i < |adj| ==> vs[i] == adj[i].value
  {
    seq(|adj|, i requires 0 <= i < |adj| => adj[i].value)
  }

  function Confidences(adj: seq<Adjustment>): (cs: seq<real>)
    ensures |cs| == |adj| && forall i :: 0 <= i < |adj| ==> cs[i] == adj[i].confidence
  {
    seq(|adj|, i requires 0 <= i < |adj| => adj[i].confidence)
  }

  /** `_apply_adjustments`: base plus every adjustment, clamped to `[0.1, 10.0]`, rounded to 2 places. */
  function ApplyAdjustments(base: real, adj: seq<Adjustment>): (r: real)
    ensures 0.1 <= r <= 10.0
  {
    var x := Rounding.Clamp(base + Sums.Sum(AdjustmentValues(adj)), 0.1, 10.0);
    Rounding.RoundStaysWithin(x, 10, 1000);
    Rounding.Round(x, 2)
  }

  /** A higher base score never gives a lower final score. */
  lemma {:induction false} ApplyAdjustmentsMonotone(base: real, base': real, adj: seq<Adjustment>)
    requires base <= base'
    ensures ApplyAdjustments(base, adj) <= ApplyAdjustments(base', adj)
  {
    var total := Sums.Sum(AdjustmentValues(adj));
    Rounding.RoundMonotone(Rounding.Clamp(base + total, 0.1, 10.0), Rounding.Clamp(base' + total, 0.1, 10.0), 2);
  }

  /** Without adjustments, a base score already on the two-decimal grid inside the range is the final score. */
  lemma {:induction false} ApplyNoAdjustments(k: int)
    requires 10 <= k <= 1000
    ensures ApplyAdjustments(k as real / 100.0, []) == k as real / 100.0
  {
    var x := k as real / 100.0;
    assert Sums.Sum(AdjustmentValues([])) == 0.0;
    assert Rounding.Clamp(x + 0.0, 0.1, 10.0) == x;
    assert Rounding.Pow10(2) == 100 by {
      assert Rounding.Pow10(1) == 10;
    }
    Rounding.RoundFixes(k, 2);
    assert Rounding.Round(x, 2) == x;
  }

  const LowContentQuality: string := "low_content_quality"
  const EditorialViolations: string := "editorial_violations"
  const ViralContent: string := "viral_content"
  const SarcasmProtected: string := "sarcasm_protected"
  const SarcasticContent: string := "sarcastic_content"
  const TemporalMisalignment: string := "temporal_misalignment"
  const ConsolidationError: string := "consolidation_error"

  /** The flag an adjustment of this agent and kind raises, if any. */
  function FlagOf(agent: Agent, kind: Kind): Option<string>
  {
    match (agent, kind)
    case (SlopFilter, Penalty) => Some(LowContentQuality)
    case (BannedPhraseSkeptic, Penalty) => Some(EditorialViolations)
    case (EchoMapper, Boost) => Some(ViralContent)
    case (SarcasmSentinel, Boost) => Some(SarcasmProtected)
    case _ => None
  }

  /** The flags the adjustments raise, in the adjustments' order. */
  function AdjustmentFlags(adj: seq<Adjustment>): (flags: seq<string>)
    ensures |flags| <= |adj| && ConsolidationError !in flags
    decreases |adj|
  {
    if |adj| == 0 then []
    else
      (match FlagOf(adj[0].agent, adj[0].kind) case Some(f) => [f] case None => [])
      + AdjustmentFlags(adj[1..])
  }

  /** The flag `f` comes from the adjustments exactly when one of them is of an agent and kind raising it. */
  lemma {:induction false} AdjustmentFlagsIff(adj: seq<Adjustment>, f: string)
    ensures f in AdjustmentFlags(adj) <==> exists i :: 0 <= i < |adj| && FlagOf(adj[i].agent, adj[i].kind) == Some(f)
    decreases |adj|
  {
    if |adj| > 0 {
      AdjustmentFlagsIff(adj[1..], f);
      assert forall i :: 1 <= i < |adj| ==> adj[i] == adj[1..][i - 1];
      if exists i :: 0 <= i < |adj| && FlagOf(adj[i].agent, adj[i].kind) == Some(f) {
        var i :| 0 <= i < |adj| && FlagOf(adj[i].agent, adj[i].kind) == Some(f);
        if i > 0 {
          assert FlagOf(adj[1..][i - 1].agent, adj[1..][i - 1].kind) == Some(f);
        }
      }
    }
  }

  /** Each flag has one cause: FlagOf is one-to-one where it is defined. */
  lemma {:induction false} FlagOfCause(agent: Agent, kind: Kind)
    ensures FlagOf(agent, kind) == Some(LowContentQuality) <==> agent == SlopFilter && kind == Penalty
    ensures FlagOf(agent, kind) == Some(EditorialViolations) <==> agent == BannedPhraseSkeptic && kind == Penalty
    ensures FlagOf(agent, kind) == Some(ViralContent) <==> agent == EchoMapper && kind == Boost
    ensures FlagOf(agent, kind) == Some(SarcasmProtected) <==> agent == SarcasmSentinel && kind == Boost
    ensures FlagOf(agent, kind) != Some(ConsolidationError)
  {
  }

  /**
   * The flag raised when `agent` answered successfully and its `field` is truthy (a missing field
   * counts as false).
   */
  function VerdictFlag(rs: seq<AgentResponse>, agent: Agent, field: string, flag: string): (r: seq<string>)
    ensures r == [] || r == [flag]
    ensures r == [flag] <==> SuccessData(rs, agent).Some? && Truthy(Get(SuccessData(rs, agent).value, field, VNone))
  {
    match SuccessData(rs, agent)
    case Some(d) => if Truthy(Get(d, field, VNone)) then [flag] else []
    case None => []
  }

  /** `_generate_quality_flags`. */
  function QualityFlags(rs: seq<AgentResponse>, adj: seq<Adjustment>): (flags: seq<string>)
    ensures |flags| <= |adj| + 2
    ensures ConsolidationError !in flags
  {
    AdjustmentFlags(adj)
    + VerdictFlag(rs, SarcasmSentinel, "is_sarcastic", SarcasticContent)
    + VerdictFlag(rs, LatencyGuard, "repriced", TemporalMisalignment)
  }

  /**
   * Each adjustment flag is raised exactly when an adjustment of the matching agent and kind was
   * made; the error flag never is.
   */
  lemma {:induction false} QualityFlagsFromAdjustments(rs: seq<AgentResponse>, adj: seq<Adjustment>)
    ensures ViralContent in QualityFlags(rs, adj) <==>
      exists i :: 0 <= i < |adj| && adj[i].agent == EchoMapper && adj[i].kind == Boost
    ensures LowContentQuality in QualityFlags(rs, adj) <==>
      exists i :: 0 <= i < |adj| && adj[i].agent == SlopFilter && adj[i].kind == Penalty
    ensures EditorialViolations in QualityFlags(rs, adj) <==>
      exists i :: 0 <= i < |adj| && adj[i].agent == BannedPhraseSkeptic && adj[i].kind == Penalty
    ensures SarcasmProtected in QualityFlags(rs, adj) <==>
      exists i :: 0 <= i < |adj| && adj[i].agent == SarcasmSentinel && adj[i].kind == Boost
    ensures ConsolidationError !in QualityFlags(rs, adj)
  {
    FlagFromAdjustments(rs, adj, ViralContent);
    FlagFromAdjustments(rs, adj, LowContentQuality);
    FlagFromAdjustments(rs, adj, EditorialViolations);
    FlagFromAdjustments(rs, adj, SarcasmProtected);
    FlagFromAdjustments(rs, adj, ConsolidationError);
    forall i | 0 <= i < |adj| {
      FlagOfCause(adj[i].agent, adj[i].kind);
    }
  }

  lemma {:induction false} FlagFromAdjustments(rs: seq<AgentResponse>, adj: seq<Adjustment>, f: string)
    requires f !in {SarcasticContent, TemporalMisalignment}
    ensures f in QualityFlags(rs, adj) <==> exists i :: 0 <= i < |adj| && FlagOf(adj[i].agent, adj[i].kind) == Some(f)
  {
    AdjustmentFlagsIff(adj, f);
  }

  /** The sarcasm and repricing flags follow the two verdicts and nothing else. */
  lemma {:induction false} QualityFlagsFromVerdicts(rs: seq<AgentResponse>, adj: seq<Adjustment>)
    ensures SarcasticContent in QualityFlags(rs, adj) <==>
      SuccessData(rs, SarcasmSentinel).Some? && Truthy(Get(SuccessData(rs, SarcasmSentinel).value, "is_sarcastic", VNone))
    ensures TemporalMisalignment in QualityFlags(rs, adj) <==>
      SuccessData(rs, LatencyGuard).Some? && Truthy(Get(SuccessData(rs, LatencyGuard).value, "repriced", VNone))
  {
    var a := AdjustmentFlags(adj);
    var v1 := VerdictFlag(rs, SarcasmSentinel, "is_sarcastic", SarcasticContent);
    var v2 := VerdictFlag(rs, LatencyGuard, "repriced", TemporalMisalignment);
    assert QualityFlags(rs, adj) == a + v1 + v2;
    NoVerdictFlagFromAdjustments(adj);
    assert SarcasticContent != TemporalMisalignment;
  }

  /** No adjustment raises the sarcasm or the repricing flag. */
  lemma {:induction false} NoVerdictFlagFromAdjustments(adj: seq<Adjustment>)
    ensures SarcasticContent !in AdjustmentFlags(adj) && TemporalMisalignment !in AdjustmentFlags(adj)
    decreases |adj|
  {
    if |adj| > 0 {
      NoVerdictFlagFromAdjustments(adj[1..]);
      FlagOfCause(adj[0].agent, adj[0].kind);
    }
  }

  datatype Tier = High | Medium | Low
  {
    function Rank(): nat
    {
      match this
      case High => 0
      case Medium => 1
      case Low => 2
    }
  }

  /**
   * The confidence `_assess_confidence_level` grades: the mean of the fraction of successful
   * responses (0 with none) and the mean adjustment confidence (1.0 with no adjustments).
   */
  function OverallConfidence(rs: seq<AgentResponse>, adj: seq<Adjustment>): (c: real)
    ensures |adj| == 0 ==> 0.5 <= c <= 1.0
    ensures |rs| == 0 && |adj| == 0 ==> c == 0.5
  {
    var rate := if |rs| > 0 then CountSuccess(rs) as real / |rs| as real else 0.0;
    var average := if |adj| > 0 then Sums.Mean(Confidences(adj)) else 1.0;
    (rate + average) / 2.0
  }

  /** The cuts at 0.8 and 0.6. */
  function TierOf(confidence: real): (t: Tier)
    ensures t == High <==> confidence >= 0.8
    ensures t == Medium <==> 0.6 <= confidence < 0.8
    ensures t == Low <==> confidence < 0.6
  {
    if confidence >= 0.8 then High else if confidence >= 0.6 then Medium else Low
  }

  /** A higher confidence never gives a worse tier. */
  lemma {:induction false} TierMonotone(c: real, c': real)
    requires c <= c'
    ensures TierOf(c').Rank() <= TierOf(c).Rank()
  {
  }

  /** With every response successful and no adjustment to doubt, the tier is high. */
  lemma {:induction false} TierAllSucceeded(rs: seq<AgentResponse>)
    requires |rs| > 0 && CountSuccess(rs) == |rs|
    ensures TierOf(OverallConfidence(rs, [])) == High
  {
    var rate := CountSuccess(rs) as real / |rs| as real;
    SelfRatio(|rs|);
    assert rate == 1.0;
    assert OverallConfidence(rs, []) == (rate + 1.0) / 2.0;
  }

  lemma {:induction false} SelfRatio(n: nat)
    requires n > 0
    ensures n as real / n as real == 1.0
  {
  }

  /**
   * With no successful response the tier is at best medium, when every adjustment confidence is
   * at most 1.
   */
  lemma {:induction false} TierNoneSucceeded(rs: seq<AgentResponse>, adj: seq<Adjustment>)
    requires CountSuccess(rs) == 0
    requires forall i :: 0 <= i < |adj| ==> adj[i].confidence <= 1.0
    ensures TierOf(OverallConfidence(rs, adj)) != High
  {
    var rate := if |rs| > 0 then CountSuccess(rs) as real / |rs| as real else 0.0;
    assert rate == 0.0;
    if |adj| > 0 {
      var cs := Confidences(adj);
      assert forall i :: 0 <= i < |cs| ==> cs[i] <= 1.0;
      Sums.MeanBounds(cs, Sums.MinOf(cs), 1.0);
    }
  }

  // ---------------------------------------------------------------------------------------------
  // Consolidation
  // ---------------------------------------------------------------------------------------------

  /** `ConsolidationResult`; the reasoning text is not modelled. */
  datatype Consolidation = Consolidation(
    base: real,
    individual: seq<(string, real)>,
    adjustments: seq<Adjustment>,
    final: real,
    flags: seq<string>,
    tier: Tier)

  /** The result the `except` branch returns. */
  const Fallback: Consolidation := Consolidation(5.0, [], [], 5.0, [ConsolidationError], Low)

  /** `consolidate_scores` with the consolidator's `agent_weights == weights`. */
  function ConsolidateScores(weights: WeightTable, rs: seq<AgentResponse>): (c: Consolidation)
    ensures 0.1 <= c.final <= 10.0
    ensures c == Fallback <==> SignalAdjustments(rs).Raised?
    ensures SignalAdjustments(rs).Ok? ==>
      && c.base == BaseScore(Traditional, weights, rs)
      && c.individual == Individual(BaseContributions(Traditional, weights, rs))
      && c.adjustments == SignalAdjustments(rs).value
      && c.final == ApplyAdjustments(c.base, c.adjustments)
      && c.flags == QualityFlags(rs, c.adjustments)
      && c.tier == TierOf(OverallConfidence(rs, c.adjustments))
  {
    match SignalAdjustments(rs)
    case Raised(_) => Fallback
    case Ok(adj) =>
      var base := BaseScore(Traditional, weights, rs);
      var flags := QualityFlags(rs, adj);
      QualityFlagsFromAdjustments(rs, adj);
      assert flags != [ConsolidationError];
      Consolidation(base, Individual(BaseContributions(Traditional, weights, rs)), adj,
                    ApplyAdjustments(base, adj), flags, TierOf(OverallConfidence(rs, adj)))
  }

  /**
   * `consolidate_scores` as written. The analysis stores `AgentResponse` records, which have no
   * `.get`, and `_assess_confidence_level` calls `.get` on every stored response (earlier steps
   * call it on the ones they look up). So any analysis holding a response raises
   * `AttributeError` and ends in the `except` branch; only an empty analysis is scored.
   */
  function ConsolidateScoresAsWritten(weights: WeightTable, rs: seq<AgentResponse>): (c: Consolidation)
    ensures |rs| > 0 ==> c == Fallback
    ensures |rs| == 0 ==> c == ConsolidateScores(weights, rs)
    ensures |rs| > 0 && SignalAdjustments(rs).Ok? ==> c != ConsolidateScores(weights, rs)
  {
    if |rs| > 0 then Fallback else ConsolidateScores(weights, rs)
  }

  /** Without a response from any of the four signal agents there is nothing to adjust and nothing raises. */
  lemma {:induction false} SignalsAbsent(rs: seq<AgentResponse>)
    requires forall a :: a in {SarcasmSentinel, EchoMapper, SlopFilter, BannedPhraseSkeptic} ==> a.Name() !in ResponseNames(rs)
    ensures SignalAdjustments(rs) == Ok([])
  {
    assert SuccessData(rs, SarcasmSentinel).None?;
    assert SuccessData(rs, EchoMapper).None?;
    assert SuccessData(rs, SlopFilter).None?;
    assert SuccessData(rs, BannedPhraseSkeptic).None?;
  }

  /** An analysis holding only a successful summary: a case the program as written cannot score. */
  lemma {:induction false} SummaryOnlyDiscarded(weights: WeightTable)
    ensures var rs := [AgentResponse(Summary.Name(), map["agent_score" := VReal(8.0)], VReal(8.0), 1.0, Success, None)];
      && ConsolidateScoresAsWritten(weights, rs) == Fallback
      && ConsolidationError !in ConsolidateScores(weights, rs).flags
  {
    var rs := [AgentResponse(Summary.Name(), map["agent_score" := VReal(8.0)], VReal(8.0), 1.0, Success, None)];
    assert ResponseNames(rs) == ["summary_agent"];
    forall a | a in {SarcasmSentinel, EchoMapper, SlopFilter, BannedPhraseSkeptic}
      ensures a.Name() !in ResponseNames(rs)
    {
      assert a.Name() != "summary_agent";
    }
    SignalsAbsent(rs);
  }
}
