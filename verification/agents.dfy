/**
 * The agent registry: agent names, the base analyzer's weight table and execution
 * sequence, and the enhanced analyzer's rescaled weights and extended sequence
 * (`domain/services/multi_agent_analyzer.py`,
 *  `domain/services/orchestration/enhanced_multi_agent_analyzer.py`).
 */
module Agents {
  import Text

  datatype Agent =
    | Summary | InputPreprocessor | ContextEvaluator | FactChecker | DepthAnalyzer
    | RelevanceAnalyzer | StructureAnalyzer | Reflective | MetadataRanking | Consensus
    | ScoreConsolidator | Validator
    | SarcasmSentinel | EchoMapper | LatencyGuard | SlopFilter | BannedPhraseSkeptic
  {
    /** The agent's key in every dictionary of the program. */
    function Name(): string
    {
      match this
      case Summary => "summary_agent"
      case InputPreprocessor => "input_preprocessor"
      case ContextEvaluator => "context_evaluator"
      case FactChecker => "fact_checker"
      case DepthAnalyzer => "depth_analyzer"
      case RelevanceAnalyzer => "relevance_analyzer"
      case StructureAnalyzer => "structure_analyzer"
      case Reflective => "reflective_agent"
      case MetadataRanking => "metadata_ranking_agent"
      case Consensus => "consensus_agent"
      case ScoreConsolidator => "score_consolidator"
      case Validator => "validator"
      case SarcasmSentinel => "sarcasm_sentinel"
      case EchoMapper => "echo_mapper"
      case LatencyGuard => "latency_guard"
      case SlopFilter => "slop_filter"
      case BannedPhraseSkeptic => "banned_phrase_skeptic"
    }

    /** The ten agents whose scores are averaged; the other seven are meta or signal agents. */
    predicate IsTraditional()
    {
      !(ScoreConsolidator? || Validator? || SarcasmSentinel? || EchoMapper?
        || LatencyGuard? || SlopFilter? || BannedPhraseSkeptic?)
    }

    /** The pre-standardisation score field each traditional agent used to report. */
    function LegacyField(): string
      requires IsTraditional()
    {
      match this
      case Summary => "summary_score"
      case InputPreprocessor => "preprocessing_score"
      case ContextEvaluator => "context_score"
      case FactChecker => "fact_check_score"
      case DepthAnalyzer => "depth_score"
      case RelevanceAnalyzer => "relevance_score"
      case StructureAnalyzer => "structure_score"
      case Reflective => "reflection_score"
      case MetadataRanking => "credibility_score"
      case Consensus => "consensus_score"
    }
  }

  /** Two different agents never share a dictionary key. */
  lemma {:induction false} NamesDistinct(a: Agent, b: Agent)
    requires a != b
    ensures a.Name() != b.Name()
  {
  }

  function Names(agents: seq<Agent>): (names: seq<string>)
    ensures |names| == |agents|
    ensures forall i :: 0 <= i < |agents| ==> names[i] == agents[i].Name()
  {
    if |agents| == 0 then [] else [agents[0].Name()] + Names(agents[1..])
  }

  /** The ten independent analysis agents, in execution order. */
  const Traditional: seq<Agent> :=
    [Summary, InputPreprocessor, ContextEvaluator, FactChecker, DepthAnalyzer,
     RelevanceAnalyzer, StructureAnalyzer, Reflective, MetadataRanking, Consensus]

  /** The base analyzer's `agent_sequence`. */
  const BaseSequence: seq<Agent> := Traditional + [ScoreConsolidator, Validator]

  /** The legacy score field names, in the order the base analyzer tries them. */
  const LegacyFields: seq<string> :=
    ["summary_score", "preprocessing_score", "context_score", "fact_check_score", "depth_score",
     "relevance_score", "structure_score", "reflection_score", "credibility_score", "consensus_score"]

  lemma {:induction false} TraditionalAreTraditional()
    ensures forall i :: 0 <= i < |Traditional| ==> Traditional[i].IsTraditional()
    ensures forall a: Agent :: a.IsTraditional() <==> a in Traditional
    ensures forall i :: 0 <= i < |Traditional| ==> LegacyFields[i] == Traditional[i].LegacyField()
  {
  }

  /** A weight dictionary: agents in insertion order with their weights. */
  type WeightTable = seq<(Agent, real)>

  /** `table.get(a, 0.0)`. */
  function WeightOf(t: WeightTable, a: Agent): real
  {
    if |t| == 0 then 0.0 else if t[0].0 == a then t[0].1 else WeightOf(t[1..], a)
  }

  /** The agents of a table, in insertion order (`list(table)`). */
  function Keys(t: WeightTable): (ks: seq<Agent>)
    ensures |ks| == |t|
    ensures forall i :: 0 <= i < |t| ==> ks[i] == t[i].0
  {
    seq(|t|, i requires 0 <= i < |t| => t[i].0)
  }

  /** The sum of the positive weights, `sum(w for w in table.values() if w > 0)`. */
  function SumPositive(t: WeightTable): real
  {
    if |t| == 0 then 0.0 else (if t[0].1 > 0.0 then t[0].1 else 0.0) + SumPositive(t[1..])
  }

  /** The base analyzer's weight table. */
  const BaseWeights: WeightTable :=
    [(Summary, 0.10), (InputPreprocessor, 0.05), (ContextEvaluator, 0.15), (FactChecker, 0.18),
     (DepthAnalyzer, 0.12), (RelevanceAnalyzer, 0.15), (StructureAnalyzer, 0.08), (Reflective, 0.07),
     (MetadataRanking, 0.06), (Consensus, 0.04), (ScoreConsolidator, 0.0), (Validator, 0.0)]

  /** The base table lists the agents in execution order, and exactly the traditional ones weigh something. */
  lemma {:induction false} BaseWeightsShape()
    ensures Keys(BaseWeights) == BaseSequence
    ensures forall i :: 0 <= i < |BaseWeights| ==> (BaseWeights[i].1 > 0.0 <==> BaseWeights[i].0.IsTraditional())
  {
  }

  /** The ten traditional weights are exactly 1.00 together. */
  lemma {:induction false} BaseWeightsSumToOne()
    ensures SumPositive(BaseWeights) == 1.0
  {
    var w := BaseWeights;
    assert SumPositive(w[12..]) == 0.0;
    assert w[11..][1..] == w[12..];
    assert SumPositive(w[11..]) == 0.00;
    assert w[10..][1..] == w[11..];
    assert SumPositive(w[10..]) == 0.00;
    assert w[9..][1..] == w[10..];
    assert SumPositive(w[9..]) == 0.04;
    assert w[8..][1..] == w[9..];
    assert SumPositive(w[8..]) == 0.10;
    assert w[7..][1..] == w[8..];
    assert SumPositive(w[7..]) == 0.17;
    assert w[6..][1..] == w[7..];
    assert SumPositive(w[6..]) == 0.25;
    assert w[5..][1..] == w[6..];
    assert SumPositive(w[5..]) == 0.40;
    assert w[4..][1..] == w[5..];
    assert SumPositive(w[4..]) == 0.52;
    assert w[3..][1..] == w[4..];
    assert SumPositive(w[3..]) == 0.70;
    assert w[2..][1..] == w[3..];
    assert SumPositive(w[2..]) == 0.85;
    assert w[1..][1..] == w[2..];
    assert SumPositive(w[1..]) == 0.90;
    assert w[0..][1..] == w[1..];
    assert SumPositive(w[0..]) == 1.00;
    assert w[0..] == w;
  }

  /** The positive total of two concatenated tables is the sum of their totals. */
  lemma {:induction false} SumPositiveAppend(a: WeightTable, b: WeightTable)
    ensures SumPositive(a + b) == SumPositive(a) + SumPositive(b)
  {
    if |a| > 0 {
      assert (a + b)[1..] == a[1..] + b;
      SumPositiveAppend(a[1..], b);
    } else {
      assert a + b == b;
    }
  }

  /** Multiply every positive weight by `c`; other weights are left alone. */
  function ScalePositive(t: WeightTable, c: real): (r: WeightTable)
    requires c > 0.0
    ensures |r| == |t|
    ensures forall i :: 0 <= i < |t| ==> r[i].0 == t[i].0
    ensures forall i :: 0 <= i < |t| ==> r[i].1 == (if t[i].1 > 0.0 then t[i].1 * c else t[i].1)
  {
    if |t| == 0 then []
    else [(t[0].0, if t[0].1 > 0.0 then t[0].1 * c else t[0].1)] + ScalePositive(t[1..], c)
  }

  /** Scaling the positive weights by `c` scales their sum by `c`. */
  lemma {:induction false} SumPositiveScale(t: WeightTable, c: real)
    requires c > 0.0
    ensures SumPositive(ScalePositive(t, c)) == c * SumPositive(t)
  {
    if |t| > 0 {
      SumPositiveScale(t[1..], c);
      assert ScalePositive(t, c)[1..] == ScalePositive(t[1..], c);
      if t[0].1 > 0.0 {
        assert t[0].1 * c > 0.0;
      }
    }
  }

  /** Table `t` maps agent `a` to weight `w` at some position. */
  predicate Maps(t: WeightTable, a: Agent, w: real)
  {
    exists i :: 0 <= i < |t| && t[i] == (a, w)
  }

  /** `table[a] = w` on a dictionary: the value is replaced in place when `a` is a key, appended otherwise. */
  function SetWeight(t: WeightTable, a: Agent, w: real): (r: WeightTable)
    ensures |r| == |t| || |r| == |t| + 1
    ensures forall i :: 0 <= i < |t| ==> r[i].0 == t[i].0
    ensures forall i :: 0 <= i < |t| && t[i].0 != a ==> r[i] == t[i]
    ensures Maps(r, a, w)
  {
    if |t| == 0 then
      assert [(a, w)][0] == (a, w);
      [(a, w)]
    else if t[0].0 == a then
      var r := [(a, w)] + t[1..];
      assert r[0] == (a, w);
      r
    else
      var rest := SetWeight(t[1..], a, w);
      var r := [t[0]] + rest;
      assert Maps(r, a, w) by {
        var i :| 0 <= i < |rest| && rest[i] == (a, w);
        assert r[i + 1] == (a, w);
      }
      r
  }

  /** Replacing keeps the keys; a new key goes to the end. */
  lemma {:induction false} SetWeightKeys(t: WeightTable, a: Agent, w: real)
    ensures a in Keys(t) ==> Keys(SetWeight(t, a, w)) == Keys(t)
    ensures a !in Keys(t) ==> SetWeight(t, a, w) == t + [(a, w)]
  {
    if a in Keys(t) {
      SetWeightKnown(t, a, w);
    } else {
      SetWeightNew(t, a, w);
    }
  }

  lemma {:induction false} SetWeightKnown(t: WeightTable, a: Agent, w: real)
    requires a in Keys(t)
    ensures |SetWeight(t, a, w)| == |t|
    ensures Keys(SetWeight(t, a, w)) == Keys(t)
  {
    assert Keys(t) == [t[0].0] + Keys(t[1..]);
    if t[0].0 != a {
      SetWeightKnown(t[1..], a, w);
      assert SetWeight(t, a, w) == [t[0]] + SetWeight(t[1..], a, w);
    }
    var r := SetWeight(t, a, w);
    assert forall i :: 0 <= i < |r| ==> Keys(r)[i] == Keys(t)[i];
  }

  lemma {:induction false} SetWeightNew(t: WeightTable, a: Agent, w: real)
    requires a !in Keys(t)
    ensures SetWeight(t, a, w) == t + [(a, w)]
  {
    if |t| > 0 {
      assert Keys(t) == [t[0].0] + Keys(t[1..]);
      SetWeightNew(t[1..], a, w);
      assert t == [t[0]] + t[1..];
    }
  }

  /** The keys of a table with one more entry. */
  lemma {:induction false} KeysSnoc(t: WeightTable, e: (Agent, real), x: Agent)
    ensures x in Keys(t + [e]) <==> x in Keys(t) || x == e.0
  {
    var k := Keys(t + [e]);
    if x in k {
      var i :| 0 <= i < |k| && k[i] == x;
      if i < |t| {
        assert Keys(t)[i] == x;
      }
    }
    if x in Keys(t) {
      var i :| 0 <= i < |t| && Keys(t)[i] == x;
      assert k[i] == x;
    }
    assert k[|t|] == e.0;
  }

  /** The five signal agents, in the order the enhanced analyzer adds them. */
  const SignalAgents: seq<Agent> := [SarcasmSentinel, EchoMapper, LatencyGuard, SlopFilter, BannedPhraseSkeptic]

  /** The weights the enhanced analyzer gives the signal agents, in `update` order. */
  const SignalWeights: WeightTable :=
    [(SarcasmSentinel, 0.03), (EchoMapper, 0.05), (LatencyGuard, 0.02), (SlopFilter, 0.03),
     (BannedPhraseSkeptic, 0.02)]

  /** `table.update(entries)`: set each entry in turn. */
  function UpdateAll(t: WeightTable, entries: WeightTable): (r: WeightTable)
    ensures |t| <= |r| <= |t| + |entries|
    ensures forall i :: 0 <= i < |t| ==> r[i].0 == t[i].0
    decreases |entries|
  {
    if |entries| == 0 then t else UpdateAll(SetWeight(t, entries[0].0, entries[0].1), entries[1..])
  }

  /** Updating with entries whose agents are all new appends them in order. */
  lemma {:induction false} UpdateAllAppends(t: WeightTable, entries: WeightTable)
    requires forall i, j :: 0 <= i < j < |entries| ==> entries[i].0 != entries[j].0
    requires forall i :: 0 <= i < |entries| ==> entries[i].0 !in Keys(t)
    ensures UpdateAll(t, entries) == t + entries
    decreases |entries|
  {
    if |entries| > 0 {
      SetWeightNew(t, entries[0].0, entries[0].1);
      var t1 := t + [entries[0]];
      forall i | 0 <= i < |entries[1..]| ensures entries[1..][i].0 !in Keys(t1) {
        assert entries[1..][i] == entries[i + 1];
        KeysSnoc(t, entries[0], entries[i + 1].0);
      }
      UpdateAllAppends(t1, entries[1..]);
      Text.MoveHead(t, entries);
    }
  }

  /** The last entry of an update is in the result with its weight. */
  lemma {:induction false} UpdateAllMapsLast(t: WeightTable, entries: WeightTable)
    requires |entries| > 0
    ensures Maps(UpdateAll(t, entries), entries[|entries| - 1].0, entries[|entries| - 1].1)
    decreases |entries|
  {
    var s := SetWeight(t, entries[0].0, entries[0].1);
    if |entries| > 1 {
      UpdateAllMapsLast(s, entries[1..]);
      assert entries[1..][|entries[1..]| - 1] == entries[|entries| - 1];
    } else {
      assert UpdateAll(t, entries) == UpdateAll(s, []) == s;
    }
  }

  /** An update never removes or moves an entry, and leaves the agents it does not name alone. */
  lemma {:induction false} UpdateAllKeeps(t: WeightTable, entries: WeightTable, i: nat)
    requires i < |t| && t[i].0 !in Keys(entries)
    ensures i < |UpdateAll(t, entries)| && UpdateAll(t, entries)[i] == t[i]
    decreases |entries|
  {
    if |entries| > 0 {
      var s := SetWeight(t, entries[0].0, entries[0].1);
      assert entries[0].0 == Keys(entries)[0];
      assert Keys(entries[1..]) == Keys(entries)[1..];
      UpdateAllKeeps(s, entries[1..], i);
    }
  }

  /**
   * The table after `_update_agent_weights` has scaled the positive weights by 0.85 and
   * `update`d it with the signal weights, before any renormalisation.
   */
  function AddSignalWeights(t: WeightTable): WeightTable
  {
    UpdateAll(ScalePositive(t, 85.0 / 100.0), SignalWeights)
  }

  /** One positive weight makes the positive total positive. */
  lemma {:induction false} PositiveEntryBoundsSum(t: WeightTable, a: Agent, w: real)
    requires w > 0.0 && Maps(t, a, w)
    ensures SumPositive(t) >= w
  {
    var i :| 0 <= i < |t| && t[i] == (a, w);
    if i > 0 {
      assert t[1..][i - 1] == (a, w);
      PositiveEntryBoundsSum(t[1..], a, w);
    }
    SumPositiveNonNegative(t[1..]);
  }

  lemma {:induction false} SumPositiveNonNegative(t: WeightTable)
    ensures SumPositive(t) >= 0.0
  {
    if |t| > 0 {
      SumPositiveNonNegative(t[1..]);
    }
  }

  /** The signal agents are always present with positive weight, so the positive total is at least 0.02. */
  lemma {:induction false} AddSignalWeightsPositive(t: WeightTable)
    ensures SumPositive(AddSignalWeights(t)) >= 0.02
  {
    UpdateAllMapsLast(ScalePositive(t, 85.0 / 100.0), SignalWeights);
    PositiveEntryBoundsSum(AddSignalWeights(t), BannedPhraseSkeptic, 0.02);
  }

  /** Rescale the positive weights by `1 / total` unless they already total 1.0. */
  function Normalise(t: WeightTable): (r: WeightTable)
    requires SumPositive(t) > 0.0
    ensures SumPositive(r) == 1.0
    ensures |r| == |t|
    ensures forall i :: 0 <= i < |t| ==> r[i].0 == t[i].0
    ensures forall i :: 0 <= i < |t| ==>
      r[i].1 == if t[i].1 > 0.0 then t[i].1 / SumPositive(t) else t[i].1
  {
    var total := SumPositive(t);
    if total != 1.0 then
      var c := Reciprocal(total);
      SumPositiveScale(t, c);
      ScaleDivides(t, total, c);
      ScalePositive(t, c)
    else t
  }

  /** Multiplying by the reciprocal of `x` is dividing by `x`. */
  lemma {:induction false} ScaleDivides(t: WeightTable, x: real, c: real)
    requires x > 0.0 && c > 0.0 && c * x == 1.0
    ensures forall i :: 0 <= i < |t| ==>
      ScalePositive(t, c)[i].1 == if t[i].1 > 0.0 then t[i].1 / x else t[i].1
  {
    forall i | 0 <= i < |t| && t[i].1 > 0.0
      ensures t[i].1 * c == t[i].1 / x
    {
      MulReciprocal(t[i].1, x, c);
    }
  }

  lemma {:induction false} MulReciprocal(y: real, x: real, c: real)
    requires x > 0.0 && c * x == 1.0
    ensures y * c == y / x
  {
    assert c == 1.0 / x;
  }

  function Reciprocal(x: real): (r: real)
    requires x > 0.0
    ensures r > 0.0 && r * x == 1.0
  {
    1.0 / x
  }

  /**
   * `_update_agent_weights`: scale the positive weights by 0.85, add the five signal agents,
   * then rescale the positive weights by `1 / total` unless they already total 1.0.
   */
  function UpdateWeights(t: WeightTable): (r: WeightTable)
    ensures |t| <= |r| <= |t| + |SignalWeights|
    ensures forall i :: 0 <= i < |t| ==> r[i].0 == t[i].0
  {
    AddSignalWeightsPositive(t);
    Normalise(AddSignalWeights(t))
  }

  /** After `_update_agent_weights` the positive weights total exactly 1. */
  lemma {:induction false} UpdateWeightsNormalises(t: WeightTable)
    ensures SumPositive(UpdateWeights(t)) == 1.0
  {
    AddSignalWeightsPositive(t);
  }

  /**
   * Every agent already in the table keeps its position; a non-signal agent with positive weight `w`
   * ends up with `0.85 * w / total`, and a non-positive weight is never touched.
   */
  lemma {:induction false} UpdateWeightsKeepsProportions(t: WeightTable, i: nat)
    requires i < |t| && t[i].0 !in SignalAgents
    ensures i < |UpdateWeights(t)| && UpdateWeights(t)[i].0 == t[i].0
    ensures t[i].1 <= 0.0 ==> UpdateWeights(t)[i].1 == t[i].1
    ensures t[i].1 > 0.0 ==>
      UpdateWeights(t)[i].1 == t[i].1 * (85.0 / 100.0) / SumPositive(AddSignalWeights(t))
  {
    AddSignalWeightsPositive(t);
    AddSignalWeightsKeeps(t, i);
    var a, s := AddSignalWeights(t), ScalePositive(t, 85.0 / 100.0);
    assert a[i] == s[i];
    assert s[i].0 == t[i].0 && s[i].1 == (if t[i].1 > 0.0 then t[i].1 * (85.0 / 100.0) else t[i].1);
    assert UpdateWeights(t) == Normalise(a);
    assert Normalise(a)[i].1 == if a[i].1 > 0.0 then a[i].1 / SumPositive(a) else a[i].1;
  }

  /** Adding the signal agents leaves every other entry as the 0.85 scaling made it. */
  lemma {:induction false} AddSignalWeightsKeeps(t: WeightTable, i: nat)
    requires i < |t| && t[i].0 !in SignalAgents
    ensures i < |AddSignalWeights(t)|
    ensures AddSignalWeights(t)[i] == ScalePositive(t, 85.0 / 100.0)[i]
  {
    SignalWeightsSum();
    UpdateAllKeeps(ScalePositive(t, 85.0 / 100.0), SignalWeights, i);
  }

  lemma {:induction false} SignalWeightsSum()
    ensures SumPositive(SignalWeights) == 0.15
    ensures Keys(SignalWeights) == SignalAgents
  {
    var w := SignalWeights;
    assert w[4..][1..] == [];
    assert SumPositive(w[4..]) == 0.02;
    assert w[3..][1..] == w[4..];
    assert SumPositive(w[3..]) == 0.05;
    assert w[2..][1..] == w[3..];
    assert SumPositive(w[2..]) == 0.07;
    assert w[1..][1..] == w[2..];
    assert SumPositive(w[1..]) == 0.12;
  }

  /**
   * A table whose positive weights already total 1 and that has no signal agent yet is not
   * renormalised: its positive weights become 0.85 of what they were and the five signal
   * agents are appended, which brings the total back to 0.85 + 0.15 = 1.
   */
  lemma {:induction false} UpdateNormalisedTable(t: WeightTable)
    requires SumPositive(t) == 1.0
    requires forall a :: a in SignalAgents ==> a !in Keys(t)
    ensures SumPositive(AddSignalWeights(t)) == 1.0
    ensures UpdateWeights(t) == ScalePositive(t, 85.0 / 100.0) + SignalWeights
    ensures Keys(UpdateWeights(t)) == Keys(t) + SignalAgents
  {
    var s0 := ScalePositive(t, 85.0 / 100.0);
    SignalWeightsSum();
    assert Keys(s0 + SignalWeights) == Keys(s0) + Keys(SignalWeights);
    assert Keys(s0) == Keys(t);
    AddSignalWeightsAppends(t);
    SumScaledDown(t);
    SumWithSignals(s0);
    AddSignalWeightsPositive(t);
  }

  lemma {:induction false} SumScaledDown(t: WeightTable)
    ensures SumPositive(ScalePositive(t, 85.0 / 100.0)) == 85.0 / 100.0 * SumPositive(t)
  {
    SumPositiveScale(t, 85.0 / 100.0);
  }

  /** When no signal agent is in the table yet, `update` appends all five in order. */
  lemma {:induction false} AddSignalWeightsAppends(t: WeightTable)
    requires forall a :: a in SignalAgents ==> a !in Keys(t)
    ensures AddSignalWeights(t) == ScalePositive(t, 85.0 / 100.0) + SignalWeights
  {
    var s0 := ScalePositive(t, 85.0 / 100.0);
    SignalWeightsSum();
    assert Keys(s0) == Keys(t);
    UpdateAllAppends(s0, SignalWeights);
  }

  lemma {:induction false} SumWithSignals(t: WeightTable)
    ensures SumPositive(t + SignalWeights) == SumPositive(t) + 0.15
  {
    SignalWeightsSum();
    SumPositiveAppend(t, SignalWeights);
  }

  /** The enhanced analyzer's weights: the base table scaled by 0.85, then the signal agents. */
  lemma {:induction false} EnhancedWeightsValues()
    ensures UpdateWeights(BaseWeights) == ScalePositive(BaseWeights, 85.0 / 100.0) + SignalWeights
    ensures Keys(UpdateWeights(BaseWeights)) == BaseSequence + SignalAgents
  {
    BaseWeightsSumToOne();
    SignalsNotInBase();
    UpdateNormalisedTable(BaseWeights);
  }

  lemma {:induction false} SignalsNotInBase()
    ensures Keys(BaseWeights) == BaseSequence
    ensures forall a :: a in SignalAgents ==> a !in Keys(BaseWeights)
  {
    BaseWeightsShape();
  }

  /** Which signal agents the enhanced configuration enables. */
  datatype SignalConfig = SignalConfig(sarcasm: bool, echo: bool, latency: bool, slop: bool, banned: bool)

  /** The enabled signal agents, in the fixed order sarcasm, echo, latency, slop, banned. */
  function EnabledSignals(c: SignalConfig): (r: seq<Agent>)
    ensures |r| <= 5
    ensures SarcasmSentinel in r <==> c.sarcasm
    ensures EchoMapper in r <==> c.echo
    ensures LatencyGuard in r <==> c.latency
    ensures SlopFilter in r <==> c.slop
    ensures BannedPhraseSkeptic in r <==> c.banned
    ensures forall a :: a in r ==> a in [SarcasmSentinel, EchoMapper, LatencyGuard, SlopFilter, BannedPhraseSkeptic]
  {
    Optional(c.sarcasm, SarcasmSentinel) + Optional(c.echo, EchoMapper) + Optional(c.latency, LatencyGuard)
    + Optional(c.slop, SlopFilter) + Optional(c.banned, BannedPhraseSkeptic)
  }

  /** The agent alone when it is enabled, nothing otherwise. */
  function Optional(enabled: bool, a: Agent): (r: seq<Agent>)
    ensures |r| <= 1
    ensures forall b :: b in r <==> enabled && b == a
  {
    if enabled then [a] else []
  }

  function CountEnabled(c: SignalConfig): nat
  {
    (if c.sarcasm then 1 else 0) + (if c.echo then 1 else 0) + (if c.latency then 1 else 0)
    + (if c.slop then 1 else 0) + (if c.banned then 1 else 0)
  }

  /** `_update_agent_sequence`: the first ten agents, the enabled signal agents, then the two meta-agents. */
  function UpdateSequence(s: seq<Agent>, c: SignalConfig): (r: seq<Agent>)
    ensures |r| == (if |s| < 10 then |s| else 10) + CountEnabled(c) + 2
    ensures r[..(if |s| < 10 then |s| else 10)] == (if |s| < 10 then s else s[..10])
    ensures r[|r| - 2..] == [ScoreConsolidator, Validator]
  {
    var first := if |s| < 10 then s else s[..10];
    first + EnabledSignals(c) + [ScoreConsolidator, Validator]
  }

  /** On the base sequence the phases stay intact: ten traditional agents, signals, then the meta-agents. */
  lemma {:induction false} EnhancedSequenceShape(c: SignalConfig)
    ensures |UpdateSequence(BaseSequence, c)| == 12 + CountEnabled(c)
    ensures UpdateSequence(BaseSequence, c)[..10] == Traditional
    ensures UpdateSequence(BaseSequence, c)[10..10 + CountEnabled(c)] == EnabledSignals(c)
  {
    var r := UpdateSequence(BaseSequence, c);
    assert BaseSequence[..10] == Traditional;
    assert r == Traditional + EnabledSignals(c) + [ScoreConsolidator, Validator];
  }
}
