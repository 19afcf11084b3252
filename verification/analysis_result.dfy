/**
 * The analysis-result entity (`domain/entities/analysis_result.py`): the per-agent response map,
 * the consolidated score record and the aggregates derived from them.
 */
module AnalysisResults {
  import opened Wrappers
  import opened Values
  import opened Sums

  /**
   * `AnalysisStatus`. `RequiresHumanReview` is the status the enhanced analyzer assigns when a
   * signal agent asks for review; the entity's enumeration does not declare it.
   */
  datatype Status = Success | Partial | Failed | Pending | RequiresHumanReview

  datatype QualityLevel = Excellent | Good | Average | Poor | VeryPoor
  {
    /** Position from best (0) to worst (4). */
    function Rank(): nat
    {
      match this
      case Excellent => 0
      case Good => 1
      case Average => 2
      case Poor => 3
      case VeryPoor => 4
    }
  }

  /** One agent's response; `score` is whatever `response_data.get('agent_score', 5.0)` held. */
  datatype AgentResponse = AgentResponse(
    name: string,
    data: Record,
    score: Value,
    executionTime: real,
    status: Status,
    error: Option<string>)

  /** The `score_range` field: `"N/A"` when there are no scores, else `"min - max"`. */
  datatype ScoreRange = NotAvailable | Range(lo: real, hi: real)

  datatype ConsolidatedScore = ConsolidatedScore(
    contributors: int,
    individual: seq<(string, real)>,
    weightedAverage: real,
    score: real,
    range: ScoreRange,
    /** The number printed after `±` in `confidence_interval`. */
    halfSpread: real,
    status: Status,
    reasoning: string)

  datatype MediaAnalysis = MediaAnalysis(complete: bool)

  datatype ThreadAnalysis = ThreadAnalysis(isThread: bool)

  /** `responses` is the `agent_responses` dictionary in insertion order. */
  datatype AnalysisResult = AnalysisResult(
    contentId: string,
    runId: string,
    timestamp: int,
    responses: seq<AgentResponse>,
    consolidated: Option<ConsolidatedScore>,
    media: Option<MediaAnalysis>,
    thread: Option<ThreadAnalysis>,
    overallStatus: Status,
    qualityLevel: Option<QualityLevel>)
  {
    /** `has_media_analysis`. */
    predicate HasMediaAnalysis()
    {
      media.Some? && media.value.complete
    }

    /** `has_thread_analysis`. */
    predicate HasThreadAnalysis()
    {
      thread.Some? && thread.value.isThread
    }
  }

  /** The keys of the response map, in insertion order. */
  function ResponseNames(rs: seq<AgentResponse>): (ns: seq<string>)
    ensures |ns| == |rs|
    ensures forall i :: 0 <= i < |rs| ==> ns[i] == rs[i].name
  {
    seq(|rs|, i requires 0 <= i < |rs| => rs[i].name)
  }

  /** A dictionary has each key once. */
  predicate DistinctNames(rs: seq<AgentResponse>)
  {
    forall i, j :: 0 <= i < j < |rs| ==> rs[i].name != rs[j].name
  }

  /** The position of key `name` in the response dictionary, or -1. */
  function IndexOf(rs: seq<AgentResponse>, name: string): (i: int)
    ensures i == -1 <==> name !in ResponseNames(rs)
    ensures i != -1 ==> 0 <= i < |rs| && rs[i].name == name
    ensures i != -1 ==> forall j :: 0 <= j < i ==> rs[j].name != name
    decreases |rs|
  {
    if |rs| == 0 then -1
    else if rs[|rs| - 1].name == name && name !in ResponseNames(rs[..|rs| - 1]) then |rs| - 1
    else
      assert ResponseNames(rs) == ResponseNames(rs[..|rs| - 1]) + [rs[|rs| - 1].name];
      IndexOf(rs[..|rs| - 1], name)
  }

  /** The characterisation of `IndexOf` determines it. */
  lemma {:induction false} IndexOfIs(rs: seq<AgentResponse>, name: string, k: int)
    requires (k == -1 && name !in ResponseNames(rs))
      || (0 <= k < |rs| && rs[k].name == name && forall j :: 0 <= j < k ==> rs[j].name != name)
    ensures IndexOf(rs, name) == k
  {
    if k != -1 {
      assert ResponseNames(rs)[k] == name;
    }
  }

  /** `agent_responses.get(name)`. */
  function Lookup(rs: seq<AgentResponse>, name: string): (r: Option<AgentResponse>)
    ensures r.Some? <==> name in ResponseNames(rs)
    ensures r.Some? ==> r.value in rs && r.value.name == name
  {
    var i := IndexOf(rs, name);
    if i == -1 then None else Some(rs[i])
  }

  /** `quality_level` as `__post_init__` derives it from the consolidated score. */
  function QualityLevelOf(score: real): (q: QualityLevel)
    ensures q == Excellent <==> score >= 9.0
    ensures q == Good <==> 7.0 <= score < 9.0
    ensures q == Average <==> 5.0 <= score < 7.0
    ensures q == Poor <==> 3.0 <= score < 5.0
    ensures q == VeryPoor <==> score < 3.0
  {
    if score >= 9.0 then Excellent
    else if score >= 7.0 then Good
    else if score >= 5.0 then Average
    else if score >= 3.0 then Poor
    else VeryPoor
  }

  /** A higher consolidated score never gets a worse quality level. */
  lemma {:induction false} QualityLevelMonotone(a: real, b: real)
    requires a <= b
    ensures QualityLevelOf(b).Rank() <= QualityLevelOf(a).Rank()
  {
  }

  /**
   * `AnalysisResult(...)` followed by `__post_init__`: the quality level is derived only when a
   * consolidated score is supplied at construction time.
   */
  function NewResult(contentId: string, runId: string, timestamp: int, consolidated: Option<ConsolidatedScore>): (r: AnalysisResult)
    ensures r.responses == [] && r.overallStatus == Pending
    ensures !r.HasMediaAnalysis() && !r.HasThreadAnalysis()
    ensures consolidated.None? ==> r.qualityLevel.None?
    ensures consolidated.Some? ==> r.qualityLevel == Some(QualityLevelOf(consolidated.value.score))
  {
    AnalysisResult(contentId, runId, timestamp, [], consolidated, None, None, Pending,
      if consolidated.Some? then Some(QualityLevelOf(consolidated.value.score)) else None)
  }

  /** The number of responses whose status is SUCCESS. */
  function CountSuccess(rs: seq<AgentResponse>): (n: nat)
    ensures n <= |rs|
  {
    if |rs| == 0 then 0 else (if rs[0].status == Success then 1 else 0) + CountSuccess(rs[1..])
  }

  lemma {:induction false} CountSuccessAll(rs: seq<AgentResponse>)
    ensures CountSuccess(rs) == |rs| <==> forall i :: 0 <= i < |rs| ==> rs[i].status == Success
    ensures CountSuccess(rs) == 0 <==> forall i :: 0 <= i < |rs| ==> rs[i].status != Success
  {
    if |rs| > 0 {
      CountSuccessAll(rs[1..]);
      assert forall i :: 1 <= i < |rs| ==> rs[i] == rs[1..][i - 1];
    }
  }

  /** `success_rate`: the percentage of responses with status SUCCESS, 0.0 for no responses. */
  function SuccessRate(r: AnalysisResult): (rate: real)
    ensures 0.0 <= rate <= 100.0
  {
    if |r.responses| == 0 then 0.0
    else
      var n := |r.responses| as real;
      var k := CountSuccess(r.responses) as real;
      DivBounds(k, n, 0.0, 1.0);
      k / n * 100.0
  }

  /** The rate is 100 exactly when every response succeeded and 0 exactly when none did. */
  lemma {:induction false} SuccessRateExtremes(r: AnalysisResult)
    requires |r.responses| > 0
    ensures SuccessRate(r) == 100.0 <==> forall i :: 0 <= i < |r.responses| ==> r.responses[i].status == Success
    ensures SuccessRate(r) == 0.0 <==> forall i :: 0 <= i < |r.responses| ==> r.responses[i].status != Success
  {
    CountSuccessAll(r.responses);
    var n := |r.responses| as real;
    var k := CountSuccess(r.responses) as real;
    assert k / n * 100.0 == 100.0 <==> k == n;
    assert k / n * 100.0 == 0.0 <==> k == 0.0;
  }

  /**
   * The `agent_score`s of the SUCCESS responses as numbers, or `None` when one of them is not a
   * number, in which case Python's `sum` raises `TypeError`.
   */
  function SuccessScores(rs: seq<AgentResponse>): (r: Option<seq<real>>)
    ensures r.Some? <==> forall i :: 0 <= i < |rs| && rs[i].status == Success ==> Num(rs[i].score).Some?
    ensures r.Some? ==> |r.value| == CountSuccess(rs)
    ensures r.Some? ==> forall x :: x in r.value <==>
      exists i :: 0 <= i < |rs| && rs[i].status == Success && Num(rs[i].score) == Some(x)
  {
    if |rs| == 0 then Some([])
    else
      var rest := SuccessScores(rs[1..]);
      assert forall i :: 1 <= i < |rs| ==> rs[i] == rs[1..][i - 1];
      if rs[0].status != Success then rest
      else match (Num(rs[0].score), rest)
        case (Some(x), Some(xs)) =>
          assert forall y :: y in xs ==> exists i :: 1 <= i < |rs| && rs[i].status == Success && Num(rs[i].score) == Some(y) by {
            forall y | y in xs ensures exists i :: 1 <= i < |rs| && rs[i].status == Success && Num(rs[i].score) == Some(y) {
              var j :| 0 <= j < |rs[1..]| && rs[1..][j].status == Success && Num(rs[1..][j].score) == Some(y);
              assert rs[j + 1] == rs[1..][j];
            }
          }
          Some([x] + xs)
        case _ => None
  }

  /**
   * `average_agent_score`: the mean `agent_score` of the SUCCESS responses, 0.0 when there are
   * none; `Raised` when a successful response holds a non-numeric score.
   */
  function AverageAgentScore(r: AnalysisResult): (avg: Result<real>)
    ensures avg.Raised? <==> SuccessScores(r.responses).None?
    ensures CountSuccess(r.responses) == 0 ==> avg == Ok(0.0)
    ensures avg.Ok? && CountSuccess(r.responses) > 0 ==> avg.value == Mean(SuccessScores(r.responses).value)
  {
    CountSuccessAll(r.responses);
    if |r.responses| == 0 then Ok(0.0)
    else match SuccessScores(r.responses)
      case None => Raised("TypeError: unsupported operand type(s) for +")
      case Some(xs) => Ok(if |xs| > 0 then Mean(xs) else 0.0)
  }

  /** The average lies between the lowest and the highest successful score. */
  lemma {:induction false} AverageWithinScores(r: AnalysisResult, lo: real, hi: real)
    requires forall i :: 0 <= i < |r.responses| && r.responses[i].status == Success ==>
      Num(r.responses[i].score).Some? && lo <= Num(r.responses[i].score).value <= hi
    requires CountSuccess(r.responses) > 0
    ensures AverageAgentScore(r).Ok?
    ensures lo <= AverageAgentScore(r).value <= hi
  {
    var xs := SuccessScores(r.responses).value;
    forall k | 0 <= k < |xs| ensures lo <= xs[k] <= hi {
      assert xs[k] in xs;
    }
    MeanBounds(xs, lo, hi);
  }

  /**
   * `add_agent_response`: the response for `name` is (re)placed, its score taken from
   * `response_data['agent_score']` with 5.0 as the default.
   */
  function AddResponse(r: AnalysisResult, name: string, data: Record, executionTime: real, status: Status,
                       error: Option<string>): (r': AnalysisResult)
    ensures Lookup(r'.responses, name) == Some(AgentResponse(name, data, Get(data, "agent_score", VReal(5.0)), executionTime, status, error))
    ensures ResponseNames(r'.responses) ==
      if name in ResponseNames(r.responses) then ResponseNames(r.responses) else ResponseNames(r.responses) + [name]
    ensures DistinctNames(r.responses) ==> DistinctNames(r'.responses)
    ensures r'.consolidated == r.consolidated && r'.qualityLevel == r.qualityLevel && r'.overallStatus == r.overallStatus
  {
    var resp := AgentResponse(name, data, Get(data, "agent_score", VReal(5.0)), executionTime, status, error);
    r.(responses := Put(r.responses, resp))
  }

  /** Adding a response for `name` leaves the response of every other name as it was. */
  lemma {:induction false} AddResponseOthers(r: AnalysisResult, name: string, data: Record, executionTime: real,
                                             status: Status, error: Option<string>, other: string)
    requires other != name
    ensures Lookup(AddResponse(r, name, data, executionTime, status, error).responses, other) == Lookup(r.responses, other)
  {
    PutOthers(r.responses, AgentResponse(name, data, Get(data, "agent_score", VReal(5.0)), executionTime, status, error), other);
  }

  /** `d[resp.name] = resp` on the response dictionary: replace in place, or append a new key. */
  function Put(rs: seq<AgentResponse>, resp: AgentResponse): (rs': seq<AgentResponse>)
    ensures Lookup(rs', resp.name) == Some(resp)
    ensures ResponseNames(rs') ==
      if resp.name in ResponseNames(rs) then ResponseNames(rs) else ResponseNames(rs) + [resp.name]
    ensures DistinctNames(rs) ==> DistinctNames(rs')
  {
    var i := IndexOf(rs, resp.name);
    var rs' := if i == -1 then rs + [resp] else rs[i := resp];
    assert ResponseNames(rs') ==
      if resp.name in ResponseNames(rs) then ResponseNames(rs) else ResponseNames(rs) + [resp.name];
    if i == -1 then
      IndexOfIs(rs', resp.name, |rs|);
      rs'
    else
      IndexOfIs(rs', resp.name, i);
      rs'
  }

  /** Assigning one key leaves the entry of every other key as it was. */
  lemma {:induction false} PutOthers(rs: seq<AgentResponse>, resp: AgentResponse, other: string)
    requires other != resp.name
    ensures Lookup(Put(rs, resp), other) == Lookup(rs, other)
  {
    var i := IndexOf(rs, resp.name);
    var rs' := if i == -1 then rs + [resp] else rs[i := resp];
    assert Put(rs, resp) == rs';
    PutKeepsOthers(rs, rs', resp.name);
  }

  /** Two dictionaries that agree on every entry except `name`'s and have the same other keys agree on lookups. */
  lemma {:induction false} PutKeepsOthers(rs: seq<AgentResponse>, rs': seq<AgentResponse>, name: string)
    requires |rs| <= |rs'|
    requires forall j :: 0 <= j < |rs| && rs[j].name != name ==> rs'[j] == rs[j]
    requires forall j :: 0 <= j < |rs| && rs[j].name == name ==> rs'[j].name == name
    requires forall j :: |rs| <= j < |rs'| ==> rs'[j].name == name
    ensures forall n :: n != name ==> Lookup(rs', n) == Lookup(rs, n)
  {
    forall n | n != name
      ensures Lookup(rs', n) == Lookup(rs, n)
    {
      var i := IndexOf(rs, n);
      if i == -1 {
        assert forall j :: 0 <= j < |rs'| ==> rs'[j].name != n by {
          forall j | 0 <= j < |rs'| ensures rs'[j].name != n {
            if j < |rs| {
              assert ResponseNames(rs)[j] == rs[j].name;
            }
          }
        }
        IndexOfIs(rs', n, -1);
      } else {
        forall j | 0 <= j < i ensures rs'[j].name != n {
          assert rs[j].name != n;
        }
        IndexOfIs(rs', n, i);
      }
    }
  }

  /**
   * `set_consolidated_score`. The quality level is left as it was: only `__post_init__`
   * derives it.
   */
  function SetConsolidatedScore(r: AnalysisResult, total: int, individual: seq<(string, real)>,
                                weightedAvg: real, finalScore: real, reasoning: string): (r': AnalysisResult)
    ensures r'.consolidated.Some?
    ensures var c := r'.consolidated.value;
      && c.score == finalScore && c.weightedAverage == weightedAvg && c.contributors == total
      && c.status == Success
      && (|individual| == 0 <==> c.range.NotAvailable?)
      && (c.range.Range? ==>
            (forall i :: 0 <= i < |individual| ==> c.range.lo <= individual[i].1 <= c.range.hi)
            && (exists i :: 0 <= i < |individual| && individual[i].1 == c.range.lo)
            && (exists i :: 0 <= i < |individual| && individual[i].1 == c.range.hi))
      && (|individual| > 1 ==> c.halfSpread == (c.range.hi - c.range.lo) / 2.0)
      && (|individual| <= 1 ==> c.halfSpread == 0.0)
      && c.halfSpread >= 0.0
    ensures r'.qualityLevel == r.qualityLevel && r'.responses == r.responses
  {
    var values := seq(|individual|, i requires 0 <= i < |individual| => individual[i].1);
    var range := if |values| == 0 then NotAvailable else Range(MinOf(values), MaxOf(values));
    var half := if |values| > 1 then (MaxOf(values) - MinOf(values)) / 2.0 else 0.0;
    assert forall i :: 0 <= i < |individual| ==> individual[i].1 == values[i];
    assert range.Range? ==> (exists i :: 0 <= i < |individual| && individual[i].1 == range.lo) by {
      if range.Range? {
        var i :| 0 <= i < |values| && values[i] == range.lo;
      }
    }
    assert range.Range? ==> (exists i :: 0 <= i < |individual| && individual[i].1 == range.hi) by {
      if range.Range? {
        var i :| 0 <= i < |values| && values[i] == range.hi;
      }
    }
    r.(consolidated := Some(ConsolidatedScore(total, individual, weightedAvg, finalScore, range, half, Success, reasoning)))
  }
}
