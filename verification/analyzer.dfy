/**
 * `MultiAgentAnalyzer.analyze_tweet` (`domain/services/multi_agent_analyzer.py`): ten independent
 * agents, then the score consolidator and the validator in that order, with every failure turned
 * into a placeholder response, and finally the weighted consolidated score.
 *
 * The LLM call, `asyncio.gather` and `asyncio.wait_for` are replaced by outcomes given as
 * parameters: one `Task` per independent agent, a flag for the five-minute timeout on the whole
 * batch, and a function giving the outcome of each dependent agent from the responses it is shown.
 */
module Analyzer {
  import opened Wrappers
  import opened Values
  import opened Agents
  import opened AnalysisResults
  import opened Weighting
  import JsonParsing
  import Text

  /** How one call to the LLM ends once `wait_for` is done with it. */
  datatype CallOutcome = Replied(text: string) | TimedOut | Errored(message: string)

  /** What `_execute_agent_with_metadata` returns. */
  datatype Execution = Execution(response: Record, executionTime: real, status: string)

  /** The placeholder record for an agent that timed out. */
  const TimeoutRecord: Record := map["error" := VStr("timeout"), "agent_score" := VReal(5.0)]

  /** The placeholder record for an agent that failed with `message`. */
  function ErrorRecord(message: string): (r: Record)
    ensures r.Keys == {"error", "agent_score"} && r["agent_score"] == VReal(5.0)
  {
    map["error" := VStr(message), "agent_score" := VReal(5.0)]
  }

  const TimeoutMessage: string := "Agent execution timed out"

  /**
   * `_execute_agent_with_metadata`: never raises. A reply is parsed; a timeout or an error
   * becomes a placeholder scoring 5.0 that carries the reason.
   */
  function ExecuteWithMetadata(name: string, outcome: CallOutcome, elapsed: real,
                               decode: string -> Option<Record>): (e: Execution)
    ensures e.executionTime == elapsed
    ensures e.status == "success" <==> outcome.Replied?
    ensures outcome.Replied? ==> e.response == JsonParsing.ParseJsonSafe(outcome.text, name, decode)
    ensures !outcome.Replied? ==> "agent_score" in e.response && e.response["agent_score"] == VReal(5.0) && "error" in e.response
    ensures outcome.TimedOut? ==> e.response["error"] == VStr("timeout") && e.status == "timeout"
    ensures outcome.Errored? ==> e.response["error"] == VStr(outcome.message) && e.status == "error"
  {
    match outcome
    case Replied(text) => Execution(JsonParsing.ParseJsonSafe(text, name, decode), elapsed, "success")
    case TimedOut => Execution(TimeoutRecord, elapsed, "timeout")
    case Errored(message) => Execution(ErrorRecord(message), elapsed, "error")
  }

  /**
   * One entry of `asyncio.gather(..., return_exceptions=True)`: the coroutine's value, or the
   * exception it raised.
   */
  datatype Task = Finished(outcome: CallOutcome, elapsed: real) | Crashed(message: string)

  /**
   * The analysis under construction together with the local `agent_responses` dictionary that
   * the dependent agents are shown and the consolidated score is computed from.
   */
  datatype Progress = Progress(result: AnalysisResult, local: map<string, Record>)

  /** The local dictionary and the result's response map have the same keys, each once. */
  ghost predicate Consistent(p: Progress)
  {
    && DistinctNames(p.result.responses)
    && forall n :: n in p.local <==> n in ResponseNames(p.result.responses)
  }

  /** The two analyses differ at most in their response maps. */
  predicate OnlyResponsesChange(a: AnalysisResult, b: AnalysisResult)
  {
    b == a.(responses := b.responses)
  }

  /** Record `data` for `name` in both dictionaries. */
  function Store(p: Progress, name: string, data: Record, executionTime: real, status: Status,
                 error: Option<string>): (p': Progress)
    ensures Consistent(p) ==> Consistent(p')
    ensures p'.local == p.local[name := data]
    ensures ResponseNames(p'.result.responses) ==
      if name in ResponseNames(p.result.responses) then ResponseNames(p.result.responses)
      else ResponseNames(p.result.responses) + [name]
    ensures Lookup(p'.result.responses, name).value.status == status
    ensures OnlyResponsesChange(p.result, p'.result)
  {
    Progress(AddResponse(p.result, name, data, executionTime, status, error), p.local[name := data])
  }

  /** Recording one agent leaves every other agent's response as it was. */
  lemma {:induction false} StoreOthers(p: Progress, name: string, data: Record, executionTime: real, status: Status,
                                       error: Option<string>, other: string)
    requires other != name
    ensures Lookup(Store(p, name, data, executionTime, status, error).result.responses, other) == Lookup(p.result.responses, other)
  {
    AddResponseOthers(p.result, name, data, executionTime, status, error, other);
  }

  /** A dictionary's keys after an assignment to `name`: a new key goes last, a known one stays put. */
  function AddName(names: seq<string>, name: string): seq<string>
  {
    if name in names then names else names + [name]
  }

  lemma {:induction false} NamesConcat(a: seq<Agent>, b: seq<Agent>)
    ensures Names(a + b) == Names(a) + Names(b)
  {
    var l, r := Names(a + b), Names(a) + Names(b);
    forall i | 0 <= i < |l| ensures l[i] == r[i] {
      if i < |a| {
        assert (a + b)[i] == a[i];
      } else {
        assert (a + b)[i] == b[i - |a|];
      }
    }
  }

  lemma {:induction false} DependentNames()
    ensures Names(Dependent) == [ScoreConsolidator.Name(), Validator.Name()]
  {
    assert Names(Dependent)[0] == ScoreConsolidator.Name();
  }

  /** No two of the agents are the same. */
  predicate DistinctAgents(agents: seq<Agent>)
  {
    forall i, j :: 0 <= i < j < |agents| ==> agents[i] != agents[j]
  }

  /** No two of the names are the same. */
  predicate DistinctStrings(names: seq<string>)
  {
    forall i, j :: 0 <= i < j < |names| ==> names[i] != names[j]
  }

  /** Distinct names followed by two more: the front is distinct and holds neither of the two. */
  lemma {:induction false} DistinctSplit(names: seq<string>, c: string, v: string)
    requires DistinctStrings(names + [c, v])
    ensures DistinctStrings(names) && c !in names && v !in names && c != v
  {
    var all := names + [c, v];
    assert forall i :: 0 <= i < |names| ==> all[i] == names[i];
    assert all[|names|] == c && all[|names| + 1] == v;
  }

  /** Distinct agents have distinct names. */
  lemma {:induction false} DistinctAgentNames(agents: seq<Agent>)
    requires DistinctAgents(agents)
    ensures DistinctStrings(Names(agents))
  {
    forall i, j | 0 <= i < j < |agents| ensures Names(agents)[i] != Names(agents)[j] {
      NamesDistinct(agents[i], agents[j]);
    }
  }

  /** The names are distinct and none has a response yet. */
  ghost predicate FreshFor(p: Progress, names: seq<string>)
  {
    && DistinctStrings(names)
    && forall i :: 0 <= i < |names| ==> names[i] !in ResponseNames(p.result.responses)
  }

  /** Freshness passes to the names before the last, and the last is not among them. */
  lemma {:induction false} FreshForPrefix(p: Progress, names: seq<string>)
    requires |names| > 0
    ensures var n := |names| - 1;
      FreshFor(p, names) ==> FreshFor(p, names[..n]) && names[n] !in names[..n]
  {
  }

  /** What one agent's entry in the analysis holds besides its name. */
  datatype Recorded = Recorded(data: Record, executionTime: real, status: Status, error: Option<string>)

  /**
   * The entry one gathered result of phase 1 leaves: a raised exception becomes a FAILED
   * placeholder scoring 5.0 that keeps the message; a returned result is recorded as SUCCESS.
   */
  function TaskRecord(name: string, task: Task, decode: string -> Option<Record>): (e: Recorded)
    ensures task.Crashed? ==> e.data == ErrorRecord(task.message) && e.status == Failed && e.error == Some(task.message)
    ensures task.Finished? ==>
      e.status == Success && e.error.None? && e.data == ExecuteWithMetadata(name, task.outcome, task.elapsed, decode).response
  {
    match task
    case Crashed(message) => Recorded(ErrorRecord(message), 0.0, Failed, Some(message))
    case Finished(outcome, elapsed) =>
      var x := ExecuteWithMetadata(name, outcome, elapsed, decode);
      Recorded(x.response, x.executionTime, Success, None)
  }

  /** Processing one gathered result of phase 1. */
  function GatherStep(p: Progress, name: string, task: Task, decode: string -> Option<Record>): (p': Progress)
    ensures Consistent(p) ==> Consistent(p')
    ensures p'.local.Keys == p.local.Keys + {name}
    ensures ResponseNames(p'.result.responses) ==
      if name in ResponseNames(p.result.responses) then ResponseNames(p.result.responses)
      else ResponseNames(p.result.responses) + [name]
  {
    var e := TaskRecord(name, task, decode);
    Store(p, name, e.data, e.executionTime, e.status, e.error)
  }

  /** A gathered exception leaves a FAILED entry holding the error record; a finished call a SUCCESS one. */
  lemma {:induction false} GatherStepOutcome(p: Progress, name: string, task: Task, decode: string -> Option<Record>)
    ensures var p' := GatherStep(p, name, task, decode);
      task.Crashed? ==> p'.local[name] == ErrorRecord(task.message) && Lookup(p'.result.responses, name).value.status == Failed
    ensures var p' := GatherStep(p, name, task, decode);
      task.Finished? ==> Lookup(p'.result.responses, name).value.status == Success
  {
  }

  /** The loop over `parallel_results`, in the order of `independent_agents`. */
  function Gather(p: Progress, names: seq<string>, tasks: seq<Task>, decode: string -> Option<Record>): (p': Progress)
    requires |names| == |tasks|
    ensures Consistent(p) ==> Consistent(p')
    ensures forall n :: n in p'.local <==> n in p.local || n in names
    ensures OnlyResponsesChange(p.result, p'.result)
    decreases |names|
  {
    if |names| == 0 then p
    else
      var n := |names| - 1;
      assert names == names[..n] + [names[n]];
      GatherStep(Gather(p, names[..n], tasks[..n], decode), names[n], tasks[n], decode)
  }

  /** From a fresh start, the gather loop appends each name once, in order. */
  lemma {:induction false} GatherNames(p: Progress, names: seq<string>, tasks: seq<Task>, decode: string -> Option<Record>)
    requires |names| == |tasks|
    requires FreshFor(p, names)
    ensures ResponseNames(Gather(p, names, tasks, decode).result.responses) == ResponseNames(p.result.responses) + names
    decreases |names|
  {
    if |names| > 0 {
      var n := |names| - 1;
      FreshForPrefix(p, names);
      GatherNames(p, names[..n], tasks[..n], decode);
      var q := Gather(p, names[..n], tasks[..n], decode);
      var rp, rq := ResponseNames(p.result.responses), ResponseNames(q.result.responses);
      assert names[n] !in rp && names[n] !in names[..n];
      AppendFresh(rp, names, rq);
      assert Gather(p, names, tasks, decode) == GatherStep(q, names[n], tasks[n], decode);
    }
  }

  /** Appending the last name to the names before it, when it is new, gives all the names. */
  lemma {:induction false} AppendFresh(rp: seq<string>, names: seq<string>, rq: seq<string>)
    requires |names| > 0 && rq == rp + names[..|names| - 1]
    requires names[|names| - 1] !in rp && names[|names| - 1] !in names[..|names| - 1]
    ensures names[|names| - 1] !in rq
    ensures rq + [names[|names| - 1]] == rp + names
  {
    assert names == names[..|names| - 1] + [names[|names| - 1]];
  }

  /**
   * The `asyncio.TimeoutError` handler of phase 1: every agent without a local response gets the
   * timeout placeholder; agents that already have one keep it.
   */
  function FillTimeouts(p: Progress, names: seq<string>): (p': Progress)
    ensures Consistent(p) ==> Consistent(p')
    ensures forall n :: n in p'.local <==> n in p.local || n in names
    ensures forall n :: n in p.local ==> n in p'.local && p'.local[n] == p.local[n]
    ensures forall n :: n in p'.local && n !in p.local ==> p'.local[n] == TimeoutRecord
    ensures OnlyResponsesChange(p.result, p'.result)
    decreases |names|
  {
    if |names| == 0 then p
    else
      var n := |names| - 1;
      assert names == names[..n] + [names[n]];
      TimeoutStep(FillTimeouts(p, names[..n]), names[n])
  }

  /** The timeout handler for one agent: the placeholder unless a response is already there. */
  function TimeoutStep(p: Progress, name: string): (p': Progress)
    ensures Consistent(p) ==> Consistent(p')
    ensures p'.local.Keys == p.local.Keys + {name}
    ensures forall n :: n in p.local ==> p'.local[n] == p.local[n]
    ensures name !in p.local ==> p'.local[name] == TimeoutRecord
    ensures OnlyResponsesChange(p.result, p'.result)
  {
    if name in p.local then p
    else Store(p, name, TimeoutRecord, 0.0, Failed, Some(TimeoutMessage))
  }

  /** From a consistent start, the timeout handler adds each fresh name once, in order. */
  lemma {:induction false} FillTimeoutsNames(p: Progress, names: seq<string>)
    requires Consistent(p) && FreshFor(p, names)
    ensures ResponseNames(FillTimeouts(p, names).result.responses) == ResponseNames(p.result.responses) + names
    decreases |names|
  {
    if |names| > 0 {
      var n := |names| - 1;
      FreshForPrefix(p, names);
      FillTimeoutsNames(p, names[..n]);
      var q := FillTimeouts(p, names[..n]);
      var rp, rq := ResponseNames(p.result.responses), ResponseNames(q.result.responses);
      assert names[n] !in rp && names[n] !in names[..n];
      AppendFresh(rp, names, rq);
      assert names[n] !in q.local;
      assert FillTimeouts(p, names) == TimeoutStep(q, names[n]) == Store(q, names[n], TimeoutRecord, 0.0, Failed, Some(TimeoutMessage));
    }
  }

  /**
   * Phase 1: the independent agents. When the whole batch times out, no result has been
   * processed yet and every agent gets the timeout placeholder.
   */
  function PhaseOne(p: Progress, names: seq<string>, tasks: seq<Task>, batchTimedOut: bool,
                    decode: string -> Option<Record>): (p': Progress)
    requires |tasks| == |names|
    ensures Consistent(p) ==> Consistent(p')
    ensures forall n :: n in p'.local <==> n in p.local || n in names
    ensures OnlyResponsesChange(p.result, p'.result)
  {
    if batchTimedOut then FillTimeouts(p, names) else Gather(p, names, tasks, decode)
  }

  /** From a consistent start, phase 1 adds each fresh name once, in order. */
  lemma {:induction false} PhaseOneNames(p: Progress, names: seq<string>, tasks: seq<Task>, batchTimedOut: bool,
                      decode: string -> Option<Record>)
    requires |tasks| == |names|
    requires Consistent(p) && FreshFor(p, names)
    ensures ResponseNames(PhaseOne(p, names, tasks, batchTimedOut, decode).result.responses)
      == ResponseNames(p.result.responses) + names
  {
    if batchTimedOut {
      FillTimeoutsNames(p, names);
    } else {
      GatherNames(p, names, tasks, decode);
    }
  }

  /**
   * The entry a dependent agent leaves when its call does not raise: the parsed reply, or the
   * timeout placeholder after the 60-second limit.
   */
  function DependentRecord(name: string, outcome: CallOutcome, elapsed: real, decode: string -> Option<Record>): (e: Recorded)
    ensures e.status == Success <==> outcome.Replied?
    ensures outcome.TimedOut? ==> e.data == TimeoutRecord && e.executionTime == 60.0 && e.error == Some(TimeoutMessage)
  {
    match outcome
    case Replied(text) => Recorded(JsonParsing.ParseJsonSafe(text, name, decode), elapsed, Success, None)
    case TimedOut => Recorded(TimeoutRecord, 60.0, Failed, Some(TimeoutMessage))
    case Errored(message) => Recorded(ErrorRecord(message), 0.0, Failed, Some(message))
  }

  /** One dependent agent of phase 2, given how its call ended and how long it took. */
  function DependentStep(p: Progress, name: string, outcome: CallOutcome, elapsed: real,
                         decode: string -> Option<Record>): (p': Progress)
    ensures Consistent(p) ==> Consistent(p')
    ensures name in p'.local && p'.local == p.local[name := p'.local[name]]
    ensures ResponseNames(p'.result.responses) ==
      if name in ResponseNames(p.result.responses) then ResponseNames(p.result.responses)
      else ResponseNames(p.result.responses) + [name]
    ensures OnlyResponsesChange(p.result, p'.result)
  {
    if outcome.Errored? then DependentError(p, name, outcome.message)
    else
      var e := DependentRecord(name, outcome, elapsed, decode);
      Store(p, name, e.data, e.executionTime, e.status, e.error)
  }

  /**
   * A dependent agent's entry is SUCCESS exactly when the model replied in time; a timeout keeps
   * the timeout placeholder and an error the error placeholder.
   */
  lemma {:induction false} DependentStepOutcome(p: Progress, name: string, outcome: CallOutcome, elapsed: real,
                                                decode: string -> Option<Record>)
    ensures var p' := DependentStep(p, name, outcome, elapsed, decode);
      outcome.Replied? <==> Lookup(p'.result.responses, name).value.status == Success
    ensures outcome.TimedOut? ==> DependentStep(p, name, outcome, elapsed, decode).local[name] == TimeoutRecord
    ensures outcome.Errored? ==> DependentStep(p, name, outcome, elapsed, decode).local[name] == ErrorRecord(outcome.message)
  {
  }

  /** The `except Exception` branch of phase 2, which adds the agent's response twice. */
  function DependentError(p: Progress, name: string, message: string): (p': Progress)
    ensures Consistent(p) ==> Consistent(p')
    ensures p'.local == p.local[name := ErrorRecord(message)]
    ensures ResponseNames(p'.result.responses) ==
      if name in ResponseNames(p.result.responses) then ResponseNames(p.result.responses)
      else ResponseNames(p.result.responses) + [name]
    ensures OnlyResponsesChange(p.result, p'.result)
    ensures Lookup(p'.result.responses, name) ==
      Some(AgentResponse(name, map["error" := VStr(message)], VReal(5.0), 0.0, Failed, Some(message)))
  {
    var q := Store(p, name, ErrorRecord(message), 0.0, Failed, Some(message));
    var q' := Store(q, name, map["error" := VStr(message)], 0.0, Failed, Some(message));
    assert Get(map["error" := VStr(message)], "agent_score", VReal(5.0)) == VReal(5.0);
    Progress(q'.result, q.local)
  }

  /** What the dependent agents are shown: the local dictionary at the moment each one runs. */
  datatype PhaseTwo = PhaseTwo(progress: Progress, consolidatorView: map<string, Record>,
                               validatorView: map<string, Record>)

  /**
   * Phase 2: the score consolidator and then the validator, each shown every response gathered
   * so far; `call(name, view)` says how the call for `name` ends and how long it takes.
   */
  function RunPhaseTwo(p: Progress, call: (string, map<string, Record>) -> (CallOutcome, real),
                       decode: string -> Option<Record>): (r: PhaseTwo)
    ensures Consistent(p) ==> Consistent(r.progress)
    ensures r.consolidatorView == p.local
    ensures OnlyResponsesChange(p.result, r.progress.result)
    ensures ResponseNames(r.progress.result.responses) ==
      AddName(AddName(ResponseNames(p.result.responses), ScoreConsolidator.Name()), Validator.Name())
  {
    var (o1, t1) := call(ScoreConsolidator.Name(), p.local);
    var q := DependentStep(p, ScoreConsolidator.Name(), o1, t1, decode);
    var (o2, t2) := call(Validator.Name(), q.local);
    PhaseTwo(DependentStep(q, Validator.Name(), o2, t2, decode), p.local, q.local)
  }

  /**
   * The validator is shown every earlier response plus the consolidator's, and afterwards the
   * local dictionary holds exactly the earlier names and the two dependent agents.
   */
  lemma {:induction false} PhaseTwoViews(p: Progress, call: (string, map<string, Record>) -> (CallOutcome, real),
                                         decode: string -> Option<Record>)
    ensures var r := RunPhaseTwo(p, call, decode);
      forall n :: n in r.validatorView <==> n in p.local || n == ScoreConsolidator.Name()
    ensures var r := RunPhaseTwo(p, call, decode);
      forall n :: n in p.local && n != ScoreConsolidator.Name() ==> r.validatorView[n] == p.local[n]
    ensures var r := RunPhaseTwo(p, call, decode);
      forall n :: n in r.progress.local <==> n in p.local || n == ScoreConsolidator.Name() || n == Validator.Name()
  {
    var (o1, t1) := call(ScoreConsolidator.Name(), p.local);
    var q := DependentStep(p, ScoreConsolidator.Name(), o1, t1, decode);
    var (o2, t2) := call(Validator.Name(), q.local);
    var q' := DependentStep(q, Validator.Name(), o2, t2, decode);
    assert RunPhaseTwo(p, call, decode) == PhaseTwo(q', p.local, q.local);
  }

  /** Phase 2 adds the two dependent agents, in order, when neither has answered yet. */
  lemma {:induction false} PhaseTwoNames(p: Progress, call: (string, map<string, Record>) -> (CallOutcome, real),
                      decode: string -> Option<Record>)
    requires ScoreConsolidator.Name() !in ResponseNames(p.result.responses)
    requires Validator.Name() !in ResponseNames(p.result.responses)
    ensures ResponseNames(RunPhaseTwo(p, call, decode).progress.result.responses)
      == ResponseNames(p.result.responses) + [ScoreConsolidator.Name(), Validator.Name()]
  {
    var names := ResponseNames(p.result.responses);
    assert AddName(names, ScoreConsolidator.Name()) == names + [ScoreConsolidator.Name()];
    assert Validator.Name() !in names + [ScoreConsolidator.Name()];
    assert names + [ScoreConsolidator.Name()] + [Validator.Name()] == names + [ScoreConsolidator.Name(), Validator.Name()];
  }

  /**
   * The score `_calculate_consolidated_score` reads from a response: `agent_score` unless missing
   * or null, else the first legacy field present (whatever it holds), else 5.0 for a null.
   */
  function ScoreField(response: Record): (v: Value)
    ensures v != VNone
    ensures Get(response, "agent_score", VNone) != VNone ==> v == response["agent_score"]
  {
    var s := Get(response, "agent_score", VNone);
    var s' := if s == VNone then FirstPresent(response, LegacyFields) else s;
    if s' == VNone then VReal(5.0) else s'
  }

  /** The value of the first of `fields` present in `response`, or `None` when none is. */
  function FirstPresent(response: Record, fields: seq<string>): (v: Value)
    ensures (forall i :: 0 <= i < |fields| ==> fields[i] !in response) ==> v == VNone
    ensures forall k :: (0 <= k < |fields| && fields[k] in response
      && forall j :: 0 <= j < k ==> fields[j] !in response) ==> v == response[fields[k]]
  {
    if |fields| == 0 then VNone
    else if fields[0] in response then response[fields[0]]
    else
      assert forall k :: 1 <= k < |fields| ==> fields[k] == fields[1..][k - 1];
      FirstPresent(response, fields[1..])
  }

  /**
   * The score an entry of the weight table contributes: present when the agent weighs something,
   * has responded, and its score converts to a float; `score` is how a score is read from a
   * response (`ConsolidationScore` in the program).
   */
  function EntryScore(entry: (Agent, real), local: map<string, Record>, score: Record -> Option<real>): Option<real>
  {
    if entry.1 > 0.0 && entry.0.Name() in local then score(local[entry.0.Name()]) else None
  }

  /** `float(score)` as the base analyzer reads it. */
  function ConsolidationScore(response: Record): Option<real>
  {
    ToFloat(ScoreField(response))
  }

  /** The entries of the loop over `agent_weights.items()` that are counted, in table order. */
  function Contributions(t: WeightTable, local: map<string, Record>, score: Record -> Option<real>): (cs: seq<Contribution>)
    ensures |cs| <= |t|
    ensures forall i :: 0 <= i < |cs| ==> cs[i].weight > 0.0
    decreases |t|
  {
    if |t| == 0 then []
    else
      var n := |t| - 1;
      var cs := Contributions(t[..n], local, score);
      match EntryScore(t[n], local, score)
      case Some(s) => cs + [Contribution(t[n].0.Name(), s, t[n].1)]
      case None => cs
  }

  /** Contribution `c` is what table entry `e` yields. */
  predicate EntryGives(e: (Agent, real), local: map<string, Record>, score: Record -> Option<real>, c: Contribution)
  {
    EntryScore(e, local, score) == Some(c.score) && c.name == e.0.Name() && c.weight == e.1
  }

  /** Every contribution is a table entry's readable score, under that agent's name and weight. */
  lemma {:induction false} ContributionsFromEntries(t: WeightTable, local: map<string, Record>, score: Record -> Option<real>)
    ensures forall i :: 0 <= i < |Contributions(t, local, score)| ==>
      exists k :: 0 <= k < |t| && EntryGives(t[k], local, score, Contributions(t, local, score)[i])
    decreases |t|
  {
    if |t| > 0 {
      var n := |t| - 1;
      var front := t[..n];
      ContributionsFromEntries(front, local, score);
      forall i | 0 <= i < |Contributions(t, local, score)|
        ensures exists k :: 0 <= k < |t| && EntryGives(t[k], local, score, Contributions(t, local, score)[i])
      {
        if i < |Contributions(front, local, score)| {
          assert Contributions(t, local, score)[i] == Contributions(front, local, score)[i];
          var k :| 0 <= k < |front| && EntryGives(front[k], local, score, Contributions(front, local, score)[i]);
          assert front[k] == t[k];
        } else {
          assert EntryGives(t[n], local, score, Contributions(t, local, score)[i]);
        }
      }
    } else {
      assert Contributions(t, local, score) == [];
    }
  }

  /** There is a contribution exactly when some table entry has a readable score. */
  lemma {:induction false} ContributionsNonEmpty(t: WeightTable, local: map<string, Record>, score: Record -> Option<real>)
    ensures |Contributions(t, local, score)| > 0 <==> exists k :: 0 <= k < |t| && EntryScore(t[k], local, score).Some?
    decreases |t|
  {
    if |t| > 0 {
      var n := |t| - 1;
      ContributionsNonEmpty(t[..n], local, score);
      assert forall k :: 0 <= k < n ==> t[..n][k] == t[k];
    }
  }

  /** The reasoning recorded when no score could be used. */
  const NoScoresReasoning: string := "No valid agent scores found. Using default score of 5.0."

  /**
   * `_calculate_consolidated_score`: the weighted average of the usable scores, or 5.0 with no
   * contributors when none is usable.
   */
  function CalculateConsolidated(r: AnalysisResult, local: map<string, Record>, weights: WeightTable): (r': AnalysisResult)
    ensures r'.consolidated.Some? && r'.responses == r.responses
    ensures var cs := Contributions(weights, local, ConsolidationScore);
      var c := r'.consolidated.value;
      && c.individual == Individual(cs)
      && c.contributors == |cs|
      && (|cs| == 0 ==> c.score == 5.0 && c.weightedAverage == 5.0 && c.reasoning == NoScoresReasoning)
      && (|cs| > 0 ==> c.score == WeightedSum(cs) / TotalWeight(cs) && c.weightedAverage == c.score)
  {
    var cs := Contributions(weights, local, ConsolidationScore);
    var total := TotalWeight(cs);
    if total > 0.0 then
      var avg := WeightedSum(cs) / total;
      SetConsolidatedScore(r, |cs|, Individual(cs), avg, avg, "Consolidated score calculated from the weighted agent scores.")
    else
      SetConsolidatedScore(r, 0, [], 5.0, 5.0, NoScoresReasoning)
  }

  /**
   * The consolidated score is a weighted average: when every usable score lies in `[lo, hi]`, so
   * does the consolidated score, and it is 5.0 when no score is usable.
   */
  lemma {:induction false} ConsolidatedWithinScores(r: AnalysisResult, local: map<string, Record>, weights: WeightTable, lo: real, hi: real)
    requires forall k :: 0 <= k < |weights| && EntryScore(weights[k], local, ConsolidationScore).Some? ==>
      lo <= EntryScore(weights[k], local, ConsolidationScore).value <= hi
    ensures (exists k :: 0 <= k < |weights| && EntryScore(weights[k], local, ConsolidationScore).Some?) ==>
      lo <= CalculateConsolidated(r, local, weights).consolidated.value.score <= hi
    ensures (forall k :: 0 <= k < |weights| ==> EntryScore(weights[k], local, ConsolidationScore).None?) ==>
      CalculateConsolidated(r, local, weights).consolidated.value.score == 5.0
  {
    var cs := Contributions(weights, local, ConsolidationScore);
    ContributionsNonEmpty(weights, local, ConsolidationScore);
    if |cs| > 0 {
      ContributionsWithin(weights, local, ConsolidationScore, lo, hi);
      AverageWithin(cs, lo, hi);
    }
  }

  lemma {:induction false} ContributionsWithin(t: WeightTable, local: map<string, Record>, score: Record -> Option<real>, lo: real, hi: real)
    requires forall k :: 0 <= k < |t| && EntryScore(t[k], local, score).Some? ==>
      lo <= EntryScore(t[k], local, score).value <= hi
    ensures var cs := Contributions(t, local, score);
      forall i :: 0 <= i < |cs| ==> cs[i].weight > 0.0 && lo <= cs[i].score <= hi
  {
    var cs := Contributions(t, local, score);
    ContributionsFromEntries(t, local, score);
    forall i | 0 <= i < |cs| ensures lo <= cs[i].score <= hi {
      var k :| 0 <= k < |t| && EntryGives(t[k], local, score, cs[i]);
    }
  }

  /** The independent agents: `agent_sequence[:10]`. */
  function Independent(sequence: seq<Agent>): (r: seq<Agent>)
    ensures r <= sequence && |r| <= 10
  {
    Text.Truncate(sequence, 10)
  }

  /** The dependent agents, in the order they run. */
  const Dependent: seq<Agent> := [ScoreConsolidator, Validator]

  /**
   * `analyze_tweet` with `self.agent_sequence == sequence` and `self.agent_weights == weights`:
   * phase 1, phase 2, the consolidated score, and the overall status set to SUCCESS.
   * `convert_enums_to_strings` leaves the result object as it is.
   */
  function AnalyzeTweet(contentId: string, runId: string, now: int, sequence: seq<Agent>, weights: WeightTable,
                        tasks: seq<Task>, batchTimedOut: bool,
                        call: (string, map<string, Record>) -> (CallOutcome, real),
                        decode: string -> Option<Record>): (r: AnalysisResult)
    requires |tasks| == |Independent(sequence)|
    ensures r.overallStatus == Success && r.consolidated.Some?
    ensures r.contentId == contentId && r.runId == runId && r.timestamp == now
    ensures r.responses == Pipeline(contentId, runId, now, sequence, tasks, batchTimedOut, call, decode).result.responses
  {
    var p := Pipeline(contentId, runId, now, sequence, tasks, batchTimedOut, call, decode);
    CalculateConsolidated(p.result, p.local, weights).(overallStatus := Success)
  }

  /** The two phases, from an empty analysis. */
  function Pipeline(contentId: string, runId: string, now: int, sequence: seq<Agent>, tasks: seq<Task>,
                    batchTimedOut: bool, call: (string, map<string, Record>) -> (CallOutcome, real),
                    decode: string -> Option<Record>): (p: Progress)
    requires |tasks| == |Independent(sequence)|
    ensures p.result.contentId == contentId && p.result.runId == runId && p.result.timestamp == now
    ensures Consistent(p)
  {
    var independent := Independent(sequence);
    var p0 := Progress(NewResult(contentId, runId, now, None), map[]);
    assert Consistent(p0);
    var p1 := PhaseOne(p0, Names(independent), tasks, batchTimedOut, decode);
    assert Consistent(p1) && p1.result.contentId == contentId;
    RunPhaseTwo(p1, call, decode).progress
  }

  /**
   * With distinct agents, the analysis holds one response per agent, in the order the agents were
   * scheduled: the independent agents, then the score consolidator, then the validator.
   */
  lemma {:induction false} AnalyzeTweetNames(contentId: string, runId: string, now: int, sequence: seq<Agent>, weights: WeightTable,
                          tasks: seq<Task>, batchTimedOut: bool,
                          call: (string, map<string, Record>) -> (CallOutcome, real),
                          decode: string -> Option<Record>)
    requires |tasks| == |Independent(sequence)|
    requires DistinctAgents(Independent(sequence) + Dependent)
    ensures ResponseNames(AnalyzeTweet(contentId, runId, now, sequence, weights, tasks, batchTimedOut, call, decode).responses)
      == Names(Independent(sequence) + Dependent)
  {
    var p0 := Progress(NewResult(contentId, runId, now, None), map[]);
    PipelineNames(p0, Independent(sequence), tasks, batchTimedOut, call, decode);
  }

  lemma {:induction false} PipelineNames(p0: Progress, independent: seq<Agent>, tasks: seq<Task>, batchTimedOut: bool,
                                         call: (string, map<string, Record>) -> (CallOutcome, real),
                                         decode: string -> Option<Record>)
    requires |tasks| == |independent|
    requires p0.result.responses == [] && p0.local == map[]
    requires DistinctAgents(independent + Dependent)
    ensures var p1 := PhaseOne(p0, Names(independent), tasks, batchTimedOut, decode);
      ResponseNames(RunPhaseTwo(p1, call, decode).progress.result.responses) == Names(independent + Dependent)
  {
    var names := Names(independent);
    var c, v := ScoreConsolidator.Name(), Validator.Name();
    DistinctAgentNames(independent + Dependent);
    NamesConcat(independent, Dependent);
    DependentNames();
    DistinctSplit(names, c, v);
    assert FreshFor(p0, names);
    PhaseOneNames(p0, names, tasks, batchTimedOut, decode);
    var p1 := PhaseOne(p0, names, tasks, batchTimedOut, decode);
    assert ResponseNames(p1.result.responses) == names;
    PhaseTwoNames(p1, call, decode);
  }
}
