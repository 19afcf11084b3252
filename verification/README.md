# Scoring pipeline of the tweet news classifier, in Dafny

This project models the scoring core of a multi-agent tweet classifier. A tweet passes through ten
independent analysis agents. Two dependent agents follow: the score consolidator, then the validator.
Their replies are parsed into records and combined into a weighted consolidated score. Five
signal-integrity agents check the tweet:

- the sarcasm sentinel;
- the echo mapper;
- the slop filter;
- the banned-phrase skeptic;
- the latency guard.

They adjust the consolidated score, raise quality flags and decide when a human must review the
result. A shared memory store keeps per-author and per-topic statistics under keys
`<namespace>:<entity>`. A batch driver runs many tweets with bounded retries. The command-line
entry point finally grades the score and decides on escalation.

## Modelling choices

- Scores are Dafny `real`s, so arithmetic is exact. `round(x, n)` is round-half-to-even on the exact
  decimal value (`Rounding.Round`).
- Dictionaries are `Values.Value` trees. The memory store is a sequence of `(key, entry)` pairs in
  insertion order, with one typed record shape per namespace.
- Everything the program gets from outside is a parameter:
  - language-model calls, JSON decoding, regular-expression matches, web and exchange lookups;
  - the outcome of each concurrent task;
  - the clock, in whole seconds.
- Exceptions that the program catches are `Raised` results. Each operation's `except` branch is
  modelled as the value that branch returns.

The model follows the code where the specification and the code disagree. In particular:

- The enhanced consolidator's sarcasm adjustment is `min(2.0, 3 * (0.8 - p))`. This is negative for
  a sarcasm probability `p` above 0.8, where the specification describes a non-negative boost.

Where the code is evidently wrong, the model states the program as written and the corrected
behaviour side by side (see "## Findings"), and the rest of the model uses the corrected one:

- The enhanced consolidator and the enhanced analyzer's score adjustment call `.get` on the
  `AgentResponse` records the analysis result stores, which have no such method. As written, the enhanced consolidator falls back to its error result for any
  analysis holding a response (`Consolidation.ConsolidateScoresAsWritten`), and the enhanced
  analyzer never adjusts a stored score (`Enhanced.ApplyEnhancedAsWritten`).
  `Consolidation.ConsolidateScores` and `Enhanced.ApplyEnhancedAdjustments` read each record's
  status and data, as intended.
- The latency guard compares a change in percent with a threshold written as a fraction.
  `LatencyGuard.Analyze` takes the rule as a parameter: `AsWritten` is the program, `Intended`
  converts the threshold to percent.
- The echo mapper's synonym table has a key that its upper-cased lookup never matches.
  `EchoMapper.Analyze` takes the table as a parameter: `ExpansionsAsWritten` is the program's table,
  `Expansions` the corrected one.

## Model

| member | source | states |
|---|---|---|
| Agents.NamesDistinct | domain/services/multi_agent_analyzer.py:74-87 | no two agents share a dictionary key, so each response-map entry belongs to exactly one agent |
| Agents.TraditionalAreTraditional | domain/services/multi_agent_analyzer.py:74-87 | the ten analysis agents are exactly the agents with a legacy score field, each paired with its own field |
| Agents.BaseWeightsShape | domain/services/multi_agent_analyzer.py:74-103 | the weight table lists the agents in execution-sequence order; a weight is positive exactly for the ten analysis agents, and both meta-agents weigh 0.0 |
| Agents.BaseWeightsSumToOne | domain/services/multi_agent_analyzer.py:74-87 | the positive base weights sum to exactly 1.00 |
| Agents.SumPositiveAppend | domain/services/orchestration/enhanced_multi_agent_analyzer.py:153 | the sum of positive weights over two concatenated tables is the sum of the two sums |
| Agents.ScalePositive | domain/services/orchestration/enhanced_multi_agent_analyzer.py:138-140 | scaling keeps every key and position; positive weights are multiplied by the factor and the others are left alone |
| Agents.SumPositiveScale | domain/services/orchestration/enhanced_multi_agent_analyzer.py:138-140 | scaling by a positive factor scales the sum of positive weights by that factor |
| Agents.SetWeight | domain/services/orchestration/enhanced_multi_agent_analyzer.py:144-150 | `dict.update` on one key keeps the other entries and their order, overwrites an existing key in place or appends a new one, and afterwards the key maps to the new weight |
| Agents.SetWeightKeys | domain/services/orchestration/enhanced_multi_agent_analyzer.py:144-150 | updating an existing key keeps the key order; a new key is appended at the end |
| Agents.UpdateAll | domain/services/orchestration/enhanced_multi_agent_analyzer.py:144-150 | the `dict.update` loop keeps every existing key at its position and adds at most one entry per update |
| Agents.UpdateAllAppends | domain/services/orchestration/enhanced_multi_agent_analyzer.py:144-150 | adding distinct new keys appends them in order |
| Agents.UpdateAllMapsLast | domain/services/orchestration/enhanced_multi_agent_analyzer.py:144-150 | after the update, the last written key maps to its new weight |
| Agents.UpdateAllKeeps | domain/services/orchestration/enhanced_multi_agent_analyzer.py:144-150 | entries whose key is not updated are unchanged |
| Agents.PositiveEntryBoundsSum | domain/services/orchestration/enhanced_multi_agent_analyzer.py:153 | every positive weight is at most the sum of the positive weights |
| Agents.AddSignalWeightsPositive | domain/services/orchestration/enhanced_multi_agent_analyzer.py:136-153 | after scaling and adding the signal agents, the positive total is at least 0.02, so the normalising division is defined |
| Agents.Normalise | domain/services/orchestration/enhanced_multi_agent_analyzer.py:152-158 | renormalising makes the positive weights sum to 1.0, keeps the keys in order and divides every positive weight by the old total |
| Agents.UpdateWeightsNormalises | domain/services/orchestration/enhanced_multi_agent_analyzer.py:133-158 | after `_update_agent_weights` the positive weights sum to 1.0, for any starting table |
| Agents.UpdateWeights | domain/services/orchestration/enhanced_multi_agent_analyzer.py:133-158 | `_update_agent_weights` keeps every existing key at its position and adds at most the five signal agents |
| Agents.UpdateWeightsKeepsProportions | domain/services/orchestration/enhanced_multi_agent_analyzer.py:133-158 | a non-signal agent keeps its key; a zero-weight agent stays at its weight, and a positive one ends at 0.85 times its weight divided by the new total |
| Agents.AddSignalWeightsKeeps | domain/services/orchestration/enhanced_multi_agent_analyzer.py:136-150 | adding the signal weights leaves every earlier non-signal entry as the 0.85 scaling left it |
| Agents.SignalWeightsSum | domain/services/orchestration/enhanced_multi_agent_analyzer.py:144-150 | the five signal weights sum to 0.15 and are listed in the fixed signal order |
| Agents.UpdateNormalisedTable | domain/services/orchestration/enhanced_multi_agent_analyzer.py:133-158 | from a table whose positive weights sum to 1 and that has no signal agents, scaling by 0.85 and adding 0.15 already sums to 1, so the result is the scaled table followed by the signal weights |
| Agents.SumScaledDown | domain/services/orchestration/enhanced_multi_agent_analyzer.py:136-140 | scaling by 0.85 scales the positive total by 0.85 |
| Agents.AddSignalWeightsAppends | domain/services/orchestration/enhanced_multi_agent_analyzer.py:144-150 | on a table without signal agents, the update appends the five signal entries after the scaled table |
| Agents.SumWithSignals | domain/services/orchestration/enhanced_multi_agent_analyzer.py:144-153 | appending the signal weights adds 0.15 to the positive total |
| Agents.EnhancedWeightsValues | domain/services/orchestration/enhanced_multi_agent_analyzer.py:133-158 | from the base table the enhanced table is the base table scaled by 0.85, followed by the five signal weights, with the keys in sequence order |
| Agents.SignalsNotInBase | domain/services/multi_agent_analyzer.py:74-87 | no signal agent appears in the base weight table |
| Agents.EnabledSignals | domain/services/orchestration/enhanced_multi_agent_analyzer.py:162-173 | a signal agent is listed iff its flag is enabled; at most five are listed, all signal agents |
| Agents.UpdateSequence | domain/services/orchestration/enhanced_multi_agent_analyzer.py:175-180 | the new sequence is the first ten agents, then the enabled signal agents, then score_consolidator and validator |
| Agents.EnhancedSequenceShape | domain/services/orchestration/enhanced_multi_agent_analyzer.py:160-180 | from the base sequence the result has length 12 plus the number of enabled signals: the ten analysis agents, the enabled signals in fixed order, then the two meta-agents |
| AnalysisResults.IndexOf | domain/entities/analysis_result.py:161-175 | the position of a name in the insertion-ordered response map: -1 iff the name is absent, otherwise its first position |
| AnalysisResults.Lookup | domain/entities/analysis_result.py:161-175 | a response is found iff its name is a key of the map, and the response found carries that name |
| AnalysisResults.QualityLevelOf | domain/entities/analysis_result.py:115-127 | EXCELLENT iff score >= 9, GOOD iff 7 <= score < 9, AVERAGE iff 5 <= score < 7, POOR iff 3 <= score < 5, VERY_POOR iff score < 3 |
| AnalysisResults.QualityLevelMonotone | domain/entities/analysis_result.py:115-127 | a higher consolidated score never gets a worse quality level |
| AnalysisResults.NewResult | domain/entities/analysis_result.py:97-127 | a new result has no responses, status PENDING and neither media nor thread analysis; the quality level is derived iff a consolidated score is present |
| AnalysisResults.CountSuccess | domain/entities/analysis_result.py:134-135 | the number of SUCCESS responses is at most the number of responses |
| AnalysisResults.CountSuccessAll | domain/entities/analysis_result.py:134-135 | the count equals the number of responses iff all succeeded, and is 0 iff none did |
| AnalysisResults.SuccessRate | domain/entities/analysis_result.py:129-137 | the success rate lies in [0, 100] (0.0 for an empty map) |
| AnalysisResults.SuccessRateExtremes | domain/entities/analysis_result.py:129-137 | for a non-empty map the rate is 100 iff every response succeeded and 0 iff none did |
| AnalysisResults.SuccessScores | domain/entities/analysis_result.py:144-145 | the collected scores are exactly the scores of the SUCCESS responses, one per success; collection fails iff some successful score is not a number |
| AnalysisResults.AverageAgentScore | domain/entities/analysis_result.py:139-147 | the average is 0.0 without successes, otherwise the mean of the successful scores; a non-numeric successful score raises |
| AnalysisResults.AverageWithinScores | domain/entities/analysis_result.py:139-147 | when every successful score lies in [lo, hi], so does the average |
| AnalysisResults.AddResponse | domain/entities/analysis_result.py:161-175 | afterwards the name maps to the new response, whose score is `agent_score` or the default 5.0; the key order is kept or the name is appended; distinct keys stay distinct; the rest of the result is unchanged |
| AnalysisResults.AddResponseOthers | domain/entities/analysis_result.py:161-175 | adding a response for one name leaves the response of every other name as it was |
| AnalysisResults.Put | domain/entities/analysis_result.py:167 | assigning one key of the response map: the key maps to the new value, a known key keeps its place, a new one goes last, and distinct keys stay distinct |
| AnalysisResults.PutOthers | domain/entities/analysis_result.py:167 | assigning one key leaves the value of every other key unchanged |
| AnalysisResults.SetConsolidatedScore | domain/entities/analysis_result.py:177-193 | the stored record has status SUCCESS and the given totals; the range is "N/A" iff there are no scores, otherwise its ends are the least and greatest individual scores; the half-spread is (max - min)/2 only for more than one score, else 0 |
| JsonParsing.FenceCandidate | domain/services/multi_agent_analyzer.py:430-435 | the fenced-block candidate exists iff the text contains "```json" |
| JsonParsing.FenceCandidateInside | domain/services/multi_agent_analyzer.py:430-435 | the fenced candidate is a slice of the text after the opening fence and contains no closing fence |
| JsonParsing.BraceCandidateWhen | domain/services/multi_agent_analyzer.py:440-445 | the brace candidate exists iff some '{' comes before some '}' |
| JsonParsing.BraceCandidateShape | domain/services/multi_agent_analyzer.py:440-445 | the brace candidate starts at the first '{' of the text, begins with '{' and ends with '}' |
| JsonParsing.Candidates | domain/services/multi_agent_analyzer.py:424-447 | the whole text is always tried first |
| JsonParsing.Fallback | domain/services/multi_agent_analyzer.py:450-456 | the fallback record has exactly the keys error, raw_response, agent_score and status, with score 5.0, status "failed", and a raw response that is a prefix of the text of at most 500 characters |
| JsonParsing.FirstDecoded | domain/services/multi_agent_analyzer.py:424-447 | the record returned is the one decoded from the first candidate that decodes; none is returned iff no candidate decodes |
| JsonParsing.ParseJsonSafeTries | domain/services/multi_agent_analyzer.py:421-457 | the parser always returns a record: the first decodable candidate's record, otherwise the fallback |
| JsonParsing.StrategiesInOrder | domain/services/multi_agent_analyzer.py:421-457 | the three decoding strategies are the candidates tried in order: the whole text, the fenced block, the brace span |
| JsonParsing.ParseJsonSafe | domain/services/multi_agent_analyzer.py:421-457 | a text that decodes as a whole gives its record; a text with neither decodable whole, fence nor brace candidate gives the fallback |
| Values.Get | domain/services/multi_agent_analyzer.py:367 | `d.get(k, default)` is the stored value when the key is present and the default otherwise |
| Values.ToFloat | domain/services/multi_agent_analyzer.py:384-390 | `float(x)` agrees with the numeric value of bools, ints and floats; a string of digits, with surrounding whitespace, converts to the integer it writes; a string converts only when it is written in digits, a point and a sign; any other value fails |
| Values.ParseUnsigned | domain/services/multi_agent_analyzer.py:384-390 | an unsigned decimal is never negative, a digit string gives its integer value, and only digits and a point are accepted |
| Values.ParseDecimal | domain/services/multi_agent_analyzer.py:384-390 | `float` of a string reads its stripped text: a digit string gives its value, a signed one its value with the sign, and only digits, a point and a sign are accepted (`Values.ReadsDecimal`) |
| Values.ParseStripped | domain/services/multi_agent_analyzer.py:384-390 | on text without surrounding whitespace, a digit string gives its value, a signed one its value with the sign, and only digits, a point and a sign are accepted |
| Values.ParseSigned | domain/services/multi_agent_analyzer.py:384-390 | a sign followed by digits gives their value, negated for `-`, and only decimal characters are accepted |
| Values.PointValue | domain/services/multi_agent_analyzer.py:384-390 | digits, a point and digits, with digits on some side, parse to the whole part plus the fraction scaled by its number of digits |
| Values.ToFloatPoint | domain/services/multi_agent_analyzer.py:384-390 | `float` of a string in plain point notation is the value that notation writes |
| Values.ConvertEnums | domain/services/multi_agent_analyzer.py:24-43 | the result holds no Enum; an Enum becomes its value; dicts keep their keys; lists and tuples keep their length; any other value is unchanged |
| Values.ConvertEnumsFixesEnumFree | domain/services/multi_agent_analyzer.py:24-43 | a value without Enums is returned unchanged |
| Values.ConvertEnumsIdempotent | domain/services/multi_agent_analyzer.py:24-43 | converting twice gives the same result as converting once |
| Values.ConvertEnumsPointwise | domain/services/multi_agent_analyzer.py:34-41 | each list element and each dict value is converted in place, so order and keys are preserved |
| Analyzer.ErrorRecord | domain/services/multi_agent_analyzer.py:158 | a failure placeholder holds exactly the keys `error` and `agent_score`, with score 5.0 |
| Analyzer.ExecuteWithMetadata | domain/services/multi_agent_analyzer.py:497-540 | never raises: status is "success" iff the model replied, and then the response is the parsed reply; a timeout gives `{'error': 'timeout', 'agent_score': 5.0}` with status "timeout"; any other exception gives its message with score 5.0 and status "error" |
| Analyzer.Store | domain/services/multi_agent_analyzer.py:156-170 | recording one agent writes its entry into both the local response map and the result with the given status, appends the name only when it is new, and keeps the two maps consistent |
| Analyzer.StoreOthers | domain/services/multi_agent_analyzer.py:156-170 | recording one agent leaves every other agent's response untouched |
| Analyzer.NamesConcat | domain/services/multi_agent_analyzer.py:133-193 | the names of two concatenated agent lists are the concatenated names |
| Analyzer.DependentNames | domain/services/multi_agent_analyzer.py:192 | phase two runs exactly score_consolidator and then validator |
| Analyzer.GatherStep | domain/services/multi_agent_analyzer.py:151-170 | handling one gathered result adds exactly that agent's name, to both maps, and keeps them consistent |
| Analyzer.TaskRecord | domain/services/multi_agent_analyzer.py:151-170 | a raised exception becomes a FAILED entry holding the error record and its message; a returned result becomes a SUCCESS entry holding the parsed response |
| Analyzer.GatherStepOutcome | domain/services/multi_agent_analyzer.py:151-170 | after one gathered result, a raised exception has left a FAILED placeholder with score 5.0 and a returned result a SUCCESS entry |
| Analyzer.Gather | domain/services/multi_agent_analyzer.py:151-170 | after the gather loop, the local names are the old names plus the phase-one agents; only the responses of the result change |
| Analyzer.FillTimeouts | domain/services/multi_agent_analyzer.py:176-187 | the aggregate-timeout path adds the timeout placeholder only for names still missing and leaves recorded entries as they are |
| Analyzer.TimeoutStep | domain/services/multi_agent_analyzer.py:176-187 | the timeout handler for one agent adds the placeholder only when the agent has no entry yet |
| Analyzer.FillTimeoutsNames | domain/services/multi_agent_analyzer.py:176-187 | on a fresh result, the timeout path appends the missing agents' names in sequence order |
| Analyzer.PhaseOne | domain/services/multi_agent_analyzer.py:139-187 | whether the gather finishes or times out, afterwards every phase-one agent has a local entry |
| Analyzer.PhaseOneNames | domain/services/multi_agent_analyzer.py:139-187 | starting fresh, phase one leaves exactly one response per phase-one agent, in sequence order |
| Analyzer.DependentRecord | domain/services/multi_agent_analyzer.py:195-250 | a dependent agent's entry has status SUCCESS iff the model replied; a timeout gives the timeout placeholder, 60 seconds and the timeout message |
| Analyzer.DependentStep | domain/services/multi_agent_analyzer.py:195-269 | one dependent agent changes only its own local entry, appends its name only when new, and keeps the two maps consistent |
| Analyzer.DependentStepOutcome | domain/services/multi_agent_analyzer.py:195-269 | a dependent agent's entry is recorded as SUCCESS iff the model replied in time; a timeout stores the timeout placeholder and an error stores the error placeholder |
| Analyzer.DependentError | domain/services/multi_agent_analyzer.py:251-269 | the doubled error insert overwrites the same key: one response remains, holding the second record `{'error': msg}` |
| Analyzer.RunPhaseTwo | domain/services/multi_agent_analyzer.py:191-269 | the consolidator is shown every phase-one response; afterwards both dependent names are present, each added only if new, and only the responses changed |
| Analyzer.PhaseTwoViews | domain/services/multi_agent_analyzer.py:191-269 | the validator is shown the phase-one responses plus the consolidator's, and afterwards the local map holds exactly those names plus the validator |
| Analyzer.PhaseTwoNames | domain/services/multi_agent_analyzer.py:191-269 | phase two appends exactly the two dependent names, in order |
| Analyzer.ScoreField | domain/services/multi_agent_analyzer.py:367-382 | the score looked up is `agent_score` when present, else the first legacy field present, else 5.0; it is never None |
| Analyzer.FirstPresent | domain/services/multi_agent_analyzer.py:370-378 | the legacy lookup returns the value of the first listed field the response holds, and None when it holds none |
| Analyzer.Contributions | domain/services/multi_agent_analyzer.py:362-390 | there are at most as many contributions as table entries, and each carries a positive weight |
| Analyzer.ContributionsFromEntries | domain/services/multi_agent_analyzer.py:362-390 | every contribution is some table entry's readable score, under that agent's name and with its weight |
| Analyzer.ContributionsNonEmpty | domain/services/multi_agent_analyzer.py:362-390 | there is a contribution iff some agent with positive weight has a readable score |
| Analyzer.CalculateConsolidated | domain/services/multi_agent_analyzer.py:355-420 | the consolidated score is the weighted mean of the contributions; with zero total weight it is 5.0 with no contributors; the responses are untouched |
| Analyzer.ConsolidatedWithinScores | domain/services/multi_agent_analyzer.py:392-403 | when all readable scores lie in [lo, hi], the consolidated score does too; with none readable it is 5.0 |
| Analyzer.ContributionsWithin | domain/services/multi_agent_analyzer.py:384-390 | every contributed score is one of the readable scores and so lies in their bounds |
| Analyzer.Independent | domain/services/multi_agent_analyzer.py:133 | phase one is a prefix of the sequence of at most ten agents |
| Analyzer.AnalyzeTweet | domain/services/multi_agent_analyzer.py:104-275 | the result carries the tweet's id and run, a consolidated score, and status SUCCESS |
| Analyzer.AnalyzeTweetNames | domain/services/multi_agent_analyzer.py:151-269 | for distinct agents, after `analyze_tweet` every name of the sequence has exactly one response, in execution order |
| Analyzer.PipelineNames | domain/services/multi_agent_analyzer.py:133-269 | the response names are the phase-one names followed by the two dependent names |
| Consolidation.Below | domain/services/orchestration/enhanced_score_consolidator.py:262 | a threshold comparison succeeds exactly for numeric values and then answers whether the number is below the threshold; anything else raises |
| Consolidation.LegacyFieldOf | domain/services/orchestration/enhanced_score_consolidator.py:197-208 | an agent has a legacy score field exactly when it is one of the ten traditional agents |
| Consolidation.ExtractScore | domain/services/orchestration/enhanced_score_consolidator.py:185-219 | when no field of the data converts to a number the extracted score is the 5.0 default |
| Consolidation.ExtractScorePriority | domain/services/orchestration/enhanced_score_consolidator.py:185-219 | a numeric `agent_score` wins; otherwise a numeric legacy field of a traditional agent; otherwise the 5.0 default |
| Consolidation.ExtractScoreWithin | domain/services/orchestration/enhanced_score_consolidator.py:185-219 | when every numeric field of the data lies in a range containing 5.0, so does the extracted score |
| Consolidation.BaseEntry | domain/services/orchestration/enhanced_score_consolidator.py:158-176 | an agent contributes to the base score exactly when its weight is positive and its response succeeded, and then with its extracted score and its weight |
| Consolidation.Counted | domain/services/orchestration/enhanced_score_consolidator.py:158-176 | the loop keeps at most one entry per agent, and only positive weights when every entry has one |
| Consolidation.CountedSound | domain/services/orchestration/enhanced_score_consolidator.py:158-176 | every kept entry is the entry of some listed agent |
| Consolidation.CountedComplete | domain/services/orchestration/enhanced_score_consolidator.py:158-176 | every listed agent with an entry has that entry kept |
| Consolidation.BaseContributions | domain/services/orchestration/enhanced_score_consolidator.py:151-176 | every contribution to the base score carries a positive weight |
| Consolidation.BaseScore | domain/services/orchestration/enhanced_score_consolidator.py:144-183 | with no counted agent the base score is the 5.0 default |
| Consolidation.BaseScoreWithin | domain/services/orchestration/enhanced_score_consolidator.py:178-183 | with no contributor the base score is 5.0; otherwise it is a weighted mean and lies within the range of the contributing scores |
| Consolidation.BaseContributorsExactly | domain/services/orchestration/enhanced_score_consolidator.py:158-176 | an agent appears in the individual scores exactly when it contributes, and then with its extracted score |
| Consolidation.Magnitude | domain/services/orchestration/enhanced_score_consolidator.py:289-301 | a threshold adjustment fires only past the threshold, and its magnitude exceeds 0.1 and never exceeds the cap |
| Consolidation.MagnitudeFiresIff | domain/services/orchestration/enhanced_score_consolidator.py:289-301 | an adjustment fires exactly when the value exceeds the threshold by more than 0.1 divided by the scaling |
| Consolidation.MagnitudeMonotone | domain/services/orchestration/enhanced_score_consolidator.py:289-301 | a larger signal still fires and never gets a smaller magnitude |
| Consolidation.Excess | domain/services/orchestration/enhanced_score_consolidator.py:289-301 | reading a signal succeeds exactly when the field (default 0.0) is numeric, and the magnitude is the thresholded one |
| Consolidation.SarcasmAdjustment | domain/services/orchestration/enhanced_score_consolidator.py:247-281 | a sarcasm adjustment is a boost from the sarcasm sentinel, whose response succeeded |
| Consolidation.SarcasmAdjustmentCases | domain/services/orchestration/enhanced_score_consolidator.py:247-281 | the sarcasm boost fires exactly when the sentinel succeeded and marked the tweet sarcastic with p_sarcasm at least 0.5 and the fact checker succeeded with a non-zero score below 4.0; its value is at most 0.9 and negative exactly when p_sarcasm exceeds 0.8 |
| Consolidation.EchoAdjustment | domain/services/orchestration/enhanced_score_consolidator.py:283-311 | an echo adjustment is a boost from a successful echo mapper, above 0.1 and at most 1.5, with confidence at most 1.0 |
| Consolidation.SlopAdjustment | domain/services/orchestration/enhanced_score_consolidator.py:313-341 | a slop adjustment is a penalty from a successful slop filter, between -2.5 and -0.1, with confidence at least 0.7 |
| Consolidation.ToneAdjustment | domain/services/orchestration/enhanced_score_consolidator.py:343-372 | a tone adjustment is a penalty from a successful banned-phrase skeptic, between -2.0 and -0.1, with confidence at least 0.3 |
| Consolidation.ThresholdAdjustmentsFire | domain/services/orchestration/enhanced_score_consolidator.py:283-341 | the echo boost fires exactly for a successful response with velocity above 0.55, the slop penalty exactly for slop above 0.7 + 1/30 |
| Consolidation.ToneAdjustmentFires | domain/services/orchestration/enhanced_score_consolidator.py:343-372 | the tone penalty fires exactly for a successful response with a penalty above 0.34 and a sized banned-terms value |
| Consolidation.OptionList | domain/services/orchestration/enhanced_score_consolidator.py:225-243 | a present adjustment is appended, an absent one adds nothing |
| Consolidation.SignalAdjustments | domain/services/orchestration/enhanced_score_consolidator.py:221-245 | collecting the adjustments raises exactly when one of the four raises, and otherwise lists the present ones in the order sarcasm, echo, slop, tone |
| Consolidation.SignalAdjustmentsShape | domain/services/orchestration/enhanced_score_consolidator.py:221-245 | at most four adjustments, no agent twice, strictly in execution order, each from a successful agent with the kind and sign that agent gives |
| Consolidation.InOrder | domain/services/orchestration/enhanced_score_consolidator.py:221-245 | the four optional adjustments, appended in order, stay strictly ordered by agent |
| Consolidation.AllGood | domain/services/orchestration/enhanced_score_consolidator.py:221-245 | appending well-formed adjustments keeps every listed adjustment well-formed |
| Consolidation.AdjustmentValues | domain/services/orchestration/enhanced_score_consolidator.py:378-379 | the adjustment values, one per adjustment, in order |
| Consolidation.Confidences | domain/services/orchestration/enhanced_score_consolidator.py:441-442 | the adjustment confidences, one per adjustment, in order |
| Consolidation.ApplyAdjustments | domain/services/orchestration/enhanced_score_consolidator.py:374-388 | the final score always lies in [0.1, 10.0] |
| Consolidation.ApplyAdjustmentsMonotone | domain/services/orchestration/enhanced_score_consolidator.py:374-388 | a higher base score never yields a lower final score under the same adjustments |
| Consolidation.ApplyNoAdjustments | domain/services/orchestration/enhanced_score_consolidator.py:374-388 | without adjustments a base score in [0.1, 10.0] with two decimals passes through unchanged |
| Consolidation.AdjustmentFlags | domain/services/orchestration/enhanced_score_consolidator.py:395-406 | at most one flag per adjustment, and never consolidation_error |
| Consolidation.AdjustmentFlagsIff | domain/services/orchestration/enhanced_score_consolidator.py:395-406 | a flag comes from the adjustments exactly when some adjustment maps to it |
| Consolidation.FlagOfCause | domain/services/orchestration/enhanced_score_consolidator.py:395-406 | low_content_quality comes only from a slop penalty, editorial_violations only from a tone penalty, viral_content only from an echo boost, sarcasm_protected only from a sarcasm boost, and no adjustment yields consolidation_error |
| Consolidation.VerdictFlag | domain/services/orchestration/enhanced_score_consolidator.py:408-420 | a verdict flag is raised exactly when the agent succeeded and its verdict field is truthy |
| Consolidation.QualityFlags | domain/services/orchestration/enhanced_score_consolidator.py:390-422 | at most one flag per adjustment plus the two verdict flags, and never consolidation_error |
| Consolidation.QualityFlagsFromAdjustments | domain/services/orchestration/enhanced_score_consolidator.py:390-422 | each adjustment-derived flag is present exactly when an adjustment of the matching agent and kind is, and consolidation_error never appears |
| Consolidation.FlagFromAdjustments | domain/services/orchestration/enhanced_score_consolidator.py:390-422 | any flag other than the two verdict flags is present exactly when some adjustment maps to it |
| Consolidation.QualityFlagsFromVerdicts | domain/services/orchestration/enhanced_score_consolidator.py:408-420 | sarcastic_content is present exactly when the sentinel succeeded with a truthy is_sarcastic, temporal_misalignment exactly when the latency guard succeeded with a truthy repriced |
| Consolidation.TierOf | domain/services/orchestration/enhanced_score_consolidator.py:444-447 | confidence at least 0.8 is high, from 0.6 below 0.8 is medium, below 0.6 is low |
| Consolidation.OverallConfidence | domain/services/orchestration/enhanced_score_consolidator.py:424-442 | without adjustments the confidence lies in [0.5, 1.0], and it is 0.5 when there are no responses either |
| Consolidation.TierMonotone | domain/services/orchestration/enhanced_score_consolidator.py:444-447 | more confidence never gives a worse tier |
| Consolidation.TierAllSucceeded | domain/services/orchestration/enhanced_score_consolidator.py:424-447 | when every agent succeeded and nothing was adjusted the tier is high |
| Consolidation.TierNoneSucceeded | domain/services/orchestration/enhanced_score_consolidator.py:424-447 | when no agent succeeded the tier is never high |
| Consolidation.ConsolidateScores | domain/services/orchestration/enhanced_score_consolidator.py:85-142 | the final score lies in [0.1, 10.0]; the fallback (5.0, no adjustments, consolidation_error, low) is returned exactly when collecting the adjustments raises; otherwise base, individual scores, adjustments, final score, flags and confidence tier are the ones defined above |
| Consolidation.ConsolidateScoresAsWritten | domain/services/orchestration/enhanced_score_consolidator.py:85-142 | as written, any analysis holding a response ends in the fallback, which differs from the corrected consolidation whenever that one does not raise; an empty analysis is consolidated alike |
| Consolidation.SignalsAbsent | domain/services/orchestration/enhanced_score_consolidator.py:221-245 | without a response from any of the four signal agents there are no adjustments and nothing raises |
| Consolidation.SummaryOnlyDiscarded | domain/services/orchestration/enhanced_score_consolidator.py:85-142 | an analysis holding only a successful summary is the fallback as written and a regular consolidation when corrected |
| Enhanced.SarcasmAgentScore | domain/services/orchestration/enhanced_multi_agent_analyzer.py:286 | the sentinel's score lies in [7, 8] and is 8.0 exactly for a sarcastic verdict |
| Enhanced.EchoAgentScore | domain/services/orchestration/enhanced_multi_agent_analyzer.py:323 | the echo score never exceeds 10, is at least 5 for a non-negative velocity, and grows linearly with velocity up to 1 |
| Enhanced.InverseAgentScore | domain/services/orchestration/enhanced_multi_agent_analyzer.py:359 | the slop and tone scores are at least 1, at most 10 for a non-negative reading, and fall linearly from 10 to 2 over readings in [0, 1] |
| Enhanced.EchoAgentScoreMonotone | domain/services/orchestration/enhanced_multi_agent_analyzer.py:323 | a faster echo never lowers the echo agent's score |
| Enhanced.InverseAgentScoreAntitone | domain/services/orchestration/enhanced_multi_agent_analyzer.py:359 | a worse slop or tone reading never raises the agent's score |
| Enhanced.SignalScoresWithin | domain/services/orchestration/enhanced_multi_agent_analyzer.py:286-401 | for readings in [0, 1] all signal-agent scores lie in the 1-10 scale |
| Enhanced.Reading | domain/services/orchestration/enhanced_multi_agent_analyzer.py:443-469 | an agent without a successful response yields no reading; a reading is present only above its threshold |
| Enhanced.SarcasmGuard | domain/services/orchestration/enhanced_multi_agent_analyzer.py:429-438 | the sarcasm rule is off unless both the sentinel and the fact checker succeeded |
| Enhanced.SarcasmStep | domain/services/orchestration/enhanced_multi_agent_analyzer.py:429-440 | the sarcasm rule never lowers the score; when it applies the score is at least 5.0; it changes the score only by lifting it to 5.0 |
| Enhanced.EchoStep | domain/services/orchestration/enhanced_multi_agent_analyzer.py:442-450 | the echo rule leaves the score alone without a reading past 0.5; with velocity v past 0.5 it adds the boost 2(v − 0.5), capped at 10, so a velocity of at most 1 adds at most one point |
| Enhanced.SlopStep | domain/services/orchestration/enhanced_multi_agent_analyzer.py:452-460 | the slop rule leaves the score alone without a reading past 0.7; with slop score s past 0.7 it subtracts the penalty 3(s − 0.7), floored at 1, so a slop score of at most 1 costs at most 0.9 |
| Enhanced.ToneStep | domain/services/orchestration/enhanced_multi_agent_analyzer.py:462-470 | the tone rule leaves the score alone without a reading past 0.2; with tone penalty t past 0.2 it subtracts 2t, floored at 1, so a penalty of at most 1 costs at most two points |
| Enhanced.AdjustedOkIndependent | domain/services/orchestration/enhanced_multi_agent_analyzer.py:423-476 | whether the rules raise does not depend on the score they start from |
| Enhanced.AdjustedWithin | domain/services/orchestration/enhanced_multi_agent_analyzer.py:423-476 | a starting score in [1, 10] stays in [1, 10] through all four rules |
| Enhanced.AdjustedMonotone | domain/services/orchestration/enhanced_multi_agent_analyzer.py:423-476 | a higher starting score never ends lower |
| Enhanced.AdjustedWithoutSignals | domain/services/orchestration/enhanced_multi_agent_analyzer.py:423-476 | without any successful signal response the rules leave the score unchanged |
| Enhanced.StartScore | domain/services/orchestration/enhanced_multi_agent_analyzer.py:427 | an absent or zero consolidated score starts the adjustments from 5.0; any other score from itself |
| Enhanced.ApplyEnhancedAdjustments | domain/services/orchestration/enhanced_multi_agent_analyzer.py:423-476 | when a rule raises, the stored score is kept untouched; otherwise a score is stored |
| Enhanced.ApplyEnhancedWithin | domain/services/orchestration/enhanced_multi_agent_analyzer.py:423-476 | a stored score in [1, 10] (or none) leaves a score in [1, 10] (or none) |
| Enhanced.ApplyEnhancedWithoutSignals | domain/services/orchestration/enhanced_multi_agent_analyzer.py:423-476 | without signal responses the stored score is only rounded to two decimals |
| Enhanced.ApplyEnhancedAsWritten | domain/services/orchestration/enhanced_multi_agent_analyzer.py:423-476 | as written, a stored score is never changed, nor is anything written when a signal agent answered; only with neither is 5.0 written |
| Enhanced.AsWrittenAgreesWithoutSignals | domain/services/orchestration/enhanced_multi_agent_analyzer.py:423-476 | with nothing stored and no signal agent's response, the program as written and the corrected adjustments both write 5.0 |
| Enhanced.AsWrittenIgnoresEcho | domain/services/orchestration/enhanced_multi_agent_analyzer.py:442-450 | a successful echo reading of velocity 1.0 on a score of 5.0 is boosted to 6.0 by the corrected rules and ignored as written |
| Enhanced.NamespaceOf | domain/services/orchestration/enhanced_multi_agent_analyzer.py:489 | a key with a colon maps to its colon-free prefix, a key without one to 'unknown' |
| Enhanced.MemoryStatsOf | domain/services/orchestration/enhanced_multi_agent_analyzer.py:478-491 | the total entry count is the number of keys |
| Enhanced.MemoryStatsCounts | domain/services/orchestration/enhanced_multi_agent_analyzer.py:478-491 | each namespace's count is the number of keys in that namespace, and the counts add up to the total |
| FinalScoring.SignalField | main.py:477 | an agent missing from the results yields the field's default |
| FinalScoring.SignalAbove | main.py:477-478 | an agent missing from the results never crosses a non-negative threshold |
| FinalScoring.SignalFlag | main.py:487-489 | an agent missing from the results never flags repricing |
| FinalScoring.ReadSignals | main.py:476-499 | empty results read as all-zero signals and no repricing |
| FinalScoring.Adjustments | main.py:473-499 | the signal adjustment is at most +0.5 (the echo boost), and is zero when no signal crosses its threshold |
| FinalScoring.Grade | main.py:504-519 | approve exactly from 6.0, review exactly in [4, 6), reject exactly below 4.0; excellent exactly from 8.0, very poor exactly below 2.0 |
| FinalScoring.GradeMonotone | main.py:504-519 | a higher final score never gets a worse recommendation |
| FinalScoring.CalculateFinalScoring | main.py:465-537 | the final score lies in [0, 10]; a failed lookup gives the fixed fallback (5.0, no adjustment, Average, Review); otherwise the original score shifted by the adjustments, clamped and graded |
| FinalScoring.FinalScoringWithoutSignals | main.py:465-537 | without signal results nothing is adjusted and the final score is the clamped original one |
| FinalScoring.FinalScoringMonotone | main.py:465-537 | a higher original score never lowers the final score nor worsens the recommendation |
| FinalScoring.Reasons | main.py:545-562 | the high-sarcasm reason is given exactly above 0.8, the prohibited-phrase reason exactly above 0.3 penalty, the stale-news reason exactly for repriced content; one reason per trigger that fires, the sarcasm reason first and the stale-news reason last |
| FinalScoring.AssessHumanEscalation | main.py:539-575 | escalation is required exactly when some reason is given; a failed lookup escalates nothing |
| FinalScoring.EscalationIff | main.py:539-567 | escalation is required exactly when sarcasm exceeds 0.8, the banned penalty exceeds 0.3, or the content was repriced |
| FinalScoring.NoEscalationWithoutSignals | main.py:539-567 | empty signal results escalate nothing |
| FinalScoring.EscalationIsPenalised | main.py:473-567 | whenever escalation is required the scoring adjustment is below +0.5, and negative unless the echo boost applies |
| MemoryStore.Find | domain/services/memory/memory_namespace_manager.py:87-88 | a key is found exactly when the store holds an entry under it, and the entry found is one stored under that key |
| MemoryStore.PutFind | domain/services/memory/memory_namespace_manager.py:114-115 | after storing an entry under a key, that key reads back the entry and every other key reads what it read before |
| MemoryStore.Put | domain/services/memory/memory_namespace_manager.py:114-115 | storing keeps every key at its position and every other key's entry, and adds at most one entry |
| MemoryStore.Key | domain/services/memory/memory_namespace_manager.py:87 | a memory key is the namespace, a colon, and the entity, recoverable by position |
| MemoryStore.ChronicFields | domain/services/signal_integrity/slop_filter_agent.py:323-330 | an empty record is never chronic; a chronic verdict needs a numeric count of at least 5 and a numeric average above the threshold |
| MemoryStore.Last | domain/services/memory/memory_namespace_manager.py:112 | keeping the last n items keeps min(n, length) items, and they are a suffix of the input |
| MemoryStore.SarcasmProfile | domain/services/memory/memory_namespace_manager.py:85-93 | an author without a record gets the zeroed profile stamped now; otherwise the profile is the stored one |
| MemoryStore.NextSarcasm | domain/services/memory/memory_namespace_manager.py:95-112 | one more tweet is counted, one more sarcastic tweet exactly when this one is, and a given confidence is appended to the last 20 kept |
| MemoryStore.NextSarcasmOk | domain/services/memory/memory_namespace_manager.py:95-112 | an update keeps the profile consistent: no more sarcastic tweets than tweets, the rate their ratio in [0, 1], at most 20 confidences |
| MemoryStore.UpdateSarcasmProfile | domain/services/memory/memory_namespace_manager.py:95-118 | the update succeeds exactly when the profile can be read, and then stores the next profile under the author's key |
| MemoryStore.SarcasmUpdateKeepsOthers | domain/services/memory/memory_namespace_manager.py:95-118 | an update changes no other key |
| MemoryStore.CountTrue | domain/services/memory/memory_namespace_manager.py:101-102 | the number of sarcastic verdicts never exceeds the number of verdicts |
| MemoryStore.ReplaySarcasmCounts | domain/services/memory/memory_namespace_manager.py:95-118 | after a run of updates from nothing, the profile counts every tweet and exactly the sarcastic ones, and stays consistent |
| MemoryStore.EchoHistory | domain/services/memory/memory_namespace_manager.py:120-123 | a topic without a record has no history; a history present is the stored record |
| MemoryStore.NextEcho | domain/services/memory/memory_namespace_manager.py:125-146 | total mentions are the sum of the three platforms; the previous velocity and the change are recorded exactly when an earlier record exists, the change being the difference of the two velocities |
| MemoryStore.UpdateTopicEchoMetrics | domain/services/memory/memory_namespace_manager.py:125-148 | the update succeeds exactly when the history can be read, and stores the next metrics under the topic key |
| MemoryStore.EchoTwice | domain/services/memory/memory_namespace_manager.py:125-148 | recording a topic twice leaves the first velocity as the previous one and the difference as the change |
| MemoryStore.SlopProfile | domain/services/memory/memory_namespace_manager.py:180-189 | an author without a record gets the zeroed fingerprint stamped now; otherwise the stored one |
| MemoryStore.NextSlop | domain/services/memory/memory_namespace_manager.py:191-203 | one more score is counted and added to the total, the average is total over count, and the last 10 scores are kept |
| MemoryStore.UpdateSlopProfile | domain/services/memory/memory_namespace_manager.py:191-206 | the update succeeds exactly when the fingerprint can be read, and stores the next fingerprint under the author's key |
| MemoryStore.ReplaySlopRecent | domain/services/memory/memory_namespace_manager.py:191-206 | after a run of updates from nothing the count is the number of scores and the kept scores are the last ten of them |
| MemoryStore.ReplaySlopWithin | domain/services/memory/memory_namespace_manager.py:191-206 | for scores in [0, 1] the total lies in [0, count] and the average in [0, 1] |
| MemoryStore.LastOfSnoc | domain/services/memory/memory_namespace_manager.py:200-203 | trimming to the last n before and after appending is the same as trimming once after |
| MemoryStore.BanStats | domain/services/memory/memory_namespace_manager.py:232-241 | an author without a record gets zeroed statistics stamped now; otherwise the stored ones |
| MemoryStore.Occurrences | domain/services/memory/memory_namespace_manager.py:254-256 | no term is counted more often than there are terms |
| MemoryStore.AddViolations | domain/services/memory/memory_namespace_manager.py:254-256 | the violations loop keeps every term already counted at its position and never removes one |
| MemoryStore.AddViolationsCounts | domain/services/memory/memory_namespace_manager.py:254-256 | each cleaned (lower-cased, stripped) term's count rises by the number of terms that clean to it, and the counts rise by one per term in all |
| MemoryStore.NextBan | domain/services/memory/memory_namespace_manager.py:243-256 | one more violating tweet is counted, its weight added, and the average is total weight over count |
| MemoryStore.UpdateBanStats | domain/services/memory/memory_namespace_manager.py:243-261 | the update succeeds exactly when the statistics can be read, and stores the next statistics under the author's key |
| MemoryStore.BanUpdateCounts | domain/services/memory/memory_namespace_manager.py:243-261 | one update adds to each cleaned term's violation count the number of its mentions |
| MemoryStore.StoreLatencyFlag | domain/services/memory/memory_namespace_manager.py:278-294 | the flag is stored under its timestamp key with the asset, change and delta given, the text cut to its first 200 characters, and the current time |
| MemoryStore.Missing | domain/services/memory/memory_namespace_manager.py:405-408 | one error for each required field absent from the entry, and only those |
| MemoryStore.Unexpected | domain/services/memory/memory_namespace_manager.py:410-414 | one error for each entry field outside the allowed ones, and only those |
| MemoryStore.ValidateNamespaceEntry | domain/services/memory/memory_namespace_manager.py:397-416 | an unknown namespace gives exactly the one unknown-namespace error; a known one never gives it |
| MemoryStore.ValidateIff | domain/services/memory/memory_namespace_manager.py:397-416 | an entry validates exactly when its namespace is known, it has every required field and no field outside the required and optional ones |
| MemoryStore.TypedEntriesValidate | domain/services/memory/memory_namespace_manager.py:55-82 | every record the updaters write validates against its namespace's schema |
| MemoryQueries.ViolationsOf | domain/services/memory/memory_namespace_manager.py:267-268 | a ban record yields its violations; a record without a violations field yields none |
| MemoryQueries.AddAllCounts | domain/services/memory/memory_namespace_manager.py:269-270 | merging a violations table adds each term's counts to the running total, keeps the grand totals additive and the term names distinct |
| MemoryQueries.TallyTotalSnoc | domain/services/memory/memory_namespace_manager.py:269-270 | appending one term count adds its count to the grand total |
| MemoryQueries.TermCountsCounts | domain/services/memory/memory_namespace_manager.py:263-270 | each term's merged count is the number of its mentions over all ban records, and no term is listed twice |
| MemoryQueries.MostViolatedTerms | domain/services/memory/memory_namespace_manager.py:263-275 | the ranking succeeds exactly when the counts can be merged; it lists, in non-increasing count order, terms drawn from the merged counts, as many as `[:top_n]` keeps (min(top_n, number of terms) for a non-negative top_n, all but the last -top_n otherwise) |
| MemoryQueries.MostViolatedTermsCounts | domain/services/memory/memory_namespace_manager.py:263-275 | every ranked term carries its total number of mentions |
| MemoryQueries.MostViolatedTermsTop | domain/services/memory/memory_namespace_manager.py:263-275 | a term left out of the ranking has no more mentions than any ranked term |
| MemoryQueries.SortedPrefixTop | domain/services/memory/memory_namespace_manager.py:273-275 | a term outside the first top_n of the sorted counts counts no more than any term inside |
| MemoryQueries.DistinctCount | domain/services/memory/memory_namespace_manager.py:269-270 | in a table of distinct terms a term's count is the one listed with it |
| MemoryQueries.SloppersSound | domain/services/memory/memory_namespace_manager.py:210-229 | every chronic slopper listed comes from a slop record that meets the count and average thresholds |
| MemoryQueries.SloppersComplete | domain/services/memory/memory_namespace_manager.py:210-229 | every slop record meeting both thresholds is listed |
| MemoryQueries.ChronicSloppers | domain/services/memory/memory_namespace_manager.py:210-230 | the listing fails exactly on a slop record of foreign shape; otherwise it is a permutation of the qualifying authors, each named by its key with every occurrence of the prefix deleted, sorted by average from the worst down, each with at least min_count tweets, an average at least the threshold and at most three recent scores |
| MemoryQueries.EntityOfKey | domain/services/memory/memory_namespace_manager.py:205-216 | the author read back from a fingerprint key is the author the key was built from, whenever that author does not itself hold the prefix |
| MemoryQueries.EntityRemovesEvery | domain/services/memory/memory_namespace_manager.py:216 | `replace` deletes every copy of the prefix: the key `slop_fingerprint:aslop_fingerprint:b` lists the author `ab` |
| MemoryQueries.ChronicSloppersComplete | domain/services/memory/memory_namespace_manager.py:210-230 | every qualifying author appears in the sorted listing |
| MemoryQueries.Timestamps | domain/services/memory/memory_namespace_manager.py:365-366 | each entry offers exactly the three timestamp fields the clean-up checks |
| MemoryQueries.StaleFromIff | domain/services/memory/memory_namespace_manager.py:365-374 | an entry is stale exactly when one of its timestamps parses to a time before the cutoff |
| MemoryQueries.Fresh | domain/services/memory/memory_namespace_manager.py:356-384 | clean-up never adds entries |
| MemoryQueries.FreshExactly | domain/services/memory/memory_namespace_manager.py:356-384 | an entry survives clean-up exactly when it was in the store and is not stale |
| MemoryQueries.CleanupOldEntries | domain/services/memory/memory_namespace_manager.py:356-384 | the kept entries are exactly the non-stale ones, and the removed count plus the kept count is the old size |
| MemoryQueries.ExportNamespace | domain/services/memory/memory_namespace_manager.py:386-395 | an entry is exported exactly when it is in the store under a key starting with the namespace and a colon |
| MemoryQueries.ExportAfterPut | domain/services/memory/memory_namespace_manager.py:386-395 | an entry just stored under a namespace key is in that namespace's export |
| Tallies.Names | domain/services/memory/memory_namespace_manager.py:325 | the keys of a dictionary kept as pairs, in insertion order, one per entry |
| MemoryQueries.MemoryStatistics | domain/services/memory/memory_namespace_manager.py:317-354 | the total is the number of entries and the sum of the per-namespace counts; each namespace's count is the number of keys in it |
| BatchProcessing.DecimalText | domain/services/multi_agent_analysis_service.py:313 | the decimal rendering of the retry count in the abort message is never empty |
| BatchProcessing.FirstSuccess | domain/services/multi_agent_analysis_service.py:266-291 | the call the retry loop stops at is the earliest one that returned a result, and no call is reported when none of the allowed calls did |
| BatchProcessing.RetrySpec | domain/services/multi_agent_analysis_service.py:257-316 | the loop makes at most `max_retries + 1` calls and sleeps between consecutive calls only; a record counts the calls it took and follows only failed calls; giving up means every allowed call was made and exactly one error line is logged |
| BatchProcessing.RetryAnswers | domain/services/multi_agent_analysis_service.py:257-316 | a tweet yields a record exactly when one of its allowed calls returns a result, and the loop raises exactly when none does, failures do not continue and at least one call was allowed |
| BatchProcessing.AnalyzeWithRetry | domain/services/multi_agent_analysis_service.py:257-316 | the while loop with its retry counter, sleeps and error list produces exactly the outcome stated by the direct description of the retry policy |
| BatchProcessing.Batches | domain/services/multi_agent_analysis_service.py:228-229 | the slices of a non-empty tweet list are non-empty and no longer than the batch size, and there are none only for an empty list |
| BatchProcessing.BatchesStep | domain/services/multi_agent_analysis_service.py:228-229 | stepping the range start by the batch size consumes exactly one slice |
| BatchProcessing.BatchesCover | domain/services/multi_agent_analysis_service.py:228-229 | concatenating the slices gives back the tweet list, so every tweet is processed once and in order |
| BatchProcessing.Fold | domain/services/multi_agent_analysis_service.py:231-249 | after n tweets the success and failure counters add up to n, the id and result lists match the counters, the saved ids are the analysed ones when saving is on, the error list is no longer than the failure count, each result belongs to the id listed beside it, and the analysed and failed lists together hold exactly the tweets processed |
| BatchProcessing.FoldCounts | domain/services/multi_agent_analysis_service.py:237-249 | the success and failure counters add up to the tweets processed, the id and result lists have the counters' lengths, and an intermediate save happens exactly for each analysed tweet when saving is on |
| BatchProcessing.FoldErrors | domain/services/multi_agent_analysis_service.py:308-310 | only a tweet whose retries all failed adds an error string, and it adds one, so the errors never outnumber the failures |
| BatchProcessing.FoldRaises | domain/services/multi_agent_analysis_service.py:232-235 | the batch run raises exactly when the retry loop of some processed tweet raised |
| BatchProcessing.FoldRecordsIds | domain/services/multi_agent_analysis_service.py:238-240 | each appended result belongs to the tweet id recorded alongside it |
| BatchProcessing.RecordPartitions | domain/services/multi_agent_analysis_service.py:237-247 | recording tweet n-1 extends a partition of the earlier tweets into analysed and failed ids to a partition of the first n |
| BatchProcessing.FoldPartitions | domain/services/multi_agent_analysis_service.py:231-249 | the analysed and failed id lists together are a permutation of the tweets processed so far |
| BatchProcessing.FoldStep | domain/services/multi_agent_analysis_service.py:237-247 | a tweet goes to the analysed list when one of its allowed calls succeeds and to the failed list otherwise, and the other list is unchanged |
| BatchProcessing.FoldAborts | domain/services/multi_agent_analysis_service.py:311-313 | batch processing raises exactly when failures do not continue, at least one call is allowed, and some tweet fails every call |
| BatchProcessing.FoldStaysRaised | domain/services/multi_agent_analysis_service.py:311-313 | once one tweet raises, no later tweet changes the outcome |
| BatchProcessing.ProcessTweet | domain/services/multi_agent_analysis_service.py:232-247 | the loop body records the tweet with exactly the outcome its retry loop produces |
| BatchProcessing.ProcessBatch | domain/services/multi_agent_analysis_service.py:231-250 | running one slice tweet by tweet, stopping at the first exception, gives the same stats as recording every tweet up to the slice's end |
| BatchProcessing.ProcessTweetsBatch | domain/services/multi_agent_analysis_service.py:207-255 | a zero batch size raises, a negative one processes nothing, a positive one processes every tweet in order and pauses once per batch |
| BatchProcessing.RunStatus | domain/services/multi_agent_analysis_service.py:148 | the run is a success exactly when at least one tweet was analysed and a failure exactly when none was |
| BatchProcessing.Scores | domain/services/multi_agent_analysis_service.py:404-407 | the scores can be read exactly when every result carries a consolidated score, and then they are those scores in order |
| BatchProcessing.Distribute | domain/services/multi_agent_analysis_service.py:413-416 | the three quality buckets together count every score |
| BatchProcessing.BucketOf | domain/services/multi_agent_analysis_service.py:413-416 | a score is high exactly when it is at least 8 and low exactly when it is below 6 |
| BatchProcessing.CountBucket | domain/services/multi_agent_analysis_service.py:413-416 | a bucket's count is at most the number of scores and is zero exactly when no score falls in it |
| BatchProcessing.DistributeCounts | domain/services/multi_agent_analysis_service.py:413-416 | each bucket of the distribution equals the number of scores falling in that bucket's range |
| BatchProcessing.CountBucketSnoc | domain/services/multi_agent_analysis_service.py:413-416 | appending a score raises exactly its own bucket's count by one |
| BatchProcessing.ContentAnalysisSummary | domain/services/multi_agent_analysis_service.py:394-417 | no results give the empty summary; otherwise the summary counts every result and its buckets cover them all |
| BatchProcessing.AnalyzeExtractedData | domain/services/multi_agent_analysis_service.py:97-179 | the status is success exactly when some tweet was analysed, and then the counts add up to the tweets loaded; a load failure or an aborted run gives the failed report with no tweets and one error message; a zero batch size gives exactly `Analysis failed: range() arg 3 must not be zero`, the message `str(e)` yields |
| SarcasmSentinel.CueCount | domain/services/signal_integrity/sarcasm_sentinel_agent.py:148-165 | the cue count is at least the number of matched patterns, and zero exactly when no pattern matches and neither extra cue applies |
| SarcasmSentinel.CueScore | domain/services/signal_integrity/sarcasm_sentinel_agent.py:148-167 | the cue score lies in [0, 1], is zero exactly when there is no cue, saturates at 1.0 from four cues, and is otherwise 0.3 per cue |
| SarcasmSentinel.CueScoreMonotone | domain/services/signal_integrity/sarcasm_sentinel_agent.py:148-167 | more matched patterns never lower the cue score |
| SarcasmSentinel.AuthorPrior | domain/services/signal_integrity/sarcasm_sentinel_agent.py:190-194 | an author without a profile has the 0.1 prior; otherwise the prior is the stored sarcasm rate |
| SarcasmSentinel.AuthorPriorWithin | domain/services/signal_integrity/sarcasm_sentinel_agent.py:190-194 | a consistent stored profile gives a prior in [0, 1] |
| SarcasmSentinel.Combine | domain/services/signal_integrity/sarcasm_sentinel_agent.py:196-204 | the combined score lies in [0, 1] and is the 0.5/0.3/0.2 weighted sum whenever that sum already lies in [0, 1] |
| SarcasmSentinel.CombineMonotone | domain/services/signal_integrity/sarcasm_sentinel_agent.py:196-204 | raising any of the three inputs never lowers the combined score |
| SarcasmSentinel.CombineUnclamped | domain/services/signal_integrity/sarcasm_sentinel_agent.py:196-204 | for inputs in [0, 1] the clamp never binds |
| SarcasmSentinel.GenerateReason | domain/services/signal_integrity/sarcasm_sentinel_agent.py:244-258 | the no-indicators reason is given exactly when the cue score is at most 0.3, the model score at most 0.5 and the prior at most 0.3 |
| SarcasmSentinel.Verdict | domain/services/signal_integrity/sarcasm_sentinel_agent.py:116-125 | outside the ambiguous band [0.4, 0.6], or without a truthy model answer, the combined score and the generated reason stand; inside it a dictionary answer supplies `p_sarcasm` and `reason` (the combined score and the empty reason by default); a truthy answer of another type raises, and nothing else does |
| SarcasmSentinel.AgentProfile | domain/services/signal_integrity/sarcasm_sentinel_agent.py:260-267 | the agent reads the stored profile, or a zeroed one without timestamp |
| SarcasmSentinel.AgentNext | domain/services/signal_integrity/sarcasm_sentinel_agent.py:269-275 | one more tweet is counted, and the timestamp and confidence history are left as they were |
| SarcasmSentinel.AgentNextAgrees | domain/services/signal_integrity/sarcasm_sentinel_agent.py:260-280 | the agent's update counts the same as the memory manager's update without a confidence, except for the timestamp, and keeps a profile consistent |
| SarcasmSentinel.UpdateAuthorProfile | domain/services/signal_integrity/sarcasm_sentinel_agent.py:260-280 | the update succeeds exactly when the profile can be read, stores the next profile under the author's key, and changes no other key |
| SarcasmSentinel.Decide | domain/services/signal_integrity/sarcasm_sentinel_agent.py:127-136 | sarcastic exactly when the score exceeds 0.5; the reported probability is the score rounded to three decimals, so it is at least 0.5 for a sarcastic verdict and at most 0.5 otherwise |
| SarcasmSentinel.Analysis | domain/services/signal_integrity/sarcasm_sentinel_agent.py:88-136 | a completed analysis never reports a sarcastic verdict with probability below 0.5 nor a non-sarcastic one above 0.5 |
| SarcasmSentinel.AnalyzeSarcasm | domain/services/signal_integrity/sarcasm_sentinel_agent.py:88-146 | the reported probability agrees with the verdict; an exception gives the conservative non-sarcastic result and leaves the store alone |
| SarcasmSentinel.LlmOnlyWhenAmbiguous | domain/services/signal_integrity/sarcasm_sentinel_agent.py:116-125 | when the combined score is outside the ambiguous band, the language model's answer does not affect the result |
| SarcasmSentinel.NoCueNotSarcastic | domain/services/signal_integrity/sarcasm_sentinel_agent.py:88-167 | a text with no cue from an author with a prior in [0, 1] is never sarcastic and gets probability at most 0.2 |
| SarcasmSentinel.AnalysisRecords | domain/services/signal_integrity/sarcasm_sentinel_agent.py:130-131 | every completed analysis counts one more tweet for its author, one more sarcastic tweet exactly for a sarcastic verdict, and touches no other key |
| SlopFilter.ClicheScore | domain/services/signal_integrity/slop_filter_agent.py:191-202 | the cliché score lies in [0, 1], is zero exactly without a cliché, saturates from seven clichés and is otherwise 0.15 per cliché |
| SlopFilter.DistinctWordsBound | domain/services/signal_integrity/slop_filter_agent.py:211-212 | a text has no more distinct words than words, and at least one when it has any word |
| SlopFilter.FillerCount | domain/services/signal_integrity/slop_filter_agent.py:223 | the filler count never exceeds the word count and is zero exactly when no word is a filler word |
| SlopFilter.RedundancyOf | domain/services/signal_integrity/slop_filter_agent.py:204-230 | redundancy lies in [0, 1), is zero for fewer than three words, and is zero exactly then or when every word is distinct and none is a filler |
| SlopFilter.Mixture | domain/services/signal_integrity/slop_filter_agent.py:226-228 | the 0.7/0.3 mixture of repetition and filler ratios stays below 1, which is why the final cap of 1.0 never binds, and is zero exactly for no repetition and no filler |
| SlopFilter.Redundancy | domain/services/signal_integrity/slop_filter_agent.py:204-230 | the redundancy of any text lies in [0, 1) |
| SlopFilter.ClusterRatio | domain/services/signal_integrity/slop_filter_agent.py:238-246 | a cluster's hit ratio lies in [0, 1] and is zero exactly when none of its phrases occurs |
| SlopFilter.MaxRatio | domain/services/signal_integrity/slop_filter_agent.py:236-246 | the running maximum lies in [0, 1], bounds every cluster's ratio and is either 0 or one of them |
| SlopFilter.Similarity | domain/services/signal_integrity/slop_filter_agent.py:232-248 | the similarity lies in [0, 1] and is zero exactly when no phrase of any cluster occurs in the lower-cased text |
| SlopFilter.SimilarityMark | domain/services/signal_integrity/slop_filter_agent.py:232-248 | similarity passes 0.3 exactly when two hype phrases, or any click-bait or filler phrase, occur |
| SlopFilter.MaxRatioThree | domain/services/signal_integrity/slop_filter_agent.py:236-246 | over three clusters the running maximum is the largest of the three ratios |
| SlopFilter.MaxRatioSnoc | domain/services/signal_integrity/slop_filter_agent.py:236-246 | one more cluster raises the running maximum to its ratio when larger |
| SlopFilter.OverShare | domain/services/signal_integrity/slop_filter_agent.py:248 | doubled, a ratio over 7 phrases passes 0.3 from two hits and a ratio over 5 from one hit |
| SlopFilter.FactualAdjustment | domain/services/signal_integrity/slop_filter_agent.py:250-269 | the factual adjustment lies in [0, 0.5], is zero exactly when nothing factual is found, and counts at least 0.2 per URL up to the cap |
| SlopFilter.SlopScore | domain/services/signal_integrity/slop_filter_agent.py:156-164 | the slop score lies in [0, 1], is at most 0.4 times the cliché score plus 0.6 and at most one minus the factual adjustment, and is zero exactly when the factual adjustment covers the raw score |
| SlopFilter.SlopScoreMonotone | domain/services/signal_integrity/slop_filter_agent.py:156-164 | more clichés, redundancy or similarity, or less factual content, never lower the slop score |
| SlopFilter.GenerateReasoning | domain/services/signal_integrity/slop_filter_agent.py:271-291 | no indicators are reported exactly when there is no cliché, redundancy is at most 0.5, similarity at most 0.3 and the factual adjustment at most 0.1; otherwise each indicator is listed exactly when its condition holds |
| SlopFilter.AgentFingerprint | domain/services/signal_integrity/slop_filter_agent.py:293-302 | the agent reads the stored fingerprint, or a zeroed one without timestamp, and fails exactly when the memory manager's read would |
| SlopFilter.AgentNextSlop | domain/services/signal_integrity/slop_filter_agent.py:304-312 | one more score is counted and added, the timestamp kept, and the kept recent scores, at most ten, end with this score |
| SlopFilter.AgentNextSlopAgrees | domain/services/signal_integrity/slop_filter_agent.py:293-316 | the agent's update equals the memory manager's update apart from the timestamp |
| SlopFilter.UpdateAuthorFingerprint | domain/services/signal_integrity/slop_filter_agent.py:293-316 | the update succeeds exactly when the fingerprint can be read, stores the next fingerprint under the author's key and changes no other key |
| SlopFilter.Adjusted | domain/services/signal_integrity/slop_filter_agent.py:156-164 | the adjusted slop score of any text lies in [0, 1] |
| SlopFilter.Analysis | domain/services/signal_integrity/slop_filter_agent.py:143-182 | a completed analysis stores the updated fingerprint and calls the text sloppy exactly when the adjusted score exceeds 0.7 |
| SlopFilter.AnalyzeSlop | domain/services/signal_integrity/slop_filter_agent.py:132-189 | the reported score lies in [0, 1], at least 0.7 for a sloppy verdict and at most 0.7 otherwise; an exception gives the error result and leaves the store alone |
| SlopFilter.VerdictSides | domain/services/signal_integrity/slop_filter_agent.py:166-179 | rounding a score to two decimals keeps it in [0, 1] and on the same side of 0.7 as the verdict |
| SlopFilter.FewClichesNotSloppy | domain/services/signal_integrity/slop_filter_agent.py:156-167 | a text with fewer than two clichés is never sloppy |
| SlopFilter.SourcedNotSloppy | domain/services/signal_integrity/slop_filter_agent.py:156-167 | a text with two or more URLs is never sloppy |
| SlopFilter.AnalysisRecords | domain/services/signal_integrity/slop_filter_agent.py:175 | an analysis of a well-formed store records the adjusted score as the author's latest and touches no other key |
| SlopFilter.IsChronicSlopper | domain/services/signal_integrity/slop_filter_agent.py:323-330 | no record means not chronic; a fingerprint is chronic exactly with at least five tweets and an average above the threshold |
| SlopFilter.ChronicIsListed | domain/services/signal_integrity/slop_filter_agent.py:323-330 | an author the agent calls chronic appears among the chronic sloppers the memory query lists with minimum count five, under the name `replace` leaves of the key, which is the author itself whenever the author does not hold the prefix |
| SlopFilter.ShouldPreserve | domain/services/signal_integrity/slop_filter_agent.py:332-361 | a score below 0.8 is always preserved; without a high-value indicator content is preserved exactly when the score is below 0.8 |
| SlopFilter.DroppedWasSloppy | domain/services/signal_integrity/slop_filter_agent.py:332-361 | content that would not be preserved was judged sloppy |
| BannedPhrases.Compile | domain/services/signal_integrity/banned_phrase_skeptic_agent.py:142-155 | one compiled pattern per phrase of the taxonomy, the first category's phrases first, each weighted by phrase weight times category weight with the phrase's note |
| BannedPhrases.CompileSound | domain/services/signal_integrity/banned_phrase_skeptic_agent.py:142-155 | every compiled pattern is the weighted form of some phrase of some category |
| BannedPhrases.CompilePositive | domain/services/signal_integrity/banned_phrase_skeptic_agent.py:142-155 | positive phrase and category weights give positive pattern weights |
| BannedPhrases.TaxonomyPatterns | domain/services/signal_integrity/banned_phrase_skeptic_agent.py:50-116 | the taxonomy compiles to 31 patterns, all with positive weight |
| BannedPhrases.Tagged | domain/services/signal_integrity/banned_phrase_skeptic_agent.py:234 | a recorded term always ends with the closing parenthesis of its note |
| BannedPhrases.TagAll | domain/services/signal_integrity/banned_phrase_skeptic_agent.py:234 | every match of a flagged pattern is recorded, in order, with the pattern's note |
| BannedPhrases.Detect | domain/services/signal_integrity/banned_phrase_skeptic_agent.py:202-237 | an innocent context records nothing and weighs nothing; every recorded term ends with its note's parenthesis; with positive pattern weights the total is non-negative and zero exactly when nothing is recorded |
| BannedPhrases.AddPattern | domain/services/signal_integrity/banned_phrase_skeptic_agent.py:208-235 | an unflagged pattern changes nothing; a flagged one adds exactly its tagged matches and, with a positive weight, keeps the total zero exactly when no term is recorded |
| BannedPhrases.PositivePrefix | domain/services/signal_integrity/banned_phrase_skeptic_agent.py:206 | dropping the last pattern keeps the remaining weights positive |
| BannedPhrases.DetectReports | domain/services/signal_integrity/banned_phrase_skeptic_agent.py:202-237 | every match of every flagged pattern is among the recorded terms |
| BannedPhrases.AdjustFactor | domain/services/signal_integrity/banned_phrase_skeptic_agent.py:239-271 | the combined softening factor lies in [0.336, 1.0] and is 1.0 when the text is neither sarcastic, valuable nor quoted |
| BannedPhrases.FactorBounds | domain/services/signal_integrity/banned_phrase_skeptic_agent.py:244-269 | the product of the sarcasm, value and quotation factors lies in [0.336, 1.0] |
| BannedPhrases.AdjustWeight | domain/services/signal_integrity/banned_phrase_skeptic_agent.py:239-271 | the adjusted weight is never negative, lies between 0.336 times and once a non-negative weight, and is the plain weight when no softening applies |
| BannedPhrases.AdjustWeightMonotone | domain/services/signal_integrity/banned_phrase_skeptic_agent.py:239-271 | a heavier raw weight never gets a lighter adjusted weight |
| BannedPhrases.TonePenalty | domain/services/signal_integrity/banned_phrase_skeptic_agent.py:180 | the tone penalty of a non-negative weight lies in [0, 1], is 1.0 from the 5.0 maximum on, and is never more than the weight over 5.0 |
| BannedPhrases.AgentBanStats | domain/services/signal_integrity/banned_phrase_skeptic_agent.py:279-289 | the agent reads the stored statistics, or zeroed ones without timestamp, and fails exactly when the memory manager's read would |
| BannedPhrases.AgentNextBan | domain/services/signal_integrity/banned_phrase_skeptic_agent.py:291-299 | one more analysis is counted and its weight added, and the timestamp is kept |
| BannedPhrases.AgentNextBanAgrees | domain/services/signal_integrity/banned_phrase_skeptic_agent.py:279-302 | the agent's update equals the memory manager's update apart from the timestamp |
| BannedPhrases.UpdateAgentBanStats | domain/services/signal_integrity/banned_phrase_skeptic_agent.py:279-302 | the update succeeds exactly when the statistics can be read, stores the next statistics under the author's key and changes no other key |
| BannedPhrases.Report | domain/services/signal_integrity/banned_phrase_skeptic_agent.py:186-187 | one reported term per recorded term, each stripped and lower-cased |
| BannedPhrases.OccurrencesReported | domain/services/signal_integrity/banned_phrase_skeptic_agent.py:186-187 | the number of recorded terms that clean to a term is the number of times it is reported |
| BannedPhrases.Analysis | domain/services/signal_integrity/banned_phrase_skeptic_agent.py:157-192 | a completed analysis has a tone penalty in [0, 1] and a non-negative weight, reports the cleaned recorded terms, and reports nothing in an innocent context |
| BannedPhrases.RoundedNonNegative | domain/services/signal_integrity/banned_phrase_skeptic_agent.py:191-192 | rounding a non-negative number to two decimals keeps it non-negative and zero stays zero |
| BannedPhrases.AnalyzeBanned | domain/services/signal_integrity/banned_phrase_skeptic_agent.py:157-200 | the tone penalty lies in [0, 1]; an exception gives the empty result and leaves the store alone; an innocent context reports nothing |
| BannedPhrases.AnalysisTallies | domain/services/signal_integrity/banned_phrase_skeptic_agent.py:157-302 | an analysis adds to each term's violation count the number of times it is reported, and touches no other key |
| BannedPhrases.IsChronicViolator | domain/services/signal_integrity/banned_phrase_skeptic_agent.py:309-316 | no record means not chronic; on a statistics record the verdict is chronic exactly when it holds at least five analyses and its average weight exceeds the threshold |
| BannedPhrases.ChronicNeedsFive | domain/services/signal_integrity/banned_phrase_skeptic_agent.py:309-316 | an author with fewer than five analyses is never chronic |
| BannedPhrases.ShouldEscalate | domain/services/signal_integrity/banned_phrase_skeptic_agent.py:358-383 | a penalty above 0.8 always escalates; below it the decision fails exactly when the chronic check does; otherwise it escalates exactly when the penalty exceeds 0.8, or the author is chronic and the penalty exceeds 0.5, or one of the four inappropriate words is an element of the reported terms |
| BannedPhrases.InappropriateNeverReported | domain/services/signal_integrity/banned_phrase_skeptic_agent.py:379-381 | no reported term is ever one of the four bare inappropriate words, since every reported term carries its note |
| BannedPhrases.ReportKeepsParen | domain/services/signal_integrity/banned_phrase_skeptic_agent.py:186-187 | cleaning keeps the note's closing parenthesis at the end of every term |
| BannedPhrases.NoBareWord | domain/services/signal_integrity/banned_phrase_skeptic_agent.py:379-381 | a list of terms that all end with a parenthesis contains none of the bare inappropriate words |
| BannedPhrases.EscalationIgnoresWords | domain/services/signal_integrity/banned_phrase_skeptic_agent.py:358-383 | on any analysed result, escalation is decided by the penalty and chronic checks alone; the inappropriate-word clause never changes it |
| BannedPhrases.ShouldEscalateCorrected | domain/services/signal_integrity/banned_phrase_skeptic_agent.py:358-383 | the corrected decision keeps the penalty and chronic rules and escalates whenever the original would |
| BannedPhrases.TaggedCleanStartsWith | domain/services/signal_integrity/banned_phrase_skeptic_agent.py:186-187 | the cleaned record of a match starts with the lower-cased match followed by the note's opening parenthesis |
| BannedPhrases.CorrectedOnReportedWord | domain/services/signal_integrity/banned_phrase_skeptic_agent.py:379-381 | a reported term for an inappropriate word escalates under the corrected decision |
| BannedPhrases.CorrectedEscalatesOnWord | domain/services/signal_integrity/banned_phrase_skeptic_agent.py:358-383 | when a flagged pattern matches an inappropriate word, the corrected decision escalates the analysed result |
| LatencyGuard.Abs | domain/services/signal_integrity/latency_guard_agent.py:132 | the magnitude of a change is non-negative and is the change or its negation |
| LatencyGuard.UpperRun | domain/services/signal_integrity/latency_guard_agent.py:159 | the run of capital letters after a dollar sign stays inside the text, consists of capitals only, and stops at the end or at a non-capital |
| LatencyGuard.FirstSymbol | domain/services/signal_integrity/latency_guard_agent.py:158-161 | no symbol is found exactly when no position holds a dollar-sign symbol; a symbol found is two to five capital letters |
| LatencyGuard.Mapped | domain/services/signal_integrity/latency_guard_agent.py:163-168 | no mapped asset is found exactly when no term of the table occurs as a whole word |
| LatencyGuard.MappedFirst | domain/services/signal_integrity/latency_guard_agent.py:163-168 | a mapped asset is the symbol of a table term that occurs as a whole word |
| LatencyGuard.IdentifyAsset | domain/services/signal_integrity/latency_guard_agent.py:154-183 | an explicit dollar symbol wins, the first one found; otherwise the first asset-name term that occurs as a word |
| LatencyGuard.CryptoFallbackSubsumed | domain/services/signal_integrity/latency_guard_agent.py:170-181 | the lower-case ticker fallback never finds anything the asset-name table missed, since every ticker is also a table term |
| LatencyGuard.SymbolTakesPrecedence | domain/services/signal_integrity/latency_guard_agent.py:158-161 | a text with a dollar symbol is always identified, by its first symbol, whatever names it mentions |
| LatencyGuard.FirstSymbolFrom | domain/services/signal_integrity/latency_guard_agent.py:158-161 | the first symbol found from a position is the one at the first dollar-sign position after it |
| LatencyGuard.NoMentionNoAsset | domain/services/signal_integrity/latency_guard_agent.py:154-183 | a text with neither a dollar symbol nor an asset name identifies no asset |
| LatencyGuard.ScanFirstMax | domain/services/signal_integrity/latency_guard_agent.py:203-216 | the scan keeps the first largest step: no counted step is larger, and the result is either (0, 0) or a non-flat step strictly larger than every step before it, with the seconds from that point to the tweet |
| LatencyGuard.PriceMovement | domain/services/signal_integrity/latency_guard_agent.py:185-221 | fewer than two points give (0.0, 0); a zero change always comes with a zero delta |
| LatencyGuard.CheckPriceMovement | domain/services/signal_integrity/latency_guard_agent.py:185-221 | the loop computes the scan's result, (0.0, 0) for fewer than two points, and otherwise the first largest step |
| LatencyGuard.FirstMaxStep | domain/services/signal_integrity/latency_guard_agent.py:203-216 | a non-trivial result names the step it comes from |
| LatencyGuard.FirstMaxUnique | domain/services/signal_integrity/latency_guard_agent.py:203-216 | the first largest step is unique |
| LatencyGuard.Threshold | domain/services/signal_integrity/latency_guard_agent.py:66-71 | the repricing threshold is 0.05 for Ethereum and 0.03 for Bitcoin and any other asset |
| LatencyGuard.RepricedAsWritten | domain/services/signal_integrity/latency_guard_agent.py:130-132 | as written a move reprices exactly when it exceeds 0.03 (0.05 for Ethereum) in either direction, measured in percent, and happened over two minutes before |
| LatencyGuard.Repriced | domain/services/signal_integrity/latency_guard_agent.py:66-71 | under the intended rule a move reprices exactly when it exceeds 3 percent (5 percent for Ethereum) in either direction and happened over two minutes before |
| LatencyGuard.HalfPercentMove | domain/services/signal_integrity/latency_guard_agent.py:66-71 | a half-percent Bitcoin move five minutes before the tweet is repriced under the rule as written but not under the intended one |
| LatencyGuard.RepricedStricter | domain/services/signal_integrity/latency_guard_agent.py:130-132 | every move the intended rule flags is also flagged by the rule as written |
| LatencyGuard.Analyze | domain/services/signal_integrity/latency_guard_agent.py:101-152 | no asset gives the neutral result and leaves the store; a repriced result names an asset and a delta over 120 seconds; a result that is not repriced leaves the store; repricing is decided by the given rule on the movement of the asset's series; fewer than two points never reprice |
| LatencyGuard.LogLatencyEvent | domain/services/signal_integrity/latency_guard_agent.py:384-403 | the event is stored under the timestamp key with the asset, unrounded change and delta, and text cut to 200 characters; no other key changes |
| LatencyGuard.RepricedIsLogged | domain/services/signal_integrity/latency_guard_agent.py:134-136 | a result is repriced exactly when its event is logged, with the unrounded change |
| LatencyGuard.NoAssetIgnoresFeed | domain/services/signal_integrity/latency_guard_agent.py:114-123 | a tweet naming no asset never consults the price feed |
| LatencyGuard.ReportedChange | domain/services/signal_integrity/latency_guard_agent.py:138-143 | the reported change is the first largest step, rounded to two places |
| LatencyGuard.HumanReview | domain/services/signal_integrity/latency_guard_agent.py:405-439 | review is triggered exactly for a repriced result with a change beyond 5 percent, a news word in the text and a delta over ten minutes |
| LatencyGuard.ReviewedIsLogged | domain/services/signal_integrity/latency_guard_agent.py:101-152 | a reviewed tweet named an asset, moved over ten minutes before and left a flag in the store |
| LatencyGuard.RoundedBeyondFive | domain/services/signal_integrity/latency_guard_agent.py:434 | a rounded change beyond 5 percent comes from a raw change beyond 5 percent |
| LatencyGuard.ReviewUnaffectedByThreshold | domain/services/signal_integrity/latency_guard_agent.py:130-132 | for a change large enough for review, the rule as written and the intended rule agree |
| LatencyGuard.RulesAgreeOnReview | domain/services/signal_integrity/latency_guard_agent.py:101-152 | the two rules find the same asset, delta and reported change; whatever the intended rule reprices is repriced as written; and the human-review decision is the same |
| EchoMapper.LowerAll | domain/services/signal_integrity/echo_mapper_agent.py:188 | each term is lower-cased, in order |
| EchoMapper.RawKeywords | domain/services/signal_integrity/echo_mapper_agent.py:176-197 | without a ticker or a crypto term there are no keywords (project names alone do not count); the tickers come first |
| EchoMapper.ExtractKeywords | domain/services/signal_integrity/echo_mapper_agent.py:147-200 | at most three distinct keywords, all drawn from the raw list; none exactly when no ticker or term was found; three whenever the raw list has three distinct ones, and every raw keyword when it has at most three |
| EchoMapper.TopicKey | domain/services/signal_integrity/echo_mapper_agent.py:133 | no keywords give the empty topic, the first keyword starts the topic, and a single keyword is the topic |
| EchoMapper.TopicKeySplits | domain/services/signal_integrity/echo_mapper_agent.py:133 | the topic key of keywords without underscores splits back into those keywords |
| EchoMapper.Synonyms | domain/services/signal_integrity/echo_mapper_agent.py:207-216 | a key absent from the expansion table has no synonyms |
| EchoMapper.AllSynonyms | domain/services/signal_integrity/echo_mapper_agent.py:218-220 | every collected synonym belongs to the upper-cased form of some keyword |
| EchoMapper.AllSynonymsComplete | domain/services/signal_integrity/echo_mapper_agent.py:218-220 | every synonym of every keyword's upper-cased form is collected |
| EchoMapper.ExpandWith | domain/services/signal_integrity/echo_mapper_agent.py:202-222 | the expansion keeps every keyword, lists no term twice, and adds only synonyms of the keywords |
| EchoMapper.ExpandKeywordsAsWritten | domain/services/signal_integrity/echo_mapper_agent.py:202-222 | the expansion with the table as written keeps every keyword |
| EchoMapper.ExpandKeywords | domain/services/signal_integrity/echo_mapper_agent.py:202-222 | the corrected expansion keeps every keyword and lists no term twice |
| EchoMapper.ExpansionIncludesSynonyms | domain/services/signal_integrity/echo_mapper_agent.py:202-222 | every synonym of a keyword is in its expansion |
| EchoMapper.DedupAfterKeepsFresh | domain/services/signal_integrity/echo_mapper_agent.py:222 | distinct items not seen before are kept, in order, ahead of anything de-duplicated after them |
| EchoMapper.ExpansionStartsWithKeywords | domain/services/signal_integrity/echo_mapper_agent.py:202-222 | distinct keywords lead their expansion, whatever the synonym table |
| EchoMapper.ThreeKeywordsSearchedAsIs | domain/services/signal_integrity/echo_mapper_agent.py:110-116 | under the modelled first-occurrence order of `list(set(...))`, three keywords lead their expansion, so the Reddit search counts exactly them and the synonym table makes no difference; the program's hash order gives no such guarantee (see Left out) |
| EchoMapper.UpperNeverDeFi | domain/services/signal_integrity/echo_mapper_agent.py:210 | no upper-cased keyword is ever the mixed-case key 'DeFi' |
| EchoMapper.DefiNotExpanded | domain/services/signal_integrity/echo_mapper_agent.py:202-222 | as written, the keyword 'defi' expands to nothing but itself |
| EchoMapper.DefiExpanded | domain/services/signal_integrity/echo_mapper_agent.py:202-222 | with the corrected key, 'defi' expands to include 'decentralized finance' |
| EchoMapper.DeFiEntryUnused | domain/services/signal_integrity/echo_mapper_agent.py:207-220 | as written, the 'DeFi' entry can be deleted from the table without changing any expansion |
| EchoMapper.KeywordHits | domain/services/signal_integrity/echo_mapper_agent.py:236-242 | a keyword has no hits exactly when every subreddit search for it found nothing or failed |
| EchoMapper.TotalHits | domain/services/signal_integrity/echo_mapper_agent.py:235-242 | the total is zero exactly when no keyword has a hit |
| EchoMapper.SearchReddit | domain/services/signal_integrity/echo_mapper_agent.py:224-248 | without the Reddit client the count is 0; otherwise it is the hits for the first three keywords over all subreddits, capped at 20; the loop computes `RedditCount` |
| EchoMapper.RedditCount | domain/services/signal_integrity/echo_mapper_agent.py:224-248 | the count is at most 20, 0 without the client, 20 exactly when the hits for the first three keywords reach 20, and otherwise those hits |
| EchoMapper.Observe | domain/services/signal_integrity/echo_mapper_agent.py:110-128 | the Reddit count lies in [0, 20] and is 0 without the client; Farcaster and Discord count 0; the velocity is that of the total and lies in [0, 1]; the assessment is 'Low' |
| EchoMapper.Velocity | domain/services/signal_integrity/echo_mapper_agent.py:275-284 | no mentions give velocity 0; any non-negative total gives a velocity in [0, 1] |
| EchoMapper.RoundUnit | domain/services/signal_integrity/echo_mapper_agent.py:284 | rounding keeps a number in [0, 1] inside [0, 1] |
| EchoMapper.VelocityMonotone | domain/services/signal_integrity/echo_mapper_agent.py:275-284 | more mentions never lower the velocity |
| EchoMapper.PreviousVelocity | domain/services/signal_integrity/echo_mapper_agent.py:286-303 | a topic with no record has no previous velocity; an echo record gives its stored velocity |
| EchoMapper.EchoRecord | domain/services/signal_integrity/echo_mapper_agent.py:286-305 | the record's total is the sum of the three counts; the previous velocity and the change are present exactly when an earlier record is, and they add up to the new velocity |
| EchoMapper.AgentEchoAgrees | domain/services/signal_integrity/echo_mapper_agent.py:286-305 | on a well-formed store the agent's record is the one the memory manager's update writes |
| EchoMapper.Analyze | domain/services/signal_integrity/echo_mapper_agent.py:93-145 | a tweet without keywords gives the zero result and leaves the store; the Reddit count lies in [0, 20] and is 0 without the client; the other platforms count 0; the velocity lies in [0, 1]; the virality assessment stays 'Low' |
| EchoMapper.AnalysisRecords | domain/services/signal_integrity/echo_mapper_agent.py:93-145 | with keywords, either an unreadable record gives the zero result and no change, or the counts, total and velocity returned are recorded under the topic next to the earlier velocity and no other key changes |
| EchoMapper.NoKeywordsNoSearch | domain/services/signal_integrity/echo_mapper_agent.py:106-108 | a tweet without keywords never reaches the platform searches |
| Tweets.ContentType.Name | domain/entities/tweet.py:16-24 | every content type has a non-empty string value |
| Tweets.ParseContentType | domain/entities/tweet.py:188 | the enum lookup by value finds the member whose value is the string, and finds nothing exactly when no member has that value |
| Tweets.EngagementScore | domain/entities/tweet.py:96-100 | the engagement score never exceeds 10, reaches 10 exactly when a tweet has at least 1000 interactions, and is non-negative for non-negative counts |
| Tweets.EngagementMonotone | domain/entities/tweet.py:96-100 | more likes, retweets, replies or quotes never lower the engagement score |
| Tweets.UserMetadataEntry | domain/entities/tweet.py:115-136 | `to_dict` always writes a user_metadata entry, which is a dictionary exactly when the tweet has user metadata |
| Tweets.Strs | domain/entities/tweet.py:129 | the external links are written as a list of the same length holding each link as a string |
| Tweets.ReadStr | domain/entities/tweet.py:193-197 | a missing text field reads as the empty string, a present string is returned as it is, and a field reads without error exactly when it is missing or holds a string |
| Tweets.ReadInt | domain/entities/tweet.py:198-201 | a missing count reads as 0, a present integer is returned as it is, and a count reads without error exactly when it is missing or holds an integer |
| Tweets.ReadBool | domain/entities/tweet.py:157 | a missing flag reads as false, a present boolean is returned as it is, and the flag reads without error exactly when it is missing or boolean |
| Tweets.ReadOptStr | domain/entities/tweet.py:178-180 | a missing or None optional text field reads as None, a present string as that string, and the field reads without error exactly in those cases |
| Tweets.ReadOptInt | domain/entities/tweet.py:181 | a missing or None thread position reads as None, a present integer as that integer, and the field reads without error exactly in those cases |
| Tweets.ReadRecord | domain/entities/tweet.py:159 | a missing nested record reads as the empty dictionary, a present dictionary as its fields, and the field reads without error exactly in those cases |
| Tweets.ReadValues | domain/entities/tweet.py:167-168 | a missing list reads as the empty list, a present list as its items, and the field reads without error exactly in those cases |
| Tweets.ReadReal | domain/entities/tweet.py:169 | a missing processing time reads as 0.0, a present float as itself and a present integer as its value, and the field reads without error exactly in those cases |
| Tweets.StrList | domain/entities/tweet.py:204 | reading a list of links succeeds exactly when every element is a string, and then gives those strings in order |
| Tweets.StrListStrs | domain/entities/tweet.py:129 | reading back the written list of links gives the same links |
| Tweets.ReadInstant | domain/entities/tweet.py:143-144 | a missing time is the current time, an ISO string gives the instant it names, and a datetime object is accepted only where objects are allowed |
| Tweets.ReadContentType | domain/entities/tweet.py:184-190 | no content type without the key; a non-empty string gives a content type, which is OTHER exactly when no other member has that value |
| Tweets.FromDictWith | domain/entities/tweet.py:139-209 | the content type follows the content-type rule, missing creation and processing times are the current time, and the conversation context is kept as given; the tweet's own times go through `fromisoformat` whatever the user metadata allows |
| Tweets.FromDictAsWritten | domain/entities/tweet.py:139-209 | whenever the as-written reader succeeds, it agrees with the corrected reader |
| Tweets.TopLevelDateTimeRejected | domain/entities/tweet.py:143-144 | a `datetime` object as the tweet's own creation time makes both readers raise |
| Tweets.ReadOptUserObjects | domain/entities/tweet.py:148-150 | whenever the user metadata reads without error as written, the reader that also accepts `datetime` objects reads the same user |
| Tweets.UserReadFails | domain/entities/tweet.py:143-150 | a dictionary whose own times are ISO texts but whose user record holds a `datetime` creation time makes the reader as written raise |
| Tweets.FromDict | domain/entities/tweet.py:139-209 | the corrected reader's content type follows the content-type rule |
| Tweets.UserRoundTrip | domain/entities/tweet.py:127 | the user metadata dictionary reads back as the same user metadata |
| Tweets.MediaRoundTrip | domain/entities/tweet.py:128 | the media attachment dictionary reads back as the same attachment |
| Tweets.ThreadRoundTrip | domain/entities/tweet.py:130 | the thread context dictionary reads back as the same context |
| Tweets.IdentityRoundTrip | domain/entities/tweet.py:118-122 | a tweet's id, text and author fields read back unchanged from its dictionary |
| Tweets.CountsRoundTrip | domain/entities/tweet.py:123-126 | a tweet's four counts read back unchanged from its dictionary |
| Tweets.ListsRoundTrip | domain/entities/tweet.py:129-132 | a tweet's links and content type read back unchanged from its dictionary |
| Tweets.NestedRoundTrip | domain/entities/tweet.py:127-130 | a tweet's user metadata, media and thread context read back unchanged from its dictionary |
| Tweets.RoundTrip | domain/entities/tweet.py:115-209 | reading a tweet's dictionary with the corrected reader gives back the same tweet |
| Tweets.RoundTripWithoutUser | domain/entities/tweet.py:115-209 | without user metadata, the reader as written also gives back the same tweet |
| Tweets.ReadersAgree | domain/entities/tweet.py:139-209 | the reader as written and the corrected reader differ only in how they read the user metadata: where that reads alike, the whole tweet does |
| Tweets.UserMetadataBreaksRoundTrip | domain/entities/tweet.py:127 | with user metadata, the reader as written fails on the tweet's own dictionary |
| Tweets.FromEmptyDict | domain/entities/tweet.py:192-208 | an empty dictionary gives a tweet with empty strings, zero counts, no nested records, the current time for both times and no content type |
| Tweets.UnknownContentType | domain/entities/tweet.py:189-190 | a content type value that no member has reads as OTHER |
| Rounding.Clamp | domain/services/orchestration/enhanced_score_consolidator.py:386 | the clamped score lies within the bounds, equals the input when it already does, and equals the nearer bound otherwise |
| Rounding.RoundHalfEven | domain/services/orchestration/enhanced_score_consolidator.py:388 | rounding to a whole number moves the value by at most one half, and a tie goes to the even neighbour |
| Rounding.RoundError | domain/services/orchestration/enhanced_score_consolidator.py:388 | rounding to n decimal places moves the value by at most half a unit in the last place |
| Rounding.RoundMonotone | domain/services/orchestration/enhanced_multi_agent_analyzer.py:473 | rounding never reverses the order of two scores |
| Rounding.RoundFixes | domain/services/signal_integrity/slop_filter_agent.py:179 | a value that already has n decimal places is unchanged by rounding to n places |
| Rounding.RoundStaysWithin | domain/services/signal_integrity/banned_phrase_skeptic_agent.py:190-191 | rounding to two places keeps a value inside any interval whose ends have two decimal places |
| Rounding.RoundExamples | domain/services/signal_integrity/banned_phrase_skeptic_agent.py:190-191 | rounding follows round-half-even on exact decimals, as in 0.125 to 0.12 and 1.5 to 2 |
| Text.ReplaceAbsent | domain/services/memory/memory_namespace_manager.py:216 | `replace` leaves a string in which the pattern never occurs unchanged |
| Text.ReplaceLeading | domain/services/memory/memory_namespace_manager.py:216 | `replace` substitutes an occurrence at the front and carries on scanning right after it |
| Text.Find | domain/services/multi_agent_analyzer.py:433-434 | the search returns the first position at or after the start where the pattern occurs, or -1 exactly when there is none |
| Text.RFind | domain/services/multi_agent_analyzer.py:443 | the reverse search returns the last position where the pattern occurs, or -1 exactly when it does not occur |
| Text.Strip | domain/services/multi_agent_analyzer.py:435 | stripping removes only leading and trailing whitespace, leaving a slice of the text that neither starts nor ends with whitespace |
| Text.LowerStrip | domain/services/signal_integrity/banned_phrase_skeptic_agent.py:277 | lower-casing then stripping gives the same term as stripping then lower-casing |
| Text.SplitJoin | domain/services/orchestration/enhanced_multi_agent_analyzer.py:488 | splitting a colon-joined key on the colon gives back its parts, so the namespace is the part before the first colon |
| Text.WordsOfJoin | domain/services/signal_integrity/slop_filter_agent.py:206 | splitting a space-joined sequence of words on whitespace gives back those words |
| Text.Dedup | domain/services/signal_integrity/echo_mapper_agent.py:198 | removing duplicates keeps exactly the same set of keywords, each once, and never lengthens the list |
| Weighting.AverageWithin | domain/services/multi_agent_analyzer.py:399 | a weighted average of scores that all lie in a range lies in the same range |
| Sums.MeanBounds | domain/services/multi_agent_analysis_service.py:411 | the mean of numbers that all lie in a range lies in the same range |
| Tallies.AddToCounts | domain/services/signal_integrity/banned_phrase_skeptic_agent.py:298 | adding to a term's count raises that term's count by the amount, leaves every other count alone, and raises the total by the amount |
| Tallies.AddToNames | domain/services/signal_integrity/banned_phrase_skeptic_agent.py:298 | after an update the keys are the old keys plus the updated term, and keys stay distinct |
| Tallies.AddTo | domain/services/signal_integrity/banned_phrase_skeptic_agent.py:298 | an update keeps every key at its position and adds at most one entry |
| Sorting.SortDesc | domain/services/memory/memory_namespace_manager.py:274 | sorting by count in reverse gives a permutation of the entries in descending count order |
| Sorting.InsertSorted | domain/services/memory/memory_namespace_manager.py:274 | inserting an entry into a list in descending order keeps it in descending order |
| Analyzer.Pipeline | domain/services/multi_agent_analyzer.py:104-271 | the two phases keep the tweet's id, run and timestamp, and leave the local response map and the result with the same, distinct names |
| Values.AsInt | domain/services/signal_integrity/echo_mapper_agent.py:123-125 | a value counts as an integer exactly when it is an int or a bool, as `isinstance(x, int)` decides |
| Tweets.ReadNested | domain/entities/tweet.py:148-149 | a missing or falsy nested record reads as absent, a truthy dictionary as its fields, and a truthy value of any other type raises |
| Tweets.DerivedEntriesAgree | domain/entities/tweet.py:96-136 | the engagement score, the `has_media` flag and the `is_thread_tweet` flag stored in a tweet's dictionary equal those recomputed from the tweet read back from it |
| Tweets.DerivedFlagsFromEntries | domain/entities/tweet.py:103-136 | in a tweet's dictionary, `has_media` is true exactly when the stored attachments are a dictionary with a non-empty `links_analyzed` or `images_analyzed` list, and `is_thread_tweet` is true exactly when the stored thread context is a dictionary whose `is_thread` is true |

## Left out

- Network, language-model and exchange calls are parameters of the model. These are the agents' OpenAI calls, the sarcasm LLM check, the Reddit/Farcaster/Discord searches and the Binance/Coinbase price fetchers with their cache and random fallback prices. The Farcaster and Discord stubs are covered by the search parameter.
- Concurrency and wall-clock time are modelled without time passing. `asyncio.gather` and `wait_for` become per-task outcomes; `asyncio.sleep` and `retry_delay` are only counted; `datetime.now()` is an integer parameter. Time zones and `strftime` formatting are not modelled.
- JSON decoding and regular-expression matching are parameters. Non-ASCII `\w` and Unicode whitespace are not modelled; `lower`/`upper` are ASCII.
- Echo velocity: the exponential `2.718 ** (-total / 10)` is the parameter `decay`. Only its range and monotonicity are assumed, as the hypothesis `IsDecay` of the contracts that need it.
- The sarcasm classifier is not modelled. It is never loaded, so its score is always 0.0.
- File I/O is not modelled: loading the extracted tweets, saving integrated and intermediate results, and the output directory. Intermediate saves are recorded as the list of tweet ids saved.
- Formatted text is not modelled: the consolidator's `_generate_reasoning`, the latency and echo reason strings, log messages and the timestamped analysis id. Where the program branches on a reason, only the branch is modelled.
- Thin lookups are covered only by the store's getters: `get_author_violation_history`, `get_author_slop_history` and `get_topic_history`.
- Store reports are not modelled: `get_violation_report`, `get_trending_topics`, `get_recent_latency_flags`, and the oldest/newest entry and size estimate of `get_memory_statistics`. They are reporting views over the same store.
- Service statistics and reports are not modelled: `get_asset_volatility`, `get_score_breakdown`, `_calculate_quality_metrics`, `_generate_recommendations`, `get_analysis_stats` and `reset_stats`. These are reporting helpers outside the scoring path.
- Serialisation and prompt formatting are not modelled: `AnalysisResult.to_dict`, `_prepare_comprehensive_input`, `_format_media_links` and `_format_thread_context`.
- The enhanced analyzer's `analyze_tweet`, `_execute_enhanced_agents` and `_check_api_availability` are not modelled as such. These wire the agents together; their arithmetic is modelled as separate functions.
- The enhanced analyzer's latency short-cut in `analyze_tweet` is not modelled. For a repriced tweet it sets `AnalysisStatus.REQUIRES_HUMAN_REVIEW`, which the status enumeration does not define, so that path raises `AttributeError`; the repricing decision itself is modelled by `LatencyGuard.Analyze`.
- Floating-point representation error is not modelled. Scores are exact reals, so `round` on a value such as 2.675 gives 2.68 where a double would give 2.67.
- EchoMapper.ThreeKeywordsSearchedAsIs: `list(set(...))` has an order that depends on hashing. The model keeps the first occurrence of each element in input order (`EchoMapper.ExtractKeywords`, `EchoMapper.ExpandWith`). Under hash order a synonym can be among the three terms the Reddit search takes, so this lemma's table-independence is a property of the modelled order only.
- Tweets.ReadStr: a dictionary value of a type other than the field's is an exception here. Python would keep the foreign value in the field. The same holds for the other typed readers.
- Tweets.FromDictWith: `has_media`, `is_thread_tweet` and `engagement_score` are stored by `to_dict` but not read back. The reader recomputes them (see `Tweets.DerivedEntriesAgree`).
- BatchProcessing.ProcessTweetsBatch: a pause follows every batch including the last, as in the program. The intermediate-save `try` block is not modelled.
- MemoryStore: a record of another shape stored under a namespace's key makes the typed getters raise. The program only ever writes the one shape per namespace.
- Values.ToFloat: only optional whitespace, an optional sign and decimal digits with at most one point are read. Exponents (`1e3`), `inf`, `nan` and digit-group underscores (`1_000`), which `float()` also accepts, count as unconvertible here, so such a score is skipped as a text that does not convert.
- Exception texts: the batch run's failed report carries `Analysis failed: ` followed by `str(e)`, with no exception type, as the program writes it. Elsewhere an exception's text is modelled only as a tag naming its type and cause (`TypeError: ...`, `KeyError: count`); none of those reaches the batch report, whose per-tweet messages use the text each failed analysis call supplies as its `str(e)`.
- JsonParsing.ParseJsonSafe: the parameter `decode` yields a record or nothing. A candidate that `json.loads` decodes to a list, string or number is treated as one that does not decode.
- EchoMapper.RedditCount: a failing `import praw` and a missing Reddit client both give 0. The availability parameter stands for both.
- Sorting.SortDesc: the order among equal keys is not stated, so which of several tied terms `[:top_n]` keeps is left open.

## Findings

| source | as written | input that shows it | evidently intended | confidence | as-written member | corrected member |
|---|---|---|---|---|---|---|
| domain/services/signal_integrity/banned_phrase_skeptic_agent.py:379-381 | escalation checks whether `scam`, `trash`, `garbage` or `shit` is an element of `banned_terms`, but every reported term has the form `"<match> (<note>)"`, so the clause can never fire | a tweet "this is a scam" whose scam pattern is flagged reports `"scam (...)"`; with a tone penalty of at most 0.8 and an author who is not a chronic violator, no escalation follows | escalate when a reported term, with its note removed, is one of the four words | not executed | BannedPhrases.ShouldEscalate (with BannedPhrases.InappropriateNeverReported, BannedPhrases.EscalationIgnoresWords) | BannedPhrases.ShouldEscalateCorrected (with BannedPhrases.CorrectedEscalatesOnWord) |
| domain/services/signal_integrity/latency_guard_agent.py:66-71 | the thresholds are fractions (0.03 for 3 percent, 0.05 for 5 percent), but they are compared with a change measured in percent at line 131, so a 0.04 percent move already counts as repriced | a BTC move of 0.5 percent 300 seconds before the tweet is reported as repriced | compare the percent change with the threshold times 100: over 3 percent for BTC and the default, over 5 percent for ETH | not executed | LatencyGuard.RepricedAsWritten (with LatencyGuard.HalfPercentMove; `LatencyGuard.Analyze` under `AsWritten`) | LatencyGuard.Repriced (with LatencyGuard.RepricedStricter and LatencyGuard.RulesAgreeOnReview; `LatencyGuard.Analyze` under `Intended`) |
| domain/services/signal_integrity/echo_mapper_agent.py:210 | the expansion table's key `'DeFi'` is looked up with `keyword.upper()`, which never yields `"DeFi"`, so DeFi keywords are never expanded | the keyword `"defi"` gains no synonyms | key the entry `'DEFI'` so that `defi` expands to "decentralized finance" | not executed | EchoMapper.ExpandKeywordsAsWritten (with EchoMapper.DefiNotExpanded, EchoMapper.UpperNeverDeFi; `EchoMapper.Analyze` with `ExpansionsAsWritten`) | EchoMapper.ExpandKeywords (with EchoMapper.DefiExpanded; `EchoMapper.Analyze` with `Expansions`) |
| domain/entities/tweet.py:127 | `to_dict` stores the user metadata's `__dict__`, so `created_at` stays a `datetime` object; `from_dict` (line 150) passes it to `fromisoformat`, which accepts only strings | any tweet with user metadata fails to read back from its own dictionary | write the user's `created_at` as an ISO string, or accept the `datetime` on reading, so that `from_dict(to_dict(t))` gives back `t` | not executed | Tweets.FromDictAsWritten (with Tweets.UserMetadataBreaksRoundTrip) | Tweets.FromDict (with Tweets.RoundTrip) |
| domain/services/orchestration/enhanced_score_consolidator.py:163-164 | `_calculate_base_score` (and the steps after it, down to `_assess_confidence_level` at line 430) call `.get` on the `AgentResponse` records the analysis result stores; the dataclass has no such method, so `AttributeError` sends every analysis holding a response to the `except` branch at line 132 | an analysis holding one successful summary response scored 8.0 gives the fallback result: base and final score 5.0, no adjustments, the single flag consolidation_error and confidence 'low' | read each record's `status` and `response_data` attributes | not executed | Consolidation.ConsolidateScoresAsWritten (with Consolidation.SummaryOnlyDiscarded) | Consolidation.ConsolidateScores (with Consolidation.SignalsAbsent) |
| domain/services/orchestration/enhanced_multi_agent_analyzer.py:430-473 | `_apply_enhanced_score_adjustments` calls `.get` on the stored `AgentResponse` of each signal agent; when one is present the call raises, the `except` at line 475 swallows it, and the score stays as it was | a successful echo response of velocity 1.0 on a tweet scored 5.0 leaves the score at 5.0 | read the records' attributes, so that the echo boost raises the score to 6.0 | not executed | Enhanced.ApplyEnhancedAsWritten (with Enhanced.AsWrittenIgnoresEcho) | Enhanced.ApplyEnhancedAdjustments (with Enhanced.AsWrittenAgreesWithoutSignals) |
