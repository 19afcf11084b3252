/**
 * The analysis service's batch driver: tweets are taken in slices of `batch_size`, each tweet is
 * analysed with bounded retries, and the run records which tweets succeeded and which failed.
 *
 * The analyzer is an oracle: `calls(k)(j)` is what the `j`-th call (from 0) for the `k`-th tweet
 * returned. Sleeping, file writes and clocks are counted or left out.
 */
module BatchProcessing {
  import opened Wrappers
  import opened Sums
  import opened AnalysisResults

  /** The fields of `AnalysisConfig` the batch driver reads. */
  datatype Config = Config(maxRetries: int, retryDelay: int, batchSize: int, continueOnFailure: bool,
                           saveIntermediate: bool)

  /** `AnalysisConfig`'s defaults. */
  const DefaultConfig: Config := Config(3, 30, 5, true, true)

  /** One call of `analyze_tweet`: a result, an empty answer, or an exception with its message. */
  datatype Outcome = Analysed(result: AnalysisResult) | Empty | Failed(message: string)

  /** The integrated record for a successfully analysed tweet. */
  datatype Integrated = Integrated(tweetId: string, attempts: nat, analysis: AnalysisResult)

  /**
   * What `_analyze_single_tweet_with_retry` did: its answer (a record, `None`, or the exception it
   * raised), the error strings it appended, how often it slept and how often it called the analyzer.
   */
  datatype RetryRun = RetryRun(answer: Result<Option<Integrated>>, errors: seq<string>, sleeps: nat, attempts: nat)

  // ---------------------------------------------------------------------------------------------
  // Retries
  // ---------------------------------------------------------------------------------------------

  /** `str(e)` for a failed call; an empty answer raises "Analysis returned empty result". */
  function ErrorText(o: Outcome): string
  {
    match o
    case Failed(m) => m
    case _ => "Analysis returned empty result"
  }

  /** The decimal digits of `n`. */
  function DecimalText(n: nat): (s: string)
    ensures |s| > 0
    decreases n
  {
    var d := ['0', '1', '2', '3', '4', '5', '6', '7', '8', '9'][n % 10];
    if n < 10 then [d] else DecimalText(n / 10) + [d]
  }

  /** The number of calls the retry loop allows: `max_retries + 1`, none for a negative limit. */
  function Allowed(cfg: Config): nat
  {
    if cfg.maxRetries >= 0 then cfg.maxRetries + 1 else 0
  }

  /** The first of the calls `0 .. n - 1` that returned a result. */
  function FirstSuccess(attempt: nat -> Outcome, n: nat): (r: Option<nat>)
    ensures r.Some? ==> r.value < n && attempt(r.value).Analysed? && forall j :: 0 <= j < r.value ==> !attempt(j).Analysed?
    ensures r.None? <==> forall j :: 0 <= j < n ==> !attempt(j).Analysed?
  {
    if n == 0 then None
    else match FirstSuccess(attempt, n - 1)
      case Some(j) => Some(j)
      case None => if attempt(n - 1).Analysed? then Some(n - 1) else None
  }

  /** Some allowed call returns a result. */
  ghost predicate Succeeds(calls: nat -> Outcome, cfg: Config)
  {
    exists j :: 0 <= j < Allowed(cfg) && calls(j).Analysed?
  }

  /**
   * The retry loop's outcome, stated directly: the first successful call wins and records how many
   * calls it took; otherwise every allowed call failed, one error string names the last failure, and
   * the tweet is dropped or the run aborted.
   */
  function RetrySpec(tweetId: string, cfg: Config, calls: nat -> Outcome): (run: RetryRun)
    ensures run.attempts <= Allowed(cfg)
    ensures run.sleeps == if run.attempts > 0 then run.attempts - 1 else 0
    ensures run.answer.Ok? && run.answer.value.Some? ==>
      run.answer.value.value.tweetId == tweetId && run.answer.value.value.attempts == run.attempts && run.errors == [] && run.attempts > 0 && calls(run.attempts - 1).Analysed?
    ensures forall j :: 0 <= j < run.attempts - 1 ==> !calls(j).Analysed?
    ensures run.answer.Raised? || run.answer.value.None? ==> run.attempts == Allowed(cfg)
    ensures |run.errors| == (if run.attempts > 0 && !(run.answer.Ok? && run.answer.value.Some?) then 1 else 0)
  {
    var n := Allowed(cfg);
    match FirstSuccess(calls, n)
    case Some(j) => RetryRun(Ok(Some(Integrated(tweetId, j + 1, calls(j).result))), [], j, j + 1)
    case None =>
      if n == 0 then RetryRun(Ok(None), [], 0, 0)
      else
        var error := "Tweet " + tweetId + ": " + ErrorText(calls(n - 1));
        var answer := if cfg.continueOnFailure then Ok(None)
          else Raised("Analysis failed for tweet " + tweetId + " after " + DecimalText(n - 1) + " retries");
        RetryRun(answer, [error], n - 1, n)
  }

  /** A tweet yields a record exactly when some allowed call succeeds; the run aborts exactly when none does and failures do not continue. */
  lemma {:induction false} RetryAnswers(tweetId: string, cfg: Config, calls: nat -> Outcome)
    ensures var run := RetrySpec(tweetId, cfg, calls);
      (run.answer.Ok? && run.answer.value.Some?) <==> Succeeds(calls, cfg)
    ensures RetrySpec(tweetId, cfg, calls).answer.Raised? <==>
      !cfg.continueOnFailure && Allowed(cfg) > 0 && !Succeeds(calls, cfg)
  {
    var r := FirstSuccess(calls, Allowed(cfg));
    if r.Some? {
      assert calls(r.value).Analysed?;
    }
  }

  /** `_analyze_single_tweet_with_retry` as the loop the service runs. */
  method AnalyzeWithRetry(tweetId: string, cfg: Config, calls: nat -> Outcome) returns (run: RetryRun)
    ensures run == RetrySpec(tweetId, cfg, calls)
  {
    var retries: nat := 0;
    var errors: seq<string> := [];
    var sleeps: nat := 0;
    while retries <= cfg.maxRetries
      invariant retries <= Allowed(cfg)
      invariant forall j :: 0 <= j < retries ==> !calls(j).Analysed?
      invariant retries < Allowed(cfg) ==> sleeps == retries && errors == []
      invariant retries == Allowed(cfg) && retries > 0 ==>
        (sleeps == retries - 1 && cfg.continueOnFailure && errors == ["Tweet " + tweetId + ": " + ErrorText(calls(retries - 1))])
      invariant retries == 0 ==> sleeps == 0 && errors == []
      decreases Allowed(cfg) - retries
    {
      var outcome := calls(retries);
      if outcome.Analysed? {
        assert FirstSuccess(calls, Allowed(cfg)) == Some(retries);
        return RetryRun(Ok(Some(Integrated(tweetId, retries + 1, outcome.result))), errors, sleeps, retries + 1);
      }
      var lastError := ErrorText(outcome);
      retries := retries + 1;
      if retries <= cfg.maxRetries {
        sleeps := sleeps + 1;
      } else {
        errors := errors + ["Tweet " + tweetId + ": " + lastError];
        if !cfg.continueOnFailure {
          assert FirstSuccess(calls, Allowed(cfg)).None?;
          return RetryRun(Raised("Analysis failed for tweet " + tweetId + " after " + DecimalText(cfg.maxRetries) + " retries"),
                          errors, sleeps, retries);
        }
      }
    }
    assert FirstSuccess(calls, Allowed(cfg)).None?;
    return RetryRun(Ok(None), errors, sleeps, retries);
  }

  // ---------------------------------------------------------------------------------------------
  // Batches
  // ---------------------------------------------------------------------------------------------

  /** The slices `xs[i:i + size]` for `i` in `range(0, len(xs), size)`. */
  function Batches<T>(xs: seq<T>, size: nat): (bs: seq<seq<T>>)
    requires size > 0
    ensures forall i :: 0 <= i < |bs| ==> 0 < |bs[i]| <= size
    ensures |bs| == 0 <==> |xs| == 0
    decreases |xs|
  {
    if |xs| == 0 then []
    else if |xs| <= size then [xs]
    else [xs[..size]] + Batches(xs[size..], size)
  }

  /** Taking one slice at offset `i` leaves the slices of the rest. */
  lemma {:induction false} BatchesStep<T>(xs: seq<T>, i: nat, size: nat)
    requires size > 0 && i < |xs|
    ensures |Batches(xs[i..], size)| == 1 + |Batches(xs[if i + size < |xs| then i + size else |xs|..], size)|
  {
    if i + size < |xs| {
      assert xs[i..][size..] == xs[i + size..];
    }
  }

  function Flatten<T>(bs: seq<seq<T>>): seq<T>
  {
    if |bs| == 0 then [] else bs[0] + Flatten(bs[1..])
  }

  /** The slices cover every tweet exactly once, in order. */
  lemma {:induction false} BatchesCover<T>(xs: seq<T>, size: nat)
    requires size > 0
    ensures Flatten(Batches(xs, size)) == xs
    decreases |xs|
  {
    if |xs| > size {
      BatchesCover(xs[size..], size);
      assert xs == xs[..size] + xs[size..];
    } else if |xs| > 0 {
      assert Flatten([xs]) == xs + Flatten<T>([]);
    }
  }

  /** What the batch loop has gathered. */
  datatype Stats = Stats(successful: nat, failed: nat, analyzed: seq<string>, failedIds: seq<string>,
                         errors: seq<string>, results: seq<Integrated>, saves: seq<string>, retrySleeps: nat)

  const NoStats: Stats := Stats(0, 0, [], [], [], [], [], 0)

  /** The text of the `ValueError` that `range` raises for a zero step. */
  const ZeroStep := "range() arg 3 must not be zero"

  /** The stats after one more tweet, or the exception its retry loop raised. */
  function Record(s: Stats, id: string, run: RetryRun, save: bool): Result<Stats>
  {
    match run.answer
    case Raised(e) => Raised(e)
    case Ok(Some(res)) =>
      Ok(s.(successful := s.successful + 1, analyzed := s.analyzed + [id], results := s.results + [res],
            saves := s.saves + (if save then [id] else []),
            errors := s.errors + run.errors, retrySleeps := s.retrySleeps + run.sleeps))
    case Ok(None) =>
      Ok(s.(failed := s.failed + 1, failedIds := s.failedIds + [id], errors := s.errors + run.errors,
            retrySleeps := s.retrySleeps + run.sleeps))
  }

  /** The stats after the first `n` tweets, given what each tweet's retry loop did. */
  function FoldRuns(ids: seq<string>, runs: seq<RetryRun>, save: bool, n: nat): (r: Result<Stats>)
    requires n <= |ids| && n <= |runs|
    decreases n
  {
    if n == 0 then Ok(NoStats)
    else
      var s :- FoldRuns(ids, runs, save, n - 1);
      Record(s, ids[n - 1], runs[n - 1], save)
  }

  /** One step of the fold: tweet `n` is recorded into the stats of the tweets before it. */
  lemma {:induction false} FoldRunsNext(ids: seq<string>, runs: seq<RetryRun>, save: bool, n: nat, s: Stats)
    requires n < |ids| && n < |runs| && FoldRuns(ids, runs, save, n) == Ok(s)
    ensures FoldRuns(ids, runs, save, n + 1) == Record(s, ids[n], runs[n], save)
  {
  }

  /** A run as the retry loop produces it for tweet `id`: a record names the tweet and comes without an error string, and a failure leaves at most one. */
  predicate SoundRun(id: string, run: RetryRun)
  {
    && (run.answer.Ok? && run.answer.value.Some? ==> run.answer.value.value.tweetId == id && run.errors == [])
    && |run.errors| <= 1
  }

  /** The retry loop's run for every tweet. */
  function Runs(ids: seq<string>, cfg: Config, calls: nat -> nat -> Outcome): (runs: seq<RetryRun>)
    ensures |runs| == |ids|
    ensures forall k :: 0 <= k < |ids| ==> runs[k] == RetrySpec(ids[k], cfg, calls(k))
  {
    seq(|ids|, k requires 0 <= k < |ids| => RetrySpec(ids[k], cfg, calls(k)))
  }

  /** After `n` tweets the counters add up to `n`, the id and result lists match them, and every analysed tweet was saved when saving is on. */
  lemma {:induction false} FoldCounts(ids: seq<string>, runs: seq<RetryRun>, save: bool, n: nat)
    requires n <= |ids| && n <= |runs| && FoldRuns(ids, runs, save, n).Ok?
    ensures var s := FoldRuns(ids, runs, save, n).value;
      && s.successful + s.failed == n
      && |s.analyzed| == |s.results| == s.successful && |s.failedIds| == s.failed
      && s.saves == if save then s.analyzed else []
    decreases n
  {
    if n > 0 {
      FoldCounts(ids, runs, save, n - 1);
    }
  }

  /** Every record carries the id it is listed under. */
  lemma {:induction false} FoldRecordsIds(ids: seq<string>, runs: seq<RetryRun>, save: bool, n: nat)
    requires n <= |ids| && n <= |runs| && FoldRuns(ids, runs, save, n).Ok?
    requires forall k :: 0 <= k < n ==> SoundRun(ids[k], runs[k])
    ensures var s := FoldRuns(ids, runs, save, n).value;
      |s.results| == |s.analyzed| && forall i :: 0 <= i < |s.results| ==> s.results[i].tweetId == s.analyzed[i]
    decreases n
  {
    if n > 0 {
      FoldRecordsIds(ids, runs, save, n - 1);
    }
  }

  /** Failed tweets leave at most one error string each and analysed ones none. */
  lemma {:induction false} FoldErrors(ids: seq<string>, runs: seq<RetryRun>, save: bool, n: nat)
    requires n <= |ids| && n <= |runs| && FoldRuns(ids, runs, save, n).Ok?
    requires forall k :: 0 <= k < n ==> SoundRun(ids[k], runs[k])
    ensures |FoldRuns(ids, runs, save, n).value.errors| <= FoldRuns(ids, runs, save, n).value.failed
    decreases n
  {
    if n > 0 {
      FoldErrors(ids, runs, save, n - 1);
    }
  }

  /** The analysed and failed id lists together hold exactly the tweets `xs`. */
  predicate Partitions(s: Stats, xs: seq<string>)
  {
    multiset(s.analyzed) + multiset(s.failedIds) == multiset(xs)
  }

  /** Recording tweet `n - 1` extends a partition of the tweets before it to a partition of the first `n`. */
  lemma {:induction false} RecordPartitions(s: Stats, run: RetryRun, save: bool, ids: seq<string>, n: nat, s': Stats)
    requires 0 < n <= |ids|
    requires Partitions(s, ids[..n - 1])
    requires Record(s, ids[n - 1], run, save) == Ok(s')
    ensures Partitions(s', ids[..n])
  {
    assert ids[..n] == ids[..n - 1] + [ids[n - 1]];
    assert multiset(ids[..n]) == multiset(ids[..n - 1]) + multiset{ids[n - 1]};
  }

  /** Every tweet lands in exactly one of the two id lists. */
  lemma {:induction false} FoldPartitions(ids: seq<string>, runs: seq<RetryRun>, save: bool, n: nat)
    requires n <= |ids| && n <= |runs| && FoldRuns(ids, runs, save, n).Ok?
    ensures Partitions(FoldRuns(ids, runs, save, n).value, ids[..n])
    decreases n
  {
    if n > 0 {
      FoldPartitions(ids, runs, save, n - 1);
      RecordPartitions(FoldRuns(ids, runs, save, n - 1).value, runs[n - 1], save, ids, n, FoldRuns(ids, runs, save, n).value);
    } else {
      assert ids[..n] == [];
    }
  }

  /** Once a tweet's retry loop raises, no later tweet changes the outcome. */
  lemma {:induction false} FoldStaysRaised(ids: seq<string>, runs: seq<RetryRun>, save: bool, k: nat, n: nat)
    requires k <= n <= |ids| && n <= |runs| && FoldRuns(ids, runs, save, k).Raised?
    ensures FoldRuns(ids, runs, save, n) == FoldRuns(ids, runs, save, k)
    decreases n - k
  {
    if k < n {
      FoldStaysRaised(ids, runs, save, k, n - 1);
    }
  }

  /** The batch loop's stats after the first `n` tweets, each through the retry loop. */
  function Fold(ids: seq<string>, cfg: Config, calls: nat -> nat -> Outcome, n: nat): (r: Result<Stats>)
    requires n <= |ids|
    ensures r.Ok? ==> r.value.successful + r.value.failed == n
    ensures r.Ok? ==> |r.value.analyzed| == |r.value.results| == r.value.successful && |r.value.failedIds| == r.value.failed
    ensures r.Ok? ==> r.value.saves == if cfg.saveIntermediate then r.value.analyzed else []
    ensures r.Ok? ==> |r.value.errors| <= r.value.failed
    ensures r.Ok? ==> forall i :: 0 <= i < |r.value.results| ==> r.value.results[i].tweetId == r.value.analyzed[i]
    ensures r.Ok? ==> Partitions(r.value, ids[..n])
  {
    var runs := Runs(ids, cfg, calls);
    var r := FoldRuns(ids, runs, cfg.saveIntermediate, n);
    if r.Ok? then
      assert forall k :: 0 <= k < n ==> SoundRun(ids[k], runs[k]);
      FoldCounts(ids, runs, cfg.saveIntermediate, n);
      FoldErrors(ids, runs, cfg.saveIntermediate, n);
      FoldRecordsIds(ids, runs, cfg.saveIntermediate, n);
      FoldPartitions(ids, runs, cfg.saveIntermediate, n);
      r
    else r
  }

  /** The batch loop's stats are the fold of the retry loop's runs. */
  lemma {:induction false} FoldIsFoldRuns(ids: seq<string>, cfg: Config, calls: nat -> nat -> Outcome, n: nat)
    requires n <= |ids|
    ensures Fold(ids, cfg, calls, n) == FoldRuns(ids, Runs(ids, cfg, calls), cfg.saveIntermediate, n)
  {
  }

  /** Tweet `n - 1` is appended to the analysed list when one of its allowed calls succeeds, else to the failed list. */
  lemma {:induction false} FoldStep(ids: seq<string>, cfg: Config, calls: nat -> nat -> Outcome, n: nat)
    requires 0 < n <= |ids| && Fold(ids, cfg, calls, n).Ok?
    ensures Fold(ids, cfg, calls, n - 1).Ok?
    ensures var before := Fold(ids, cfg, calls, n - 1).value;
      var after := Fold(ids, cfg, calls, n).value;
      if Succeeds(calls(n - 1), cfg) then after.analyzed == before.analyzed + [ids[n - 1]] && after.failedIds == before.failedIds
      else after.failedIds == before.failedIds + [ids[n - 1]] && after.analyzed == before.analyzed
  {
    RetryAnswers(ids[n - 1], cfg, calls(n - 1));
  }

  /** Some tweet exhausts its calls. */
  ghost predicate SomeExhausted(cfg: Config, calls: nat -> nat -> Outcome, n: nat)
  {
    exists k :: 0 <= k < n && !Succeeds(calls(k), cfg)
  }

  /** Some tweet among the first `n` raised in its retry loop. */
  ghost predicate SomeRaised(runs: seq<RetryRun>, n: nat)
    requires n <= |runs|
  {
    exists k :: 0 <= k < n && runs[k].answer.Raised?
  }

  /** The fold raises exactly when the retry loop of one of its tweets does. */
  lemma {:induction false} FoldRaises(ids: seq<string>, runs: seq<RetryRun>, save: bool, n: nat)
    requires n <= |ids| && n <= |runs|
    ensures FoldRuns(ids, runs, save, n).Raised? <==> SomeRaised(runs, n)
    decreases n
  {
    if n > 0 {
      FoldRaises(ids, runs, save, n - 1);
      if SomeRaised(runs, n) && !runs[n - 1].answer.Raised? {
        var k :| 0 <= k < n && runs[k].answer.Raised?;
        assert SomeRaised(runs, n - 1);
      }
    }
  }

  /** The run aborts exactly when failures do not continue and some tweet fails every allowed call. */
  lemma {:induction false} FoldAborts(ids: seq<string>, cfg: Config, calls: nat -> nat -> Outcome, n: nat)
    requires n <= |ids|
    ensures Fold(ids, cfg, calls, n).Raised? <==>
      !cfg.continueOnFailure && Allowed(cfg) > 0 && SomeExhausted(cfg, calls, n)
  {
    var runs := Runs(ids, cfg, calls);
    FoldRaises(ids, runs, cfg.saveIntermediate, n);
    if SomeRaised(runs, n) {
      var k :| 0 <= k < n && runs[k].answer.Raised?;
      RetryAnswers(ids[k], cfg, calls(k));
      assert !Succeeds(calls(k), cfg);
    }
    if !cfg.continueOnFailure && Allowed(cfg) > 0 && SomeExhausted(cfg, calls, n) {
      var k :| 0 <= k < n && !Succeeds(calls(k), cfg);
      RetryAnswers(ids[k], cfg, calls(k));
      assert runs[k].answer.Raised?;
    }
  }

  /** The loop body of one batch: tweet `k` through the retry loop, then into the stats. */
  method ProcessTweet(ids: seq<string>, cfg: Config, calls: nat -> nat -> Outcome, ghost runs: seq<RetryRun>,
                      lo: nat, hi: nat, k: nat, current: Stats)
    returns (next: Result<Stats>)
    requires lo <= k < hi <= |ids| == |runs|
    requires forall j {:trigger RetrySpec(ids[j], cfg, calls(j))} :: lo <= j < hi ==> runs[j] == RetrySpec(ids[j], cfg, calls(j))
    ensures next == Record(current, ids[k], runs[k], cfg.saveIntermediate)
  {
    var run := AnalyzeWithRetry(ids[k], cfg, calls(k));
    next := Record(current, ids[k], run, cfg.saveIntermediate);
  }

  /** One batch: the tweets `lo .. hi - 1` in order, stopping at the first exception; `runs` are what their retry loops do. */
  method ProcessBatch(ids: seq<string>, cfg: Config, calls: nat -> nat -> Outcome, ghost runs: seq<RetryRun>,
                      lo: nat, hi: nat, stats: Stats)
    returns (r: Result<Stats>)
    requires lo <= hi <= |ids| == |runs|
    requires forall k {:trigger RetrySpec(ids[k], cfg, calls(k))} :: lo <= k < hi ==> runs[k] == RetrySpec(ids[k], cfg, calls(k))
    requires FoldRuns(ids, runs, cfg.saveIntermediate, lo) == Ok(stats)
    ensures r == FoldRuns(ids, runs, cfg.saveIntermediate, hi)
  {
    r := Ok(stats);
    var k := lo;
    while k < hi && r.Ok?
      invariant lo <= k <= hi
      invariant r == FoldRuns(ids, runs, cfg.saveIntermediate, k)
    {
      FoldRunsNext(ids, runs, cfg.saveIntermediate, k, r.value);
      r := ProcessTweet(ids, cfg, calls, runs, lo, hi, k, r.value);
      k := k + 1;
    }
    if k < hi {
      FoldStaysRaised(ids, runs, cfg.saveIntermediate, k, hi);
    }
  }

  /**
   * `_process_tweets_batch`: the batches in order, each tweet through the retry loop, a pause after
   * every batch. A zero batch size makes `range` raise; a negative one processes nothing.
   */
  method ProcessTweetsBatch(ids: seq<string>, cfg: Config, calls: nat -> nat -> Outcome) returns (r: Result<Stats>, pauses: nat)
    ensures cfg.batchSize == 0 ==> r == Raised(ZeroStep)
    ensures cfg.batchSize < 0 ==> r == Ok(NoStats) && pauses == 0
    ensures cfg.batchSize > 0 ==> r == Fold(ids, cfg, calls, |ids|)
    ensures cfg.batchSize > 0 && r.Ok? ==> pauses == |Batches(ids, cfg.batchSize)|
  {
    if cfg.batchSize == 0 {
      return Raised(ZeroStep), 0;
    }
    if cfg.batchSize < 0 {
      return Ok(NoStats), 0;
    }
    var size: nat := cfg.batchSize;
    ghost var runs := Runs(ids, cfg, calls);
    FoldIsFoldRuns(ids, cfg, calls, |ids|);
    var stats := NoStats;
    pauses := 0;
    var i := 0;
    while i < |ids|
      invariant 0 <= i <= |ids|
      invariant FoldRuns(ids, runs, cfg.saveIntermediate, i) == Ok(stats)
      invariant pauses + |Batches(ids[i..], size)| == |Batches(ids, size)|
      decreases |ids| - i
    {
      var hi := if i + size < |ids| then i + size else |ids|;
      BatchesStep(ids, i, size);
      var next := ProcessBatch(ids, cfg, calls, runs, i, hi, stats);
      if next.Raised? {
        FoldStaysRaised(ids, runs, cfg.saveIntermediate, hi, |ids|);
        return next, pauses;
      }
      stats := next.value;
      pauses := pauses + 1;
      i := hi;
    }
    r := Ok(stats);
  }

  // ---------------------------------------------------------------------------------------------
  // Run report
  // ---------------------------------------------------------------------------------------------

  /** The fields of the service's run result the model keeps. */
  datatype RunReport = RunReport(totalProcessed: nat, successful: nat, failed: nat, analyzed: seq<string>,
                                 failedIds: seq<string>, status: string, errors: seq<string>)

  /** `'success' if successful_analyses > 0 else 'failed'`. */
  function RunStatus(successful: nat): (s: string)
    ensures s == "success" <==> successful > 0
    ensures s == "failed" <==> successful == 0
  {
    if successful > 0 then "success" else "failed"
  }

  /** The score each result's `consolidated_score` record holds; a result without one cannot be read. */
  function Scores(results: seq<Integrated>): (r: Result<seq<real>>)
    ensures r.Ok? <==> forall i :: 0 <= i < |results| ==> results[i].analysis.consolidated.Some?
    ensures r.Ok? ==>
      (|r.value| == |results| && forall i :: 0 <= i < |results| ==> r.value[i] == results[i].analysis.consolidated.value.score)
  {
    if |results| == 0 then Ok([])
    else
      var init :- Scores(results[..|results| - 1]);
      var last := results[|results| - 1];
      if last.analysis.consolidated.None? then Raised("'NoneType' object has no attribute 'get'")
      else Ok(init + [last.analysis.consolidated.value.score])
  }

  /** `_generate_content_analysis_summary`'s quality buckets: high `>= 8`, medium `6 .. < 8`, low `< 6`. */
  datatype Distribution = Distribution(high: nat, medium: nat, low: nat)

  function Distribute(scores: seq<real>): (d: Distribution)
    ensures d.high + d.medium + d.low == |scores|
  {
    if |scores| == 0 then Distribution(0, 0, 0)
    else
      var d := Distribute(scores[..|scores| - 1]);
      var s := scores[|scores| - 1];
      if s >= 8.0 then d.(high := d.high + 1)
      else if 6.0 <= s then d.(medium := d.medium + 1)
      else d.(low := d.low + 1)
  }

  /** The bucket a single score falls in. */
  datatype Bucket = High | Medium | Low

  function BucketOf(score: real): (b: Bucket)
    ensures b == High <==> score >= 8.0
    ensures b == Low <==> score < 6.0
  {
    if score >= 8.0 then High else if score >= 6.0 then Medium else Low
  }

  /** The number of scores in bucket `b`. */
  function CountBucket(scores: seq<real>, b: Bucket): (n: nat)
    ensures n <= |scores|
    ensures n == 0 <==> forall i :: 0 <= i < |scores| ==> BucketOf(scores[i]) != b
  {
    if |scores| == 0 then 0
    else CountBucket(scores[1..], b) + (if BucketOf(scores[0]) == b then 1 else 0)
  }

  /** Each bucket of the distribution counts exactly the scores in its range. */
  lemma {:induction false} DistributeCounts(scores: seq<real>)
    ensures Distribute(scores) == Distribution(CountBucket(scores, High), CountBucket(scores, Medium), CountBucket(scores, Low))
  {
    if |scores| > 0 {
      var init := scores[..|scores| - 1];
      DistributeCounts(init);
      CountBucketSnoc(init, scores[|scores| - 1], High);
      CountBucketSnoc(init, scores[|scores| - 1], Medium);
      CountBucketSnoc(init, scores[|scores| - 1], Low);
      assert init + [scores[|scores| - 1]] == scores;
    }
  }

  lemma {:induction false} CountBucketSnoc(scores: seq<real>, s: real, b: Bucket)
    ensures CountBucket(scores + [s], b) == CountBucket(scores, b) + (if BucketOf(s) == b then 1 else 0)
    decreases |scores|
  {
    if |scores| == 0 {
      assert scores + [s] == [s];
    } else {
      CountBucketSnoc(scores[1..], s, b);
      assert (scores + [s])[1..] == scores[1..] + [s];
    }
  }

  /** The summary's score part: `{}` without results, else the count, the mean (0 without scores) and the buckets. */
  datatype ContentSummary = NoResults | Summary(totalAnalyzed: nat, averageScore: real, distribution: Distribution)

  function ContentAnalysisSummary(results: seq<Integrated>): (r: Result<ContentSummary>)
    ensures |results| == 0 ==> r == Ok(NoResults)
    ensures r.Ok? && |results| > 0 ==>
      (r.value.Summary? && r.value.totalAnalyzed == |results|
       && r.value.distribution.high + r.value.distribution.medium + r.value.distribution.low == |results|)
  {
    if |results| == 0 then Ok(NoResults)
    else
      var scores :- Scores(results);
      Ok(Summary(|results|, if |scores| > 0 then Mean(scores) else 0.0, Distribute(scores)))
  }

  /**
   * `analyze_extracted_data`: load, process, summarise. Any exception on the way gives the failed
   * report with zero counts and the single message `Analysis failed: ...`.
   */
  function AnalyzeExtractedData(load: Result<seq<string>>, cfg: Config, calls: nat -> nat -> Outcome): (r: RunReport)
    ensures r.status == "success" <==> r.successful > 0
    ensures r.status == "success" ==> r.successful + r.failed == r.totalProcessed
    ensures load.Raised? ==> r.totalProcessed == 0 && r.status == "failed" && |r.errors| == 1
    ensures load.Ok? && cfg.batchSize > 0 && Fold(load.value, cfg, calls, |load.value|).Raised? ==>
      r.totalProcessed == 0 && r.status == "failed" && |r.errors| == 1
    ensures load.Ok? && cfg.batchSize == 0 ==>
      r.status == "failed" && r.errors == ["Analysis failed: " + ZeroStep]
  {
    match load
    case Raised(e) => RunReport(0, 0, 0, [], [], "failed", ["Analysis failed: " + e])
    case Ok(ids) =>
      var processed := if cfg.batchSize == 0 then Raised(ZeroStep)
        else if cfg.batchSize < 0 then Ok(NoStats) else Fold(ids, cfg, calls, |ids|);
      match processed
      case Raised(e) => RunReport(0, 0, 0, [], [], "failed", ["Analysis failed: " + e])
      case Ok(s) =>
        match ContentAnalysisSummary(s.results)
        case Raised(e) => RunReport(0, 0, 0, [], [], "failed", ["Analysis failed: " + e])
        case Ok(_) => RunReport(|ids|, s.successful, s.failed, s.analyzed, s.failedIds, RunStatus(s.successful), s.errors)
  }
}
