/**
 * The slop filter agent: scores how cliché-ridden, repetitive and template-like a tweet is,
 * lowers the score for factual content, and keeps a per-author fingerprint of the scores.
 *
 * The regular-expression scans (the cliché patterns, the factual patterns and the URL pattern)
 * are counts handed in as `SlopEvidence`; the phrase, substance-word and filler-word checks are
 * plain substring and word tests and are modelled exactly.
 */
module SlopFilter {
  import opened Wrappers
  import opened Values
  import Text
  import opened Rounding
  import opened MemoryStore
  import MemoryQueries

  /** How a determination was reached; the program renders it as a sentence. */
  datatype SlopIndicator = Cliches(count: nat) | HighRepetition | KnownSlopPatterns | FactualContent(adjustment: real)

  datatype Reasoning = NoSlopIndicators | Detected(indicators: seq<SlopIndicator>) | AnalysisError

  datatype SlopResult = SlopResult(isSloppy: bool, slopScore: real, reasoning: Reasoning, contentAuthenticity: string)

  /** What the regular expressions found: `findall` counts over all cliché patterns, over the factual patterns, and of URLs. */
  datatype SlopEvidence = SlopEvidence(clicheMatches: nat, factualMatches: nat, urlMatches: nat)

  /** The result an exception during the analysis falls back to. */
  const ErrorResult: SlopResult := SlopResult(false, 0.0, AnalysisError, "Acceptable")

  // ---------------------------------------------------------------------------------------------
  // Clichés
  // ---------------------------------------------------------------------------------------------

  /** `_calculate_cliche_score`: 0.15 per match, saturating at 1. */
  function ClicheScore(count: nat): (c: real)
    ensures 0.0 <= c <= 1.0
    ensures c == 0.0 <==> count == 0
    ensures count >= 7 ==> c == 1.0
    ensures count < 7 ==> c == 0.15 * count as real
  {
    Min(1.0, 0.15 * count as real)
  }

  // ---------------------------------------------------------------------------------------------
  // Redundancy
  // ---------------------------------------------------------------------------------------------

  const FillerWords: set<string> := {"like", "just", "really", "very", "so", "actually", "basically",
    "literally", "totally", "absolutely", "definitely", "obviously"}

  /** `set(words)`. */
  function DistinctWords(words: seq<string>): set<string>
  {
    set w | w in words
  }

  /** A list has at most as many distinct elements as entries, and at least one when it is non-empty. */
  lemma {:induction false} DistinctWordsBound(words: seq<string>)
    ensures |DistinctWords(words)| <= |words|
    ensures |words| > 0 ==> |DistinctWords(words)| >= 1
  {
    if |words| > 0 {
      var init := words[..|words| - 1];
      DistinctWordsBound(init);
      assert DistinctWords(words) == DistinctWords(init) + {words[|words| - 1]};
      assert words[|words| - 1] in DistinctWords(words);
    }
  }

  /** `sum(1 for word in words if word in filler_words)`. */
  function FillerCount(words: seq<string>): (n: nat)
    ensures n <= |words|
    ensures n == 0 <==> forall i :: 0 <= i < |words| ==> words[i] !in FillerWords
  {
    if |words| == 0 then 0
    else
      var rest := FillerCount(words[1..]);
      assert forall i :: 1 <= i < |words| ==> words[i] == words[1..][i - 1];
      (if words[0] in FillerWords then 1 else 0) + rest
  }

  /**
   * The redundancy of a word list: nothing below three words; otherwise 0.7 of the share of
   * repeated words plus 0.3 of the share of filler words. It stays below 1, so the program's cap
   * at 1 never binds, and it is zero exactly when the words are all different and none is filler.
   */
  function RedundancyOf(words: seq<string>): (r: real)
    ensures 0.0 <= r < 1.0
    ensures |words| < 3 ==> r == 0.0
    ensures r == 0.0 <==> |words| < 3 || (|DistinctWords(words)| == |words| && FillerCount(words) == 0)
  {
    if |words| < 3 then 0.0
    else
      DistinctWordsBound(words);
      var n := |words| as real;
      var u := |DistinctWords(words)| as real / n;
      var f := FillerCount(words) as real / n;
      RatioBetween(|DistinctWords(words)|, |words|);
      RatioBetween(FillerCount(words), |words|);
      assert 1.0 / n > 0.0;
      Mixture(u, f, 1.0 / n);
      Min(1.0, 0.7 * (1.0 - u) + 0.3 * f)
  }

  /** `a / n` lies in `[1/n, 1]` for `1 <= a <= n`, in `[0, 1]` for `a <= n`, and is 0 or 1 only at the ends. */
  lemma {:induction false} RatioBetween(a: nat, n: nat)
    requires 0 < n && a <= n
    ensures 0.0 <= a as real / n as real <= 1.0
    ensures a >= 1 ==> 1.0 / n as real <= a as real / n as real
    ensures a as real / n as real == 1.0 <==> a == n
    ensures a as real / n as real == 0.0 <==> a == 0
  {
    DivMono(a as real, n as real, n as real);
    if a >= 1 {
      DivMono(1.0, a as real, n as real);
    }
  }

  /** The weighted mix of the repeated share `1 - u` and the filler share `f`. */
  lemma {:induction false} Mixture(u: real, f: real, e: real)
    requires 0.0 < e <= u <= 1.0 && 0.0 <= f <= 1.0
    ensures 0.0 <= 0.7 * (1.0 - u) + 0.3 * f < 1.0
    ensures 0.7 * (1.0 - u) + 0.3 * f == 0.0 <==> u == 1.0 && f == 0.0
  {
  }

  lemma {:induction false} DivMono(x: real, y: real, d: real)
    requires 0.0 <= x <= y && d > 0.0
    ensures x / d <= y / d
  {
  }

  /** `_calculate_redundancy`, on `text.lower().split()`. */
  function Redundancy(text: string): (r: real)
    ensures 0.0 <= r < 1.0
  {
    RedundancyOf(Text.Words(Text.Lower(text)))
  }

  // ---------------------------------------------------------------------------------------------
  // Similarity to known slop
  // ---------------------------------------------------------------------------------------------

  const GenericHype: seq<string> := ["huge potential", "game changer", "revolutionary", "to the moon",
    "massive gains", "next big thing", "paradigm shift"]
  const Clickbait: seq<string> := ["you won't believe", "shocking truth", "secret revealed",
    "what they don't want you to know", "hidden gem"]
  const AiFiller: seq<string> := ["in today's digital world", "as we move forward", "at the end of the day",
    "the bottom line is", "when all is said and done"]

  const SlopClusters: seq<seq<string>> := [GenericHype, Clickbait, AiFiller]

  /** The share of a cluster's phrases found in the text; an empty cluster is skipped and counts 0. */
  function ClusterRatio(lower: string, phrases: seq<string>): (q: real)
    ensures 0.0 <= q <= 1.0
    ensures q == 0.0 <==> !Text.ContainsAny(lower, phrases)
  {
    if |phrases| == 0 then 0.0
    else
      RatioBetween(Text.CountContained(lower, phrases), |phrases|);
      Text.CountContained(lower, phrases) as real / |phrases| as real
  }

  /** The largest cluster ratio, as the program's running `max` computes it. */
  function MaxRatio(lower: string, clusters: seq<seq<string>>): (m: real)
    ensures 0.0 <= m <= 1.0
    ensures forall i :: 0 <= i < |clusters| ==> ClusterRatio(lower, clusters[i]) <= m
    ensures m == 0.0 || exists i :: 0 <= i < |clusters| && m == ClusterRatio(lower, clusters[i])
  {
    if |clusters| == 0 then 0.0
    else
      var init := clusters[..|clusters| - 1];
      var m := MaxRatio(lower, init);
      assert forall i :: 0 <= i < |init| ==> init[i] == clusters[i];
      Max(m, ClusterRatio(lower, clusters[|clusters| - 1]))
  }

  /** `_calculate_similarity_score`: twice the best cluster ratio, capped at 1. */
  function Similarity(text: string): (s: real)
    ensures 0.0 <= s <= 1.0
    ensures s == 0.0 <==> forall i :: 0 <= i < |SlopClusters| ==> !Text.ContainsAny(Text.Lower(text), SlopClusters[i])
  {
    var m := MaxRatio(Text.Lower(text), SlopClusters);
    Min(1.0, 2.0 * m)
  }

  /**
   * The similarity passes the reasoning's 0.3 mark exactly when two hype phrases, or any one
   * click-bait or filler phrase, occur (one hype phrase out of seven gives only 2/7).
   */
  lemma {:induction false} SimilarityMark(text: string)
    ensures Similarity(text) > 0.3 <==>
      Text.CountContained(Text.Lower(text), GenericHype) >= 2
      || Text.ContainsAny(Text.Lower(text), Clickbait) || Text.ContainsAny(Text.Lower(text), AiFiller)
  {
    var lower := Text.Lower(text);
    MaxRatioThree(lower, GenericHype, Clickbait, AiFiller);
    assert |GenericHype| == 7 && |Clickbait| == 5 && |AiFiller| == 5;
    var g := Text.CountContained(lower, GenericHype);
    var c := Text.CountContained(lower, Clickbait);
    var a := Text.CountContained(lower, AiFiller);
    OverShare(g, 7, 2);
    OverShare(c, 5, 1);
    OverShare(a, 5, 1);
  }

  /** With three clusters the running maximum is the largest of the three ratios. */
  lemma {:induction false} MaxRatioThree(lower: string, x: seq<string>, y: seq<string>, z: seq<string>)
    ensures MaxRatio(lower, [x, y, z]) == Max(Max(Max(0.0, ClusterRatio(lower, x)), ClusterRatio(lower, y)), ClusterRatio(lower, z))
  {
    var a, b, c := ClusterRatio(lower, x), ClusterRatio(lower, y), ClusterRatio(lower, z);
    assert [x, y, z][..2] == [x, y] && [x, y][..1] == [x] && [x][..0] == [];
    assert MaxRatio(lower, [x]) == Max(0.0, a);
    assert MaxRatio(lower, [x, y]) == Max(Max(0.0, a), b);
  }

  lemma {:induction false} MaxRatioSnoc(lower: string, cs: seq<seq<string>>, c: seq<string>)
    ensures MaxRatio(lower, cs + [c]) == Max(MaxRatio(lower, cs), ClusterRatio(lower, c))
  {
    assert (cs + [c])[..|cs|] == cs;
  }

  /** `k / n` exceeds 0.15 exactly from `least` matches on, for the cluster sizes at hand. */
  lemma {:induction false} OverShare(k: nat, n: nat, least: nat)
    requires (n == 7 && least == 2) || (n == 5 && least == 1)
    ensures k as real / n as real > 0.15 <==> k >= least
  {
  }

  // ---------------------------------------------------------------------------------------------
  // Factual content
  // ---------------------------------------------------------------------------------------------

  const SubstanceWords: seq<string> := ["data", "analysis", "research", "study", "report", "evidence",
    "statistics", "metrics", "measurement", "findings", "results", "conclusion", "methodology",
    "technical", "implementation", "documentation", "specification", "protocol", "algorithm"]

  /**
   * `_calculate_factual_adjustment`: 0.1 per factual-pattern match, 0.05 per substance word
   * present, 0.2 per URL, capped at 0.5. It is zero exactly when none of these is found.
   */
  function FactualAdjustment(text: string, factualMatches: nat, urlMatches: nat): (f: real)
    ensures 0.0 <= f <= 0.5
    ensures f == 0.0 <==> factualMatches == 0 && urlMatches == 0 && !Text.ContainsAny(Text.Lower(text), SubstanceWords)
    ensures f >= Min(0.5, 0.2 * urlMatches as real)
  {
    var substance := Text.CountContained(Text.Lower(text), SubstanceWords);
    Min(0.5, 0.1 * factualMatches as real + 0.05 * substance as real + 0.2 * urlMatches as real)
  }

  // ---------------------------------------------------------------------------------------------
  // Combination and reasoning
  // ---------------------------------------------------------------------------------------------

  /**
   * The adjusted score: the weighted sum 0.4·cliché + 0.3·redundancy + 0.3·similarity, less
   * the factual adjustment, and never below 0.
   */
  function SlopScore(cliche: real, redundancy: real, similarity: real, factual: real): (a: real)
    requires 0.0 <= cliche <= 1.0 && 0.0 <= redundancy <= 1.0 && 0.0 <= similarity <= 1.0 && 0.0 <= factual
    ensures 0.0 <= a <= 1.0
    ensures a <= 0.4 * cliche + 0.6
    ensures a <= Max(0.0, 1.0 - factual)
    ensures a == 0.0 <==> 0.4 * cliche + 0.3 * redundancy + 0.3 * similarity <= factual
  {
    Max(0.0, 0.4 * cliche + 0.3 * redundancy + 0.3 * similarity - factual)
  }

  /** More of any slop component, or less factual adjustment, never lowers the score. */
  lemma {:induction false} SlopScoreMonotone(c: real, r: real, s: real, f: real, c': real, r': real, s': real, f': real)
    requires 0.0 <= c <= c' <= 1.0 && 0.0 <= r <= r' <= 1.0 && 0.0 <= s <= s' <= 1.0 && 0.0 <= f' <= f
    ensures SlopScore(c, r, s, f) <= SlopScore(c', r', s', f')
  {
  }

  /** `_generate_reasoning`: one indicator per component past its mark, in the program's order. */
  function GenerateReasoning(clicheCount: nat, redundancy: real, similarity: real, factual: real): (g: Reasoning)
    ensures g == NoSlopIndicators <==> clicheCount == 0 && redundancy <= 0.5 && similarity <= 0.3 && factual <= 0.1
    ensures g.Detected? ==> |g.indicators| >= 1
    ensures g.Detected? ==> (Cliches(clicheCount) in g.indicators <==> clicheCount > 0)
    ensures g.Detected? ==> (HighRepetition in g.indicators <==> redundancy > 0.5)
    ensures g.Detected? ==> (KnownSlopPatterns in g.indicators <==> similarity > 0.3)
    ensures g.Detected? ==> (FactualContent(factual) in g.indicators <==> factual > 0.1)
    ensures !g.AnalysisError?
  {
    var reasons :=
      (if clicheCount > 0 then [Cliches(clicheCount)] else [])
      + (if redundancy > 0.5 then [HighRepetition] else [])
      + (if similarity > 0.3 then [KnownSlopPatterns] else [])
      + (if factual > 0.1 then [FactualContent(factual)] else []);
    if |reasons| == 0 then NoSlopIndicators else Detected(reasons)
  }

  // ---------------------------------------------------------------------------------------------
  // Author fingerprint
  // ---------------------------------------------------------------------------------------------

  /** The agent's reading of a fingerprint: absent means a zeroed one without a timestamp. */
  function AgentFingerprint(st: Store, author: string): (r: Result<SlopFingerprint>)
    ensures Find(st, Key(SlopNamespace, author)).None? ==> r == Ok(SlopFingerprint(0, 0.0, 0.0, [], None))
    ensures r.Ok? && Find(st, Key(SlopNamespace, author)).Some? ==> r == SlopProfile(st, author, 0)
    ensures r.Raised? <==> SlopProfile(st, author, 0).Raised?
  {
    match Find(st, Key(SlopNamespace, author))
    case None => Ok(SlopFingerprint(0, 0.0, 0.0, [], None))
    case Some(Slop(p)) => Ok(p)
    case Some(_) => Raised("KeyError: count")
  }

  /** `_update_author_fingerprint` on one fingerprint; the agent does not touch the timestamp. */
  function AgentNextSlop(p: SlopFingerprint, score: real): (q: SlopFingerprint)
    ensures q.count == p.count + 1 && q.total == p.total + score
    ensures q.lastUpdated == p.lastUpdated
    ensures 1 <= |q.lastScores| <= 10 && q.lastScores[|q.lastScores| - 1] == score
  {
    var count := p.count + 1;
    var total := p.total + score;
    var scores := p.lastScores + [score];
    SlopFingerprint(count, total, total / count as real, if |scores| > 10 then scores[|scores| - 10..] else scores, p.lastUpdated)
  }

  /** The agent's update is the store's own fingerprint update, except that it keeps the timestamp. */
  lemma {:induction false} AgentNextSlopAgrees(p: SlopFingerprint, score: real, now: int)
    ensures AgentNextSlop(p, score) == NextSlop(p, score, now).(lastUpdated := p.lastUpdated)
  {
  }

  /** Writes the updated fingerprint; a record of another shape raises. */
  function UpdateAuthorFingerprint(st: Store, author: string, score: real): (r: Result<Store>)
    ensures r.Ok? <==> AgentFingerprint(st, author).Ok?
    ensures r.Ok? ==> Find(r.value, Key(SlopNamespace, author)) == Some(Slop(AgentNextSlop(AgentFingerprint(st, author).value, score)))
    ensures r.Ok? ==> forall k :: k != Key(SlopNamespace, author) ==> Find(r.value, k) == Find(st, k)
  {
    var p :- AgentFingerprint(st, author);
    var e := Slop(AgentNextSlop(p, score));
    PutFind(st, Key(SlopNamespace, author), e, "");
    assert forall k :: k != Key(SlopNamespace, author) ==> Find(Put(st, Key(SlopNamespace, author), e), k) == Find(st, k) by {
      forall k | k != Key(SlopNamespace, author)
        ensures Find(Put(st, Key(SlopNamespace, author), e), k) == Find(st, k)
      {
        PutFind(st, Key(SlopNamespace, author), e, k);
      }
    }
    Ok(Put(st, Key(SlopNamespace, author), e))
  }

  // ---------------------------------------------------------------------------------------------
  // The analysis
  // ---------------------------------------------------------------------------------------------

  /** The adjusted score of a tweet. */
  function Adjusted(text: string, ev: SlopEvidence): (a: real)
    ensures 0.0 <= a <= 1.0
  {
    SlopScore(ClicheScore(ev.clicheMatches), Redundancy(text), Similarity(text),
      FactualAdjustment(text, ev.factualMatches, ev.urlMatches))
  }

  /** The body of `analyze_slop`'s `try`: the fingerprint write is the one step that can raise. */
  function Analysis(text: string, author: string, ev: SlopEvidence, st: Store): (r: Result<(SlopResult, Store)>)
    ensures r.Ok? <==> AgentFingerprint(st, author).Ok?
    ensures r.Ok? ==> r.value.1 == UpdateAuthorFingerprint(st, author, Adjusted(text, ev)).value
    ensures r.Ok? ==> (r.value.0.isSloppy <==> Adjusted(text, ev) > 0.7)
  {
    var a := Adjusted(text, ev);
    var st' :- UpdateAuthorFingerprint(st, author, a);
    var reasoning := GenerateReasoning(ev.clicheMatches, Redundancy(text), Similarity(text),
      FactualAdjustment(text, ev.factualMatches, ev.urlMatches));
    Ok((SlopResult(a > 0.7, Round(a, 2), reasoning, "Acceptable"), st'))
  }

  /**
   * `analyze_slop`. The reported score is the adjusted score to two decimals, and it sides with
   * the verdict: at least 0.7 for sloppy content and at most 0.7 otherwise.
   */
  function AnalyzeSlop(text: string, author: string, ev: SlopEvidence, st: Store): (r: (SlopResult, Store))
    ensures 0.0 <= r.0.slopScore <= 1.0
    ensures r.0.isSloppy ==> r.0.slopScore >= 0.7
    ensures !r.0.isSloppy ==> r.0.slopScore <= 0.7
    ensures Analysis(text, author, ev, st).Raised? ==> r == (ErrorResult, st)
  {
    match Analysis(text, author, ev, st)
    case Ok(res) =>
      VerdictSides(Adjusted(text, ev));
      res
    case Raised(_) => (ErrorResult, st)
  }

  /** Rounding to two decimals keeps a score in `[0, 1]` on its side of the 0.7 mark. */
  lemma {:induction false} VerdictSides(a: real)
    requires 0.0 <= a <= 1.0
    ensures 0.0 <= Round(a, 2) <= 1.0
    ensures a > 0.7 ==> Round(a, 2) >= 0.7
    ensures a <= 0.7 ==> Round(a, 2) <= 0.7
  {
    if a > 0.7 {
      RoundStaysWithin(a, 70, 100);
    } else {
      RoundStaysWithin(a, 0, 70);
    }
  }

  /** A tweet needs at least two cliché matches to be judged sloppy: with fewer the score stays at or below 0.66. */
  lemma {:induction false} FewClichesNotSloppy(text: string, author: string, ev: SlopEvidence, st: Store)
    requires ev.clicheMatches < 2
    ensures !AnalyzeSlop(text, author, ev, st).0.isSloppy
  {
    assert ClicheScore(ev.clicheMatches) <= 0.15;
  }

  /** A tweet citing two URLs has an adjustment of at least 0.4 and is never judged sloppy. */
  lemma {:induction false} SourcedNotSloppy(text: string, author: string, ev: SlopEvidence, st: Store)
    requires ev.urlMatches >= 2
    ensures !AnalyzeSlop(text, author, ev, st).0.isSloppy
  {
    assert FactualAdjustment(text, ev.factualMatches, ev.urlMatches) >= 0.4;
  }

  /** A completed analysis adds the unrounded score to the author's fingerprint and nothing else. */
  lemma {:induction false} AnalysisRecords(text: string, author: string, ev: SlopEvidence, st: Store, k: string)
    requires Find(st, Key(SlopNamespace, author)).None? || Find(st, Key(SlopNamespace, author)).value.Slop?
    ensures var st' := AnalyzeSlop(text, author, ev, st).1;
      Find(st', Key(SlopNamespace, author)).Some? && Find(st', Key(SlopNamespace, author)).value.Slop?
      && Find(st', Key(SlopNamespace, author)).value.slop.lastScores[|Find(st', Key(SlopNamespace, author)).value.slop.lastScores| - 1] == Adjusted(text, ev)
      && (k != Key(SlopNamespace, author) ==> Find(st', k) == Find(st, k))
  {
    var a := Adjusted(text, ev);
    var p := AgentFingerprint(st, author);
    assert p.Ok?;
    var st' := UpdateAuthorFingerprint(st, author, a);
    assert st'.Ok?;
    var q := AgentNextSlop(p.value, a);
    assert Find(st'.value, Key(SlopNamespace, author)) == Some(Slop(q));
    assert AnalyzeSlop(text, author, ev, st).1 == st'.value;
  }

  // ---------------------------------------------------------------------------------------------
  // Author-level checks
  // ---------------------------------------------------------------------------------------------

  /**
   * `is_author_chronic_slopper`: an absent or empty record, or fewer than five analysed tweets,
   * is not chronic; otherwise the average must exceed the threshold. A record of another shape
   * that lacks the fields raises.
   */
  function IsChronicSlopper(st: Store, author: string, threshold: real): (r: Result<bool>)
    ensures Find(st, Key(SlopNamespace, author)).None? ==> r == Ok(false)
    ensures (match Find(st, Key(SlopNamespace, author))
      case Some(Slop(p)) => r == Ok(p.count >= 5 && p.avg > threshold)
      case _ => true)
  {
    match Find(st, Key(SlopNamespace, author))
    case None => Ok(false)
    case Some(Slop(p)) => Ok(p.count >= 5 && p.avg > threshold)
    case Some(Other(fields)) => ChronicFields(fields, "avg_slop", threshold)
    case Some(_) => Raised("KeyError: count")
  }

  /**
   * An author the agent calls chronic is among the sloppers the memory query lists with at least
   * five tweets, under the name `replace` leaves of the key; that name is the author whenever the
   * author does not itself hold the key prefix.
   */
  lemma {:induction false} ChronicIsListed(st: Store, author: string, threshold: real)
    requires IsChronicSlopper(st, author, threshold) == Ok(true)
    requires Find(st, Key(SlopNamespace, author)).Some? && Find(st, Key(SlopNamespace, author)).value.Slop?
    ensures MemoryQueries.ChronicSloppers(st, threshold, 5).Ok? ==>
      exists s :: s in MemoryQueries.ChronicSloppers(st, threshold, 5).value
        && s.author == MemoryQueries.Entity(Key(SlopNamespace, author), SlopNamespace + ":")
    ensures MemoryQueries.ChronicSloppers(st, threshold, 5).Ok? && !Text.Contains(author, SlopNamespace + ":") ==>
      exists s :: s in MemoryQueries.ChronicSloppers(st, threshold, 5).value && s.author == author
  {
    var key := Key(SlopNamespace, author);
    var prefix := SlopNamespace + ":";
    var i :| 0 <= i < |st| && st[i] == (key, Find(st, key).value);
    assert key[..|prefix|] == prefix;
    assert key == prefix + author;
    assert MemoryQueries.Qualifies(st, i, threshold, 5);
    MemoryQueries.SloppersComplete(st, threshold, 5, i);
    var s := MemoryQueries.SlopperAt(st, i);
    assert s.author == MemoryQueries.Entity(key, prefix);
    if !Text.Contains(author, prefix) {
      MemoryQueries.EntityOfKey(prefix, author);
    }
    if MemoryQueries.ChronicSloppers(st, threshold, 5).Ok? {
      assert s in multiset(MemoryQueries.Sloppers(st, threshold, 5));
    }
  }

  /** `should_preserve_content`; `highValue` says whether one of the high-value patterns matches. */
  function ShouldPreserve(slopScore: real, highValue: bool): (keep: bool)
    ensures slopScore < 0.8 ==> keep
    ensures !highValue ==> (keep <==> slopScore < 0.8)
  {
    if slopScore < 0.8 then true else highValue
  }

  /** Content the agent would drop was judged sloppy by the analysis that scored it. */
  lemma {:induction false} DroppedWasSloppy(text: string, author: string, ev: SlopEvidence, st: Store, highValue: bool)
    requires !ShouldPreserve(AnalyzeSlop(text, author, ev, st).0.slopScore, highValue)
    ensures AnalyzeSlop(text, author, ev, st).0.isSloppy
  {
  }
}
