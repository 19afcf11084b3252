/**
 * `MemoryNamespaceManager` (`domain/services/memory/memory_namespace_manager.py`): the shared
 * memory dictionary the signal agents keep their per-author and per-topic statistics in, under
 * keys `<namespace>:<entity>`, with its getters, its updaters and the schema check.
 *
 * The dictionary is a sequence of (key, entry) pairs in insertion order. Each namespace's records
 * have the one shape the program writes, so an entry is a typed record per namespace; a record of
 * another shape under a namespace's key makes the getters raise here. `datetime.now()` is the
 * parameter `now`, in whole seconds, and an ISO timestamp field is the time it encodes.
 */
module MemoryStore {
  import opened Wrappers
  import opened Values
  import Text
  import opened Tallies

  // ---------------------------------------------------------------------------------------------
  // Entries and the store
  // ---------------------------------------------------------------------------------------------

  /** `sarcasm_vector:<author>`; `confidences` is the optional `confidence_history`. */
  datatype SarcasmVector = SarcasmVector(total: nat, sarcastic: nat, rate: real, lastUpdated: Option<int>,
                                         confidences: Option<seq<real>>)

  /** `echo_map:<topic>`; `previous` and `change` are present only after an earlier record. */
  datatype EchoMetrics = EchoMetrics(lastSeen: int, reddit: int, farcaster: int, discord: int, velocity: real,
                                     totalMentions: int, previous: Option<real>, change: Option<real>)

  /** `slop_fingerprint:<author>`. */
  datatype SlopFingerprint = SlopFingerprint(count: nat, total: real, avg: real, lastScores: seq<real>,
                                             lastUpdated: Option<int>)

  /** `ban_term_stats:<author>`; `violations` counts each cleaned term. */
  datatype BanTermStats = BanTermStats(count: nat, totalWeight: real, violations: Tally, avg: real,
                                       lastUpdated: Option<int>)

  /** `latency_flags:<stamp>`. */
  datatype LatencyFlag = LatencyFlag(asset: string, text: string, tweetTime: int, changePct: real,
                                     deltaSeconds: int, flaggedAt: int)

  datatype Entry =
    | Sarcasm(sarcasm: SarcasmVector)
    | Echo(echo: EchoMetrics)
    | Slop(slop: SlopFingerprint)
    | Ban(ban: BanTermStats)
    | Latency(flag: LatencyFlag)
      /** Any other record, such as a `visual_table_trace` entry, with its fields in order. */
    | Other(fields: seq<(string, Value)>)

  type Store = seq<(string, Entry)>

  /** `store.get(key)`: the entry under the first occurrence of `key`. */
  function Find(st: Store, key: string): (r: Option<Entry>)
    ensures r.Some? <==> exists i :: 0 <= i < |st| && st[i].0 == key
    ensures r.Some? ==> exists i :: 0 <= i < |st| && st[i] == (key, r.value)
  {
    if |st| == 0 then None
    else if st[0].0 == key then Some(st[0].1)
    else
      var r := Find(st[1..], key);
      assert forall i :: 1 <= i < |st| ==> st[i] == st[1..][i - 1];
      r
  }

  /** `store[key] = e`: replaces the entry in place, or appends the key. */
  function Put(st: Store, key: string, e: Entry): (r: Store)
    ensures |st| <= |r| <= |st| + 1
    ensures forall i :: 0 <= i < |st| ==> r[i].0 == st[i].0
    ensures forall i :: 0 <= i < |st| && st[i].0 != key ==> r[i] == st[i]
  {
    if |st| == 0 then [(key, e)]
    else if st[0].0 == key then [(key, e)] + st[1..]
    else [st[0]] + Put(st[1..], key, e)
  }

  /** After `store[key] = e` the key holds `e` and every other key holds what it held. */
  lemma {:induction false} PutFind(st: Store, key: string, e: Entry, other: string)
    ensures Find(Put(st, key, e), key) == Some(e)
    ensures other != key ==> Find(Put(st, key, e), other) == Find(st, other)
  {
    if |st| > 0 && st[0].0 != key {
      PutFind(st[1..], key, e, other);
      assert Put(st, key, e)[1..] == Put(st[1..], key, e);
    }
  }

  /** The key of an entity's record in a namespace. */
  function Key(namespace: string, entity: string): (k: string)
    ensures |k| == |namespace| + 1 + |entity|
    ensures k[..|namespace|] == namespace && k[|namespace|] == ':' && k[|namespace| + 1..] == entity
  {
    namespace + ":" + entity
  }

  /** Python's `s.startswith(prefix)`. */
  predicate StartsWith(s: string, prefix: string)
  {
    |prefix| <= |s| && s[..|prefix|] == prefix
  }

  const SarcasmNamespace: string := "sarcasm_vector"
  const EchoNamespace: string := "echo_map"
  const SlopNamespace: string := "slop_fingerprint"
  const BanNamespace: string := "ban_term_stats"
  const LatencyNamespace: string := "latency_flags"
  const VisualNamespace: string := "visual_table_trace"

  /** The first value a foreign record holds under `field`. */
  function FieldValue(fields: seq<(string, Value)>, field: string): Option<Value>
  {
    if |fields| == 0 then None
    else if fields[0].0 == field then Some(fields[0].1)
    else FieldValue(fields[1..], field)
  }

  /**
   * The agents' chronic-author test, `not rec or rec["count"] < 5` and then `rec[avg] > threshold`,
   * on a record held as plain fields: an empty record is not chronic, a missing field raises, and
   * a value that is not a number fails the comparison.
   */
  function ChronicFields(fields: seq<(string, Value)>, avgField: string, threshold: real): (r: Result<bool>)
    ensures |fields| == 0 ==> r == Ok(false)
    ensures r == Ok(true) ==>
      FieldValue(fields, "count").Some? && Num(FieldValue(fields, "count").value).Some? && Num(FieldValue(fields, "count").value).value >= 5.0
    ensures r == Ok(true) ==>
      FieldValue(fields, avgField).Some? && Num(FieldValue(fields, avgField).value).Some? && Num(FieldValue(fields, avgField).value).value > threshold
  {
    if |fields| == 0 then Ok(false)
    else
      match FieldValue(fields, "count")
      case None => Raised("KeyError: count")
      case Some(c) =>
        match Num(c)
        case None => Raised("TypeError: '<' not supported")
        case Some(n) =>
          if n < 5.0 then Ok(false)
          else
            match FieldValue(fields, avgField)
            case None => Raised("KeyError: " + avgField)
            case Some(v) =>
              match Num(v)
              case None => Raised("TypeError: '>' not supported")
              case Some(x) => Ok(x > threshold)
  }

  /** `xs[-n:]` for `n > 0`: the last `n` elements, or all of them. */
  function Last<T>(xs: seq<T>, n: nat): (r: seq<T>)
    ensures |r| == if |xs| < n then |xs| else n
    ensures r == xs[|xs| - |r|..]
  {
    if |xs| <= n then xs else xs[|xs| - n..]
  }

  // ---------------------------------------------------------------------------------------------
  // Sarcasm vectors
  // ---------------------------------------------------------------------------------------------

  /**
   * `get_author_sarcasm_profile`: the stored profile, or a zeroed one stamped `now` that is not
   * stored.
   */
  function SarcasmProfile(st: Store, author: string, now: int): (r: Result<SarcasmVector>)
    ensures Find(st, Key(SarcasmNamespace, author)).None? ==>
      r == Ok(SarcasmVector(0, 0, 0.0, Some(now), None))
    ensures r.Ok? && Find(st, Key(SarcasmNamespace, author)).Some? ==>
      Find(st, Key(SarcasmNamespace, author)).value == Sarcasm(r.value)
  {
    match Find(st, Key(SarcasmNamespace, author))
    case None => Ok(SarcasmVector(0, 0, 0.0, Some(now), None))
    case Some(Sarcasm(p)) => Ok(p)
    case Some(_) => Raised("KeyError: total_tweets")
  }

  /** A consistent profile: no more sarcastic tweets than tweets, the rate their ratio, at most 20 confidences. */
  predicate SarcasmOk(p: SarcasmVector)
  {
    && p.sarcastic <= p.total
    && (if p.total == 0 then p.rate == 0.0 else p.rate == p.sarcastic as real / p.total as real)
    && (p.confidences.Some? ==> |p.confidences.value| <= 20)
  }

  /**
   * The profile after one more tweet: one more tweet, one more sarcastic tweet exactly when this
   * one is, and the confidence, when given, appended to the last 20 kept.
   */
  function NextSarcasm(p: SarcasmVector, isSarcastic: bool, confidence: Option<real>, now: int): (q: SarcasmVector)
    ensures q.total == p.total + 1
    ensures q.sarcastic == p.sarcastic + (if isSarcastic then 1 else 0)
    ensures confidence.None? ==> q.confidences == p.confidences
    ensures confidence.Some? ==> q.confidences == Some(Last(p.confidences.GetOr([]) + [confidence.value], 20))
  {
    var total := p.total + 1;
    var sarcastic := if isSarcastic then p.sarcastic + 1 else p.sarcastic;
    var confidences :=
      match confidence
      case None => p.confidences
      case Some(c) => Some(Last(p.confidences.GetOr([]) + [c], 20));
    SarcasmVector(total, sarcastic, sarcastic as real / total as real, Some(now), confidences)
  }

  /** The update keeps a profile consistent; in particular the rate stays in `[0, 1]`. */
  lemma {:induction false} NextSarcasmOk(p: SarcasmVector, isSarcastic: bool, confidence: Option<real>, now: int)
    requires SarcasmOk(p)
    ensures SarcasmOk(NextSarcasm(p, isSarcastic, confidence, now))
    ensures 0.0 <= NextSarcasm(p, isSarcastic, confidence, now).rate <= 1.0
  {
    var q := NextSarcasm(p, isSarcastic, confidence, now);
    RatioWithin(q.sarcastic, q.total);
  }

  lemma {:induction false} RatioWithin(s: nat, t: nat)
    requires s <= t && t > 0
    ensures 0.0 <= s as real / t as real <= 1.0
  {
    assert s as real / t as real <= t as real / t as real;
  }

  /** `update_author_sarcasm_profile`. */
  function UpdateSarcasmProfile(st: Store, author: string, isSarcastic: bool, confidence: Option<real>, now: int): (r: Result<Store>)
    ensures r.Ok? <==> SarcasmProfile(st, author, now).Ok?
    ensures r.Ok? ==>
      Find(r.value, Key(SarcasmNamespace, author)) == Some(Sarcasm(NextSarcasm(SarcasmProfile(st, author, now).value, isSarcastic, confidence, now)))
  {
    var p :- SarcasmProfile(st, author, now);
    var e := Sarcasm(NextSarcasm(p, isSarcastic, confidence, now));
    PutFind(st, Key(SarcasmNamespace, author), e, "");
    Ok(Put(st, Key(SarcasmNamespace, author), e))
  }

  /** An update touches its author's record only. */
  lemma {:induction false} SarcasmUpdateKeepsOthers(st: Store, author: string, isSarcastic: bool, confidence: Option<real>, now: int, k: string)
    requires UpdateSarcasmProfile(st, author, isSarcastic, confidence, now).Ok?
    requires k != Key(SarcasmNamespace, author)
    ensures Find(UpdateSarcasmProfile(st, author, isSarcastic, confidence, now).value, k) == Find(st, k)
  {
    var p := SarcasmProfile(st, author, now).value;
    PutFind(st, Key(SarcasmNamespace, author), Sarcasm(NextSarcasm(p, isSarcastic, confidence, now)), k);
  }

  /** The profile a run of verdicts builds from nothing. */
  function ReplaySarcasm(verdicts: seq<bool>, now: int): SarcasmVector
  {
    if |verdicts| == 0 then SarcasmVector(0, 0, 0.0, Some(now), None)
    else NextSarcasm(ReplaySarcasm(verdicts[..|verdicts| - 1], now), verdicts[|verdicts| - 1], None, now)
  }

  function CountTrue(bs: seq<bool>): (n: nat)
    ensures n <= |bs|
  {
    if |bs| == 0 then 0 else CountTrue(bs[..|bs| - 1]) + (if bs[|bs| - 1] then 1 else 0)
  }

  /**
   * After any run of verdicts the profile counts them all, counts the sarcastic ones, and its
   * rate is the fraction of sarcastic verdicts.
   */
  lemma {:induction false} ReplaySarcasmCounts(verdicts: seq<bool>, now: int)
    ensures ReplaySarcasm(verdicts, now).total == |verdicts|
    ensures ReplaySarcasm(verdicts, now).sarcastic == CountTrue(verdicts)
    ensures SarcasmOk(ReplaySarcasm(verdicts, now))
  {
    if |verdicts| > 0 {
      ReplaySarcasmCounts(verdicts[..|verdicts| - 1], now);
      NextSarcasmOk(ReplaySarcasm(verdicts[..|verdicts| - 1], now), verdicts[|verdicts| - 1], None, now);
    }
  }

  // ---------------------------------------------------------------------------------------------
  // Echo maps
  // ---------------------------------------------------------------------------------------------

  /** `get_topic_echo_history`: the stored metrics, `None` standing for the empty dictionary. */
  function EchoHistory(st: Store, topic: string): (r: Result<Option<EchoMetrics>>)
    ensures Find(st, Key(EchoNamespace, topic)).None? ==> r == Ok(None)
    ensures r.Ok? && r.value.Some? ==> Find(st, Key(EchoNamespace, topic)) == Some(Echo(r.value.value))
  {
    match Find(st, Key(EchoNamespace, topic))
    case None => Ok(None)
    case Some(Echo(m)) => Ok(Some(m))
    case Some(_) => Raised("TypeError: unsupported operand type(s) for -")
  }

  /**
   * The record `update_topic_echo_metrics` writes: the three counts and their total, with the
   * previous velocity and the change only when an earlier record existed.
   */
  function NextEcho(prev: Option<EchoMetrics>, reddit: int, farcaster: int, discord: int, velocity: real, now: int): (m: EchoMetrics)
    ensures m.totalMentions == m.reddit + m.farcaster + m.discord
    ensures (m.reddit, m.farcaster, m.discord, m.velocity, m.lastSeen) == (reddit, farcaster, discord, velocity, now)
    ensures m.previous.Some? <==> prev.Some?
    ensures m.change.Some? <==> prev.Some?
    ensures prev.Some? ==> m.previous.value == prev.value.velocity && m.change.value == velocity - prev.value.velocity
  {
    match prev
    case None => EchoMetrics(now, reddit, farcaster, discord, velocity, reddit + farcaster + discord, None, None)
    case Some(p) =>
      EchoMetrics(now, reddit, farcaster, discord, velocity, reddit + farcaster + discord, Some(p.velocity), Some(velocity - p.velocity))
  }

  /** `update_topic_echo_metrics`. */
  function UpdateTopicEchoMetrics(st: Store, topic: string, reddit: int, farcaster: int, discord: int,
                                  velocity: real, now: int): (r: Result<Store>)
    ensures r.Ok? <==> EchoHistory(st, topic).Ok?
    ensures r.Ok? ==>
      Find(r.value, Key(EchoNamespace, topic)) == Some(Echo(NextEcho(EchoHistory(st, topic).value, reddit, farcaster, discord, velocity, now)))
  {
    var prev :- EchoHistory(st, topic);
    var e := Echo(NextEcho(prev, reddit, farcaster, discord, velocity, now));
    PutFind(st, Key(EchoNamespace, topic), e, "");
    Ok(Put(st, Key(EchoNamespace, topic), e))
  }

  /** Recording a topic twice links the two: the second record carries the first velocity and the difference. */
  lemma {:induction false} EchoTwice(st: Store, topic: string, r1: int, f1: int, d1: int, v1: real, r2: int, f2: int, d2: int, v2: real, now: int, later: int)
    requires UpdateTopicEchoMetrics(st, topic, r1, f1, d1, v1, now).Ok?
    ensures var st1 := UpdateTopicEchoMetrics(st, topic, r1, f1, d1, v1, now).value;
      var st2 := UpdateTopicEchoMetrics(st1, topic, r2, f2, d2, v2, later);
      st2.Ok? && Find(st2.value, Key(EchoNamespace, topic)).value.echo.previous == Some(v1)
      && Find(st2.value, Key(EchoNamespace, topic)).value.echo.change == Some(v2 - v1)
  {
  }

  // ---------------------------------------------------------------------------------------------
  // Slop fingerprints
  // ---------------------------------------------------------------------------------------------

  /** `get_author_slop_profile`: the stored fingerprint, or a zeroed one that is not stored. */
  function SlopProfile(st: Store, author: string, now: int): (r: Result<SlopFingerprint>)
    ensures Find(st, Key(SlopNamespace, author)).None? ==> r == Ok(SlopFingerprint(0, 0.0, 0.0, [], Some(now)))
    ensures r.Ok? && Find(st, Key(SlopNamespace, author)).Some? ==>
      Find(st, Key(SlopNamespace, author)).value == Slop(r.value)
  {
    match Find(st, Key(SlopNamespace, author))
    case None => Ok(SlopFingerprint(0, 0.0, 0.0, [], Some(now)))
    case Some(Slop(p)) => Ok(p)
    case Some(_) => Raised("KeyError: count")
  }

  /** The fingerprint after one more score: running count, total and average, and the last ten scores. */
  function NextSlop(p: SlopFingerprint, score: real, now: int): (q: SlopFingerprint)
    ensures q.count == p.count + 1 && q.total == p.total + score
    ensures q.avg * q.count as real == q.total
    ensures q.lastScores == Last(p.lastScores + [score], 10)
  {
    var count := p.count + 1;
    var total := p.total + score;
    SlopFingerprint(count, total, total / count as real, Last(p.lastScores + [score], 10), Some(now))
  }

  /** `update_author_slop_profile`. */
  function UpdateSlopProfile(st: Store, author: string, score: real, now: int): (r: Result<Store>)
    ensures r.Ok? <==> SlopProfile(st, author, now).Ok?
    ensures r.Ok? ==> Find(r.value, Key(SlopNamespace, author)) == Some(Slop(NextSlop(SlopProfile(st, author, now).value, score, now)))
  {
    var p :- SlopProfile(st, author, now);
    var e := Slop(NextSlop(p, score, now));
    PutFind(st, Key(SlopNamespace, author), e, "");
    Ok(Put(st, Key(SlopNamespace, author), e))
  }

  /** The fingerprint a run of scores builds from nothing. */
  function ReplaySlop(scores: seq<real>, now: int): SlopFingerprint
  {
    if |scores| == 0 then SlopFingerprint(0, 0.0, 0.0, [], Some(now))
    else NextSlop(ReplaySlop(scores[..|scores| - 1], now), scores[|scores| - 1], now)
  }

  /** After any run of scores the fingerprint counts them and keeps the ten most recent, in order. */
  lemma {:induction false} ReplaySlopRecent(scores: seq<real>, now: int)
    ensures ReplaySlop(scores, now).count == |scores|
    ensures ReplaySlop(scores, now).lastScores == Last(scores, 10)
  {
    if |scores| > 0 {
      var init := scores[..|scores| - 1];
      assert scores == init + [scores[|scores| - 1]];
      ReplaySlopRecent(init, now);
      LastOfSnoc(init, scores[|scores| - 1], 10);
    }
  }

  /** For scores in `[0, 1]` the fingerprint's total stays within its count and its average in `[0, 1]`. */
  lemma {:induction false} ReplaySlopWithin(scores: seq<real>, now: int)
    requires forall i :: 0 <= i < |scores| ==> 0.0 <= scores[i] <= 1.0
    ensures 0.0 <= ReplaySlop(scores, now).total <= |scores| as real
    ensures |scores| > 0 ==> 0.0 <= ReplaySlop(scores, now).avg <= 1.0
  {
    if |scores| > 0 {
      var init := scores[..|scores| - 1];
      assert forall i :: 0 <= i < |init| ==> init[i] == scores[i];
      ReplaySlopWithin(init, now);
      ReplaySlopRecent(init, now);
      var p := ReplaySlop(init, now);
      var q := NextSlop(p, scores[|scores| - 1], now);
      assert q == ReplaySlop(scores, now);
      assert q.count == |scores| && q.total == p.total + scores[|scores| - 1];
      assert 0.0 <= q.total <= |scores| as real;
      AverageWithin(q.total, q.count);
      assert q.avg == q.total / q.count as real;
    }
  }

  /** Keeping the last `n` of a list with one more element is keeping the last `n` of the longer list. */
  lemma {:induction false} LastOfSnoc<T>(xs: seq<T>, x: T, n: nat)
    requires n > 0
    ensures Last(Last(xs, n) + [x], n) == Last(xs + [x], n)
  {
  }

  lemma {:induction false} AverageWithin(total: real, n: nat)
    requires n > 0 && 0.0 <= total <= n as real
    ensures 0.0 <= total / n as real <= 1.0
  {
    assert total / n as real <= n as real / n as real;
  }

  // ---------------------------------------------------------------------------------------------
  // Banned-term statistics
  // ---------------------------------------------------------------------------------------------

  /** `get_author_ban_stats`: the stored statistics, or zeroed ones that are not stored. */
  function BanStats(st: Store, author: string, now: int): (r: Result<BanTermStats>)
    ensures Find(st, Key(BanNamespace, author)).None? ==> r == Ok(BanTermStats(0, 0.0, [], 0.0, Some(now)))
    ensures r.Ok? && Find(st, Key(BanNamespace, author)).Some? ==>
      Find(st, Key(BanNamespace, author)).value == Ban(r.value)
  {
    match Find(st, Key(BanNamespace, author))
    case None => Ok(BanTermStats(0, 0.0, [], 0.0, Some(now)))
    case Some(Ban(p)) => Ok(p)
    case Some(_) => Raised("KeyError: count")
  }

  /** `term.lower().strip()`. */
  function CleanTerm(t: string): string
  {
    Text.Strip(Text.Lower(t))
  }

  /** How many of the terms clean to `k`. */
  function Occurrences(terms: seq<string>, k: string): (n: nat)
    ensures n <= |terms|
  {
    if |terms| == 0 then 0
    else Occurrences(terms[..|terms| - 1], k) + (if CleanTerm(terms[|terms| - 1]) == k then 1 else 0)
  }

  /** The violations loop: `violations[clean] = violations.get(clean, 0) + 1` for each term in turn. */
  function AddViolations(v: Tally, terms: seq<string>): (r: Tally)
    ensures |v| <= |r|
    ensures forall i :: 0 <= i < |v| ==> r[i].0 == v[i].0
  {
    if |terms| == 0 then v else AddTo(AddViolations(v, terms[..|terms| - 1]), CleanTerm(terms[|terms| - 1]), 1)
  }

  /**
   * Each cleaned term's count goes up by the number of terms that clean to it, no other count
   * moves, and the counts grow by one per term in all.
   */
  lemma {:induction false} AddViolationsCounts(v: Tally, terms: seq<string>, k: string)
    ensures CountOf(AddViolations(v, terms), k) == CountOf(v, k) + Occurrences(terms, k)
    ensures TallyTotal(AddViolations(v, terms)) == TallyTotal(v) + |terms|
  {
    if |terms| > 0 {
      AddViolationsCounts(v, terms[..|terms| - 1], k);
      AddToCounts(AddViolations(v, terms[..|terms| - 1]), CleanTerm(terms[|terms| - 1]), 1, k);
    }
  }

  /** The statistics after one more violating tweet. */
  function NextBan(p: BanTermStats, terms: seq<string>, weight: real, now: int): (q: BanTermStats)
    ensures q.count == p.count + 1 && q.totalWeight == p.totalWeight + weight
    ensures q.avg * q.count as real == q.totalWeight
  {
    var count := p.count + 1;
    var total := p.totalWeight + weight;
    BanTermStats(count, total, AddViolations(p.violations, terms), total / count as real, Some(now))
  }

  /** `update_author_ban_stats`. */
  function UpdateBanStats(st: Store, author: string, terms: seq<string>, weight: real, now: int): (r: Result<Store>)
    ensures r.Ok? <==> BanStats(st, author, now).Ok?
    ensures r.Ok? ==> Find(r.value, Key(BanNamespace, author)) == Some(Ban(NextBan(BanStats(st, author, now).value, terms, weight, now)))
  {
    var p :- BanStats(st, author, now);
    var e := Ban(NextBan(p, terms, weight, now));
    PutFind(st, Key(BanNamespace, author), e, "");
    Ok(Put(st, Key(BanNamespace, author), e))
  }

  /** One update adds one per mention to each cleaned term's violation count. */
  lemma {:induction false} BanUpdateCounts(st: Store, author: string, terms: seq<string>, weight: real, now: int, k: string)
    requires UpdateBanStats(st, author, terms, weight, now).Ok?
    ensures var before := BanStats(st, author, now).value;
      var after := Find(UpdateBanStats(st, author, terms, weight, now).value, Key(BanNamespace, author)).value.ban;
      CountOf(after.violations, k) == CountOf(before.violations, k) + Occurrences(terms, k)
  {
    AddViolationsCounts(BanStats(st, author, now).value.violations, terms, k);
  }

  // ---------------------------------------------------------------------------------------------
  // Latency flags
  // ---------------------------------------------------------------------------------------------

  /**
   * `store_latency_flag`: the event under `latency_flags:<stamp>`, `stamp` being the tweet time
   * formatted `%Y%m%d_%H%M%S`, with the tweet text cut to 200 characters.
   */
  function StoreLatencyFlag(st: Store, asset: string, text: string, stamp: string, tweetTime: int,
                            changePct: real, deltaSeconds: int, now: int): (r: Store)
    ensures var e := Find(r, Key(LatencyNamespace, stamp));
      && e.Some? && e.value.Latency?
      && |e.value.flag.text| <= 200 && e.value.flag.text <= text
      && (|text| <= 200 ==> e.value.flag.text == text)
      && e.value.flag.asset == asset && e.value.flag.changePct == changePct && e.value.flag.deltaSeconds == deltaSeconds
      && e.value.flag.flaggedAt == now
  {
    var e := Latency(LatencyFlag(asset, Text.Truncate(text, 200), tweetTime, changePct, deltaSeconds, now));
    PutFind(st, Key(LatencyNamespace, stamp), e, "");
    Put(st, Key(LatencyNamespace, stamp), e)
  }

  // ---------------------------------------------------------------------------------------------
  // Schemas
  // ---------------------------------------------------------------------------------------------

  datatype Schema = Schema(required: seq<string>, optional: seq<string>)

  /** `namespace_schemas.get(namespace)`. */
  function SchemaOf(namespace: string): Option<Schema>
  {
    if namespace == SarcasmNamespace then
      Some(Schema(["total_tweets", "sarcastic_tweets", "sarcasm_rate"], ["last_updated", "examples", "confidence_history"]))
    else if namespace == EchoNamespace then
      Some(Schema(["last_seen", "echo_velocity"],
                  ["reddit_threads", "farcaster_refs", "discord_refs", "previous_velocity", "velocity_change", "total_mentions"]))
    else if namespace == SlopNamespace then
      Some(Schema(["count", "avg_slop"], ["total_slop", "last_scores", "last_updated"]))
    else if namespace == BanNamespace then
      Some(Schema(["count", "total_weight"], ["violations", "avg_weight", "last_updated"]))
    else if namespace == LatencyNamespace then
      Some(Schema(["asset", "price_change_pct", "delta_seconds"], ["tweet_text", "tweet_time", "flagged_at"]))
    else if namespace == VisualNamespace then
      Some(Schema(["table", "veracity_check", "chart_confidence"], ["extracted_at", "image_hash", "source_url"]))
    else None
  }

  datatype ValidationError = UnknownNamespace(namespace: string) | MissingField(field: string) | UnexpectedField(field: string)

  /** One error per required field missing from `fields`, in schema order. */
  function Missing(required: seq<string>, fields: seq<string>): (r: seq<ValidationError>)
    ensures |r| <= |required|
    ensures forall f :: MissingField(f) in r <==> f in required && f !in fields
    ensures forall e :: e in r ==> e.MissingField?
  {
    if |required| == 0 then []
    else (if required[0] in fields then [] else [MissingField(required[0])]) + Missing(required[1..], fields)
  }

  /** One error per field, in the entry's key order, outside the allowed ones. */
  function Unexpected(fields: seq<string>, allowed: seq<string>): (r: seq<ValidationError>)
    ensures |r| <= |fields|
    ensures forall f :: UnexpectedField(f) in r <==> f in fields && f !in allowed
    ensures forall e :: e in r ==> e.UnexpectedField?
  {
    if |fields| == 0 then []
    else (if fields[0] in allowed then [] else [UnexpectedField(fields[0])]) + Unexpected(fields[1..], allowed)
  }

  /**
   * `validate_namespace_entry` for an entry whose keys are `fields` in order: one error for an
   * unknown namespace, otherwise the missing required fields followed by the unexpected ones.
   */
  function ValidateNamespaceEntry(namespace: string, fields: seq<string>): (errors: seq<ValidationError>)
    ensures SchemaOf(namespace).None? ==> errors == [UnknownNamespace(namespace)]
    ensures SchemaOf(namespace).Some? ==> forall e :: e in errors ==> !e.UnknownNamespace?
  {
    match SchemaOf(namespace)
    case None => [UnknownNamespace(namespace)]
    case Some(s) => Missing(s.required, fields) + Unexpected(fields, s.required + s.optional)
  }

  /** The entry is valid exactly when its namespace is known, every required field is there and no other field is. */
  lemma {:induction false} ValidateIff(namespace: string, fields: seq<string>)
    ensures ValidateNamespaceEntry(namespace, fields) == [] <==>
      && SchemaOf(namespace).Some?
      && (forall f :: f in SchemaOf(namespace).value.required ==> f in fields)
      && (forall f :: f in fields ==> f in SchemaOf(namespace).value.required + SchemaOf(namespace).value.optional)
  {
    if SchemaOf(namespace).Some? {
      var s := SchemaOf(namespace).value;
      var m, u := Missing(s.required, fields), Unexpected(fields, s.required + s.optional);
      if m + u != [] {
        if m != [] {
          assert m[0] in m;
        } else {
          assert u[0] in u;
        }
      }
    }
  }

  function Optional(present: bool, field: string): seq<string>
  {
    if present then [field] else []
  }

  /** The dictionary keys a typed entry is stored with, in the order the program writes them. */
  function FieldsOf(e: Entry): seq<string>
  {
    match e
    case Sarcasm(p) =>
      ["total_tweets", "sarcastic_tweets", "sarcasm_rate"] + Optional(p.lastUpdated.Some?, "last_updated")
      + Optional(p.confidences.Some?, "confidence_history")
    case Echo(m) =>
      ["last_seen", "reddit_threads", "farcaster_refs", "discord_refs", "echo_velocity", "total_mentions"]
      + Optional(m.previous.Some?, "previous_velocity") + Optional(m.change.Some?, "velocity_change")
    case Slop(p) => ["count", "avg_slop", "total_slop", "last_scores"] + Optional(p.lastUpdated.Some?, "last_updated")
    case Ban(p) => ["count", "total_weight", "violations", "avg_weight"] + Optional(p.lastUpdated.Some?, "last_updated")
    case Latency(_) => ["asset", "tweet_text", "tweet_time", "price_change_pct", "delta_seconds", "flagged_at"]
    case Other(fields) => seq(|fields|, i requires 0 <= i < |fields| => fields[i].0)
  }

  /** The namespace whose schema a typed entry is checked against. */
  function NamespaceFor(e: Entry): Option<string>
  {
    match e
    case Sarcasm(_) => Some(SarcasmNamespace)
    case Echo(_) => Some(EchoNamespace)
    case Slop(_) => Some(SlopNamespace)
    case Ban(_) => Some(BanNamespace)
    case Latency(_) => Some(LatencyNamespace)
    case Other(_) => None
  }

  /** Every record the updaters write, and every record the signal agents write, passes its namespace's schema. */
  lemma {:induction false} TypedEntriesValidate(e: Entry)
    requires !e.Other?
    ensures ValidateNamespaceEntry(NamespaceFor(e).value, FieldsOf(e)) == []
  {
    ValidateIff(NamespaceFor(e).value, FieldsOf(e));
  }
}
