/**
 * The echo mapper: it extracts up to three crypto keywords from a tweet, widens them with synonyms,
 * counts mentions on Reddit, Farcaster and Discord, turns the total into a velocity in [0, 1] and
 * records the counts under `echo_map:<topic>`.
 *
 * The regular-expression matches are evidence parameters, whether the Reddit client is configured is
 * a flag, the per-subreddit Reddit queries are an oracle, and `decay(total)` stands for
 * `2.718 ** (-total / 10)`. The Farcaster and Discord searches always answer 0.
 */
module EchoMapper {
  import opened Wrappers
  import opened Values
  import Text
  import opened Rounding
  import opened MemoryStore

  datatype EchoResult = EchoResult(redditThreads: int, farcasterRefs: int, discordRefs: int, echoVelocity: real,
                                   viralityAssessment: string)

  /** The answer for a tweet without keywords, and when the analysis raises. */
  const ZeroResult: EchoResult := EchoResult(0, 0, 0, 0.0, "Low")

  /**
   * What the keyword regular expressions found in the tweet with links, mentions and hashtags removed:
   * the known tickers present as whole words (in table order), the crypto-term matches as written,
   * and the project names present as whole words (in table order, as spelled in the table).
   */
  datatype KeywordEvidence = KeywordEvidence(tickers: seq<string>, terms: seq<string>, projects: seq<string>)

  // ---------------------------------------------------------------------------------------------
  // Keywords
  // ---------------------------------------------------------------------------------------------

  function LowerAll(ws: seq<string>): (r: seq<string>)
    ensures |r| == |ws| && forall i :: 0 <= i < |ws| ==> r[i] == Text.Lower(ws[i])
  {
    if |ws| == 0 then [] else LowerAll(ws[..|ws| - 1]) + [Text.Lower(ws[|ws| - 1])]
  }

  /** The keyword list before duplicates are removed: project names count only after a ticker or a term. */
  function RawKeywords(ev: KeywordEvidence): (r: seq<string>)
    ensures |ev.tickers| + |ev.terms| == 0 ==> r == []
    ensures ev.tickers <= r
  {
    var found := ev.tickers + LowerAll(ev.terms);
    found + (if |found| > 0 then LowerAll(ev.projects) else [])
  }

  /**
   * `_extract_keywords`: the distinct raw keywords, at most three. `list(set(...))` has no fixed order
   * in Python; the model takes first occurrences in order.
   */
  function ExtractKeywords(ev: KeywordEvidence): (r: seq<string>)
    ensures |r| <= 3
    ensures forall i, j :: 0 <= i < j < |r| ==> r[i] != r[j]
    ensures forall x :: x in r ==> x in RawKeywords(ev)
    ensures |r| == 0 <==> |ev.tickers| + |ev.terms| == 0
    ensures |Text.Dedup(RawKeywords(ev))| >= 3 ==> |r| == 3
    ensures |Text.Dedup(RawKeywords(ev))| <= 3 ==> forall x :: x in RawKeywords(ev) ==> x in r
  {
    var raw := RawKeywords(ev);
    var unique := Text.Dedup(raw);
    assert |raw| > 0 ==> raw[0] in unique;
    assert |unique| <= 3 ==> Text.Truncate(unique, 3) == unique;
    Text.Truncate(unique, 3)
  }

  /** The echo record's topic: `"_".join(keywords[:3])`. */
  function TopicKey(keywords: seq<string>): (r: string)
    ensures |keywords| == 0 ==> r == ""
    ensures |keywords| > 0 ==> keywords[0] <= r
    ensures |keywords| == 1 ==> r == keywords[0]
  {
    Text.Join(keywords, "_")
  }

  /** Keywords without underscores can be read back from their topic. */
  lemma {:induction false} TopicKeySplits(keywords: seq<string>)
    requires |keywords| > 0 && forall i :: 0 <= i < |keywords| ==> '_' !in keywords[i]
    ensures Text.Split(TopicKey(keywords), '_') == keywords
  {
    Text.SplitJoin(keywords, '_');
  }

  // ---------------------------------------------------------------------------------------------
  // Expansion
  // ---------------------------------------------------------------------------------------------

  /** The synonym table as written; its `DeFi` key has lower-case letters. */
  const ExpansionsAsWritten: seq<(string, seq<string>)> := [
    ("BTC", ["Bitcoin", "bitcoin"]), ("ETH", ["Ethereum", "ethereum", "ether"]),
    ("DeFi", ["decentralized finance", "defi"]), ("NFT", ["non-fungible token", "nft"]),
    ("DAO", ["decentralized autonomous organization", "dao"]), ("TVL", ["total value locked", "tvl"]),
    ("DEX", ["decentralized exchange", "dex"]), ("CEX", ["centralized exchange", "cex"])
  ]

  /** The synonym table with every key in capitals, as the `keyword.upper()` lookup needs. */
  const Expansions: seq<(string, seq<string>)> := [
    ("BTC", ["Bitcoin", "bitcoin"]), ("ETH", ["Ethereum", "ethereum", "ether"]),
    ("DEFI", ["decentralized finance", "defi"]), ("NFT", ["non-fungible token", "nft"]),
    ("DAO", ["decentralized autonomous organization", "dao"]), ("TVL", ["total value locked", "tvl"]),
    ("DEX", ["decentralized exchange", "dex"]), ("CEX", ["centralized exchange", "cex"])
  ]

  /** The synonyms a table lists under `key`, or none. */
  function Synonyms(table: seq<(string, seq<string>)>, key: string): (r: seq<string>)
    ensures (forall i :: 0 <= i < |table| ==> table[i].0 != key) ==> r == []
  {
    if |table| == 0 then []
    else if table[0].0 == key then table[0].1
    else Synonyms(table[1..], key)
  }

  /** The synonyms of every keyword, in keyword order. */
  function AllSynonyms(table: seq<(string, seq<string>)>, keywords: seq<string>): (r: seq<string>)
    ensures forall x :: x in r ==> exists k :: k in keywords && x in Synonyms(table, Text.Upper(k))
  {
    if |keywords| == 0 then []
    else
      var init := AllSynonyms(table, keywords[..|keywords| - 1]);
      var last := keywords[|keywords| - 1];
      assert forall k :: k in keywords[..|keywords| - 1] ==> k in keywords;
      init + Synonyms(table, Text.Upper(last))
  }

  /** Every synonym of every keyword is listed. */
  lemma {:induction false} AllSynonymsComplete(table: seq<(string, seq<string>)>, keywords: seq<string>, i: nat)
    requires i < |keywords|
    ensures forall x :: x in Synonyms(table, Text.Upper(keywords[i])) ==> x in AllSynonyms(table, keywords)
  {
    if i < |keywords| - 1 {
      AllSynonymsComplete(table, keywords[..|keywords| - 1], i);
    }
  }

  /** `_expand_keywords` with a given synonym table: the keywords and their synonyms, each once. */
  function ExpandWith(table: seq<(string, seq<string>)>, keywords: seq<string>): (r: seq<string>)
    ensures forall k :: k in keywords ==> k in r
    ensures forall i, j :: 0 <= i < j < |r| ==> r[i] != r[j]
    ensures forall x :: x in r ==> x in keywords || exists k :: k in keywords && x in Synonyms(table, Text.Upper(k))
  {
    Text.Dedup(keywords + AllSynonyms(table, keywords))
  }

  /** `_expand_keywords` as written. */
  function ExpandKeywordsAsWritten(keywords: seq<string>): (r: seq<string>)
    ensures forall k :: k in keywords ==> k in r
  {
    ExpandWith(ExpansionsAsWritten, keywords)
  }

  /** `_expand_keywords` with the `DeFi` key in capitals. */
  function ExpandKeywords(keywords: seq<string>): (r: seq<string>)
    ensures forall k :: k in keywords ==> k in r
    ensures forall i, j :: 0 <= i < j < |r| ==> r[i] != r[j]
  {
    ExpandWith(Expansions, keywords)
  }

  /** Every synonym of a keyword appears in the expansion. */
  lemma {:induction false} ExpansionIncludesSynonyms(table: seq<(string, seq<string>)>, keywords: seq<string>, i: nat)
    requires i < |keywords|
    ensures forall x :: x in Synonyms(table, Text.Upper(keywords[i])) ==> x in ExpandWith(table, keywords)
  {
    AllSynonymsComplete(table, keywords, i);
  }

  /** An upper-cased keyword never has a lower-case `e` in it, so it never equals `DeFi`. */
  lemma {:induction false} UpperNeverDeFi(k: string)
    ensures Text.Upper(k) != "DeFi"
  {
    if |Text.Upper(k)| == 4 {
      assert Text.Upper(k)[1] == Text.UpperChar(k[1]);
    }
  }

  /** As written, the keyword `defi` gains no synonyms. */
  lemma {:induction false} DefiNotExpanded()
    ensures ExpandKeywordsAsWritten(["defi"]) == ["defi"]
  {
    var kws: seq<string> := ["defi"];
    assert Text.Upper(kws[0]) == "DEFI";
    UpperNeverDeFi(kws[0]);
    assert Synonyms(ExpansionsAsWritten, Text.Upper(kws[0])) == [];
    assert AllSynonyms(ExpansionsAsWritten, kws) == AllSynonyms(ExpansionsAsWritten, []) + [];
    assert kws + AllSynonyms(ExpansionsAsWritten, kws) == kws;
    assert Text.Dedup(kws) == Text.DedupAfter([], kws);
  }

  /** With the capitalised key, the keyword `defi` gains its synonyms. */
  lemma {:induction false} DefiExpanded()
    ensures "decentralized finance" in ExpandKeywords(["defi"])
  {
    var kws: seq<string> := ["defi"];
    assert Text.Upper(kws[0]) == "DEFI";
    assert Synonyms(Expansions, Text.Upper(kws[0])) == ["decentralized finance", "defi"];
    ExpansionIncludesSynonyms(Expansions, kws, 0);
  }

  /** As written, the `DeFi` entry is never used: every keyword expands as if the table lacked it. */
  lemma {:induction false} DeFiEntryUnused(keywords: seq<string>)
    ensures forall k :: k in keywords ==> Synonyms(ExpansionsAsWritten, Text.Upper(k)) == Synonyms(ExpansionsAsWritten[..2] + ExpansionsAsWritten[3..], Text.Upper(k))
  {
    forall k | k in keywords
      ensures Synonyms(ExpansionsAsWritten, Text.Upper(k)) == Synonyms(ExpansionsAsWritten[..2] + ExpansionsAsWritten[3..], Text.Upper(k))
    {
      UpperNeverDeFi(k);
    }
  }

  // ---------------------------------------------------------------------------------------------
  // Searches and velocity
  // ---------------------------------------------------------------------------------------------

  const Subreddits: seq<string> := ["CryptoCurrency", "Bitcoin", "Ethereum", "DeFi", "altcoin", "CryptoMarkets",
                                    "cryptocurrencynews", "blockchain"]

  /** A failed subreddit query counts nothing. */
  function Hits(r: Result<nat>): nat
  {
    if r.Ok? then r.value else 0
  }

  /** The threads found for one keyword across `subs`. */
  function KeywordHits(keyword: string, subs: seq<string>, query: (string, string) -> Result<nat>): (n: nat)
    ensures n == 0 <==> forall i :: 0 <= i < |subs| ==> Hits(query(keyword, subs[i])) == 0
  {
    if |subs| == 0 then 0 else KeywordHits(keyword, subs[..|subs| - 1], query) + Hits(query(keyword, subs[|subs| - 1]))
  }

  /** The threads found for all `keywords` across `subs`. */
  function TotalHits(keywords: seq<string>, subs: seq<string>, query: (string, string) -> Result<nat>): (n: nat)
    ensures n == 0 <==> forall i :: 0 <= i < |keywords| ==> KeywordHits(keywords[i], subs, query) == 0
  {
    if |keywords| == 0 then 0 else TotalHits(keywords[..|keywords| - 1], subs, query) + KeywordHits(keywords[|keywords| - 1], subs, query)
  }

  /**
   * `_search_reddit`: without credentials 0; otherwise the threads the first three keywords find in
   * the eight subreddits, a failed query counting nothing, capped at 20.
   */
  method SearchReddit(available: bool, keywords: seq<string>, query: (string, string) -> Result<nat>) returns (n: nat)
    ensures n <= 20
    ensures !available ==> n == 0
    ensures available ==> n == if TotalHits(Text.Truncate(keywords, 3), Subreddits, query) < 20 then TotalHits(Text.Truncate(keywords, 3), Subreddits, query) else 20
    ensures n == RedditCount(available, keywords, query)
  {
    if !available {
      return 0;
    }
    var kws := Text.Truncate(keywords, 3);
    var total := 0;
    var i := 0;
    while i < |kws|
      invariant 0 <= i <= |kws|
      invariant total == TotalHits(kws[..i], Subreddits, query)
    {
      var j := 0;
      var sub := 0;
      while j < |Subreddits|
        invariant 0 <= j <= |Subreddits|
        invariant sub == KeywordHits(kws[i], Subreddits[..j], query)
      {
        match query(kws[i], Subreddits[j]) {
          case Ok(found) => sub := sub + found;
          case Raised(_) =>
        }
        Text.TakeStep(Subreddits, j);
        j := j + 1;
      }
      Text.TakeAll(Subreddits);
      Text.TakeStep(kws, i);
      total := total + sub;
      i := i + 1;
    }
    Text.TakeAll(kws);
    n := if total < 20 then total else 20;
  }

  /** The count `_search_reddit` returns, as a value: the hits of the first three keywords, capped at 20. */
  function RedditCount(available: bool, keywords: seq<string>, query: (string, string) -> Result<nat>): (n: nat)
    ensures n <= 20
    ensures !available ==> n == 0
    ensures available ==> (n == 20 <==> TotalHits(Text.Truncate(keywords, 3), Subreddits, query) >= 20)
    ensures available && n < 20 ==> n == TotalHits(Text.Truncate(keywords, 3), Subreddits, query)
  {
    if !available then 0
    else
      var total := TotalHits(Text.Truncate(keywords, 3), Subreddits, query);
      if total < 20 then total else 20
  }

  /** `decay` behaves like `t ↦ 2.718 ** (-t / 10)` on mention totals: 1 at 0, positive, at most 1, non-increasing. */
  ghost predicate IsDecay(decay: int -> real)
  {
    decay(0) == 1.0
    && (forall t :: t >= 0 ==> 0.0 < decay(t) <= 1.0)
    && (forall a, b :: 0 <= a <= b ==> decay(b) <= decay(a))
  }

  /** `_calculate_echo_velocity`: `round(min(1 - decay(total), 1.0), 2)`. */
  function Velocity(total: int, decay: int -> real): (v: real)
    ensures IsDecay(decay) && total == 0 ==> v == 0.0
    ensures IsDecay(decay) && total >= 0 ==> 0.0 <= v <= 1.0
  {
    var raw := Min(1.0 - decay(total), 1.0);
    assert IsDecay(decay) && total >= 0 ==> 0.0 <= raw <= 1.0;
    RoundUnit(raw);
    Round(raw, 2)
  }

  lemma {:induction false} RoundUnit(x: real)
    ensures 0.0 <= x <= 1.0 ==> 0.0 <= Round(x, 2) <= 1.0
  {
    if 0.0 <= x <= 1.0 {
      RoundStaysWithin(x, 0, 100);
    }
  }

  /** More mentions never lower the velocity, and the `min` with 1.0 never binds. */
  lemma {:induction false} VelocityMonotone(a: int, b: int, decay: int -> real)
    requires IsDecay(decay) && 0 <= a <= b
    ensures Velocity(a, decay) <= Velocity(b, decay)
    ensures Min(1.0 - decay(b), 1.0) == 1.0 - decay(b)
  {
    RoundMonotone(Min(1.0 - decay(a), 1.0), Min(1.0 - decay(b), 1.0), 2);
  }

  // ---------------------------------------------------------------------------------------------
  // Memory
  // ---------------------------------------------------------------------------------------------

  /**
   * The earlier velocity `_update_echo_memory` reads: none for a missing or empty record, the
   * stored velocity (0.0 when the record has none), and an error when the stored value is not a number.
   */
  function PreviousVelocity(st: Store, topic: string): (r: Result<Option<real>>)
    ensures Find(st, Key(EchoNamespace, topic)).None? ==> r == Ok(None)
    ensures (match Find(st, Key(EchoNamespace, topic)) case Some(Echo(m)) => r == Ok(Some(m.velocity)) case _ => true)
  {
    match Find(st, Key(EchoNamespace, topic))
    case None => Ok(None)
    case Some(Echo(m)) => Ok(Some(m.velocity))
    case Some(Other(fields)) =>
      if |fields| == 0 then Ok(None)
      else (match FieldValue(fields, "echo_velocity")
        case None => Ok(Some(0.0))
        case Some(v) => if Num(v).Some? then Ok(Some(Num(v).value)) else Raised("TypeError: unsupported operand type(s) for -"))
    case Some(_) => Ok(Some(0.0))
  }

  /** The record `_update_echo_memory` writes. */
  function EchoRecord(prev: Option<real>, reddit: int, farcaster: int, discord: int, velocity: real, now: int): (m: EchoMetrics)
    ensures m.totalMentions == m.reddit + m.farcaster + m.discord
    ensures m.previous == prev
    ensures m.change.Some? <==> prev.Some?
    ensures prev.Some? ==> m.previous.value + m.change.value == velocity
  {
    EchoMetrics(now, reddit, farcaster, discord, velocity, reddit + farcaster + discord, prev,
                if prev.Some? then Some(velocity - prev.value) else None)
  }

  /** On a missing or well-formed record the agent writes what the memory store's own update writes. */
  lemma {:induction false} AgentEchoAgrees(st: Store, topic: string, reddit: int, farcaster: int, discord: int, velocity: real, now: int)
    requires Find(st, Key(EchoNamespace, topic)).None? || Find(st, Key(EchoNamespace, topic)).value.Echo?
    ensures PreviousVelocity(st, topic).Ok? && UpdateTopicEchoMetrics(st, topic, reddit, farcaster, discord, velocity, now).Ok?
    ensures Put(st, Key(EchoNamespace, topic), Echo(EchoRecord(PreviousVelocity(st, topic).value, reddit, farcaster, discord, velocity, now)))
      == UpdateTopicEchoMetrics(st, topic, reddit, farcaster, discord, velocity, now).value
  {
    var key := Key(EchoNamespace, topic);
    var h := EchoHistory(st, topic);
    assert h.Ok?;
    var prev := PreviousVelocity(st, topic);
    assert prev == Ok(if h.value.Some? then Some(h.value.value.velocity) else None);
    assert EchoRecord(prev.value, reddit, farcaster, discord, velocity, now) == NextEcho(h.value, reddit, farcaster, discord, velocity, now);
    assert UpdateTopicEchoMetrics(st, topic, reddit, farcaster, discord, velocity, now)
      == Ok(Put(st, key, Echo(NextEcho(h.value, reddit, farcaster, discord, velocity, now))));
  }

  // ---------------------------------------------------------------------------------------------
  // Analysis
  // ---------------------------------------------------------------------------------------------

  /**
   * `analyze_echo`, expanding with the synonym `table`: `ExpansionsAsWritten` is the program as
   * written, `Expansions` the corrected table. A tweet without keywords, or an unreadable earlier
   * record, gives the zero result and leaves the store alone.
   */
  function Analyze(table: seq<(string, seq<string>)>, ev: KeywordEvidence, available: bool,
                   query: (string, string) -> Result<nat>, decay: int -> real, st: Store, now: int): (r: (EchoResult, Store))
    ensures |ev.tickers| + |ev.terms| == 0 ==> r == (ZeroResult, st)
    ensures IsDecay(decay) ==> 0.0 <= r.0.echoVelocity <= 1.0
    ensures 0 <= r.0.redditThreads <= 20 && r.0.farcasterRefs == 0 && r.0.discordRefs == 0
    ensures !available && IsDecay(decay) ==> r.0 == ZeroResult
    ensures r.0.viralityAssessment == "Low"
  {
    var keywords := ExtractKeywords(ev);
    if |keywords| == 0 then (ZeroResult, st)
    else
      var res := Observe(table, keywords, available, query, decay);
      var topic := TopicKey(Text.Truncate(keywords, 3));
      match PreviousVelocity(st, topic)
      case Raised(_) => (ZeroResult, st)
      case Ok(prev) =>
        (res, Put(st, Key(EchoNamespace, topic), Echo(EchoRecord(prev, res.redditThreads, res.farcasterRefs,
                                                                  res.discordRefs, res.echoVelocity, now))))
  }

  /**
   * The three platform counts for the expanded keywords and the velocity of their total. Every
   * search catches its own errors, so `isinstance(result, int)` always holds.
   */
  function Observe(table: seq<(string, seq<string>)>, keywords: seq<string>, available: bool,
                   query: (string, string) -> Result<nat>, decay: int -> real): (r: EchoResult)
    ensures r.viralityAssessment == "Low"
    ensures 0 <= r.redditThreads <= 20 && r.farcasterRefs == 0 && r.discordRefs == 0
    ensures !available ==> r.redditThreads == 0
    ensures r.echoVelocity == Velocity(r.redditThreads, decay)
    ensures IsDecay(decay) ==> 0.0 <= r.echoVelocity <= 1.0
  {
    var reddit := RedditCount(available, ExpandWith(table, keywords), query);
    EchoResult(reddit, 0, 0, Velocity(reddit + 0 + 0, decay), "Low")
  }

  /** No string occurs twice. */
  predicate Distinct(s: seq<string>)
  {
    forall i, j :: 0 <= i < j < |s| ==> s[i] != s[j]
  }

  /** A list of distinct strings stays distinct when a string it lacks is appended. */
  lemma {:induction false} AppendFreshDistinct(seen: seq<string>, x: string)
    requires Distinct(seen) && x !in seen
    ensures Distinct(seen + [x])
  {
    var seen' := seen + [x];
    forall i, j | 0 <= i < j < |seen'|
      ensures seen'[i] != seen'[j]
    {
      assert seen'[i] == seen[i];
      if j == |seen| {
        assert seen'[j] == x;
      } else {
        assert seen'[j] == seen[j];
      }
    }
  }

  /**
   * Distinct fresh items lead a de-duplication: they join what was already seen, in order, before
   * anything after them is looked at.
   */
  lemma {:induction false} DedupAfterKeepsFresh(a: seq<string>, b: seq<string>, seen: seq<string>)
    requires Distinct(seen) && Distinct(a)
    requires forall x :: x in a ==> x !in seen
    ensures Distinct(seen + a)
    ensures Text.DedupAfter(a + b, seen) == Text.DedupAfter(b, seen + a)
    decreases |a|
  {
    if |a| == 0 {
      assert a + b == b;
      assert seen + a == seen;
    } else {
      FreshStep(a, b, seen);
      DedupAfterKeepsFresh(a[1..], b, seen + [a[0]]);
      Text.MoveHead(seen, a);
    }
  }

  /** One step of `DedupAfterKeepsFresh`: the first fresh item moves onto the seen list. */
  lemma {:induction false} FreshStep(a: seq<string>, b: seq<string>, seen: seq<string>)
    requires |a| > 0
    requires Distinct(seen) && Distinct(a)
    requires forall x :: x in a ==> x !in seen
    ensures Distinct(seen + [a[0]]) && Distinct(a[1..])
    ensures forall x :: x in a[1..] ==> x !in seen + [a[0]]
    ensures Text.DedupAfter(a + b, seen) == Text.DedupAfter(a[1..] + b, seen + [a[0]])
  {
    var seen' := seen + [a[0]];
    assert a[0] !in seen by {
      assert a[0] in a;
    }
    AppendFreshDistinct(seen, a[0]);
    assert (a + b)[0] == a[0] && (a + b)[1..] == a[1..] + b;
    forall x | x in a[1..]
      ensures x !in seen'
    {
      var k :| 0 <= k < |a[1..]| && a[1..][k] == x;
      assert a[k + 1] == x;
    }
  }

  /** Distinct keywords lead their expansion, whatever the synonym table. */
  lemma {:induction false} ExpansionStartsWithKeywords(table: seq<(string, seq<string>)>, keywords: seq<string>)
    requires Distinct(keywords)
    ensures keywords <= ExpandWith(table, keywords)
  {
    DedupAfterKeepsFresh(keywords, AllSynonyms(table, keywords), []);
    assert [] + keywords == keywords;
    assert keywords <= Text.DedupAfter(AllSynonyms(table, keywords), keywords);
  }

  /**
   * Under the modelled order of `list(set(...))` (first occurrences, in order) the keywords lead
   * their expansion, and the Reddit search takes the first three expanded terms; so three extracted
   * keywords are exactly what is searched, and the synonym table, the `DeFi` key included, makes no
   * difference to the count. Python's hash order can put a synonym among those three terms.
   */
  lemma {:induction false} ThreeKeywordsSearchedAsIs(table: seq<(string, seq<string>)>, ev: KeywordEvidence, available: bool,
                                                      query: (string, string) -> Result<nat>, decay: int -> real)
    requires |ExtractKeywords(ev)| == 3
    ensures Observe(table, ExtractKeywords(ev), available, query, decay).redditThreads
            == RedditCount(available, ExtractKeywords(ev), query)
  {
    var keywords := ExtractKeywords(ev);
    ExpansionStartsWithKeywords(table, keywords);
    var expanded := ExpandWith(table, keywords);
    assert Text.Truncate(expanded, 3) == keywords;
    assert Text.Truncate(keywords, 3) == keywords;
  }

  /**
   * A tweet with keywords either meets an unreadable earlier record and changes nothing, or records
   * the counts it returns, their total and its velocity under its topic, next to the earlier velocity,
   * and touches no other key.
   */
  lemma {:induction false} AnalysisRecords(table: seq<(string, seq<string>)>, ev: KeywordEvidence, available: bool,
                        query: (string, string) -> Result<nat>, decay: int -> real, st: Store, now: int, other: string)
    requires |ev.tickers| + |ev.terms| > 0
    ensures var topic := TopicKey(ExtractKeywords(ev));
      var (res, st') := Analyze(table, ev, available, query, decay, st, now);
      PreviousVelocity(st, topic).Raised? ==> res == ZeroResult && st' == st
    ensures var topic := TopicKey(ExtractKeywords(ev));
      var (res, st') := Analyze(table, ev, available, query, decay, st, now);
      PreviousVelocity(st, topic).Ok? ==>
        && Find(st', Key(EchoNamespace, topic)).Some? && Find(st', Key(EchoNamespace, topic)).value.Echo?
        && var m := Find(st', Key(EchoNamespace, topic)).value.echo;
        && m.totalMentions == res.redditThreads + res.farcasterRefs + res.discordRefs
        && m.velocity == res.echoVelocity
        && m.previous == PreviousVelocity(st, topic).value
        && (other != Key(EchoNamespace, topic) ==> Find(st', other) == Find(st, other))
  {
    var keywords := ExtractKeywords(ev);
    assert Text.Truncate(keywords, 3) == keywords;
    var topic := TopicKey(keywords);
    var prev := PreviousVelocity(st, topic);
    var res := Observe(table, keywords, available, query, decay);
    if prev.Ok? {
      var e := Echo(EchoRecord(prev.value, res.redditThreads, res.farcasterRefs, res.discordRefs, res.echoVelocity, now));
      PutFind(st, Key(EchoNamespace, topic), e, other);
      assert Analyze(table, ev, available, query, decay, st, now) == (res, Put(st, Key(EchoNamespace, topic), e));
    } else {
      assert Analyze(table, ev, available, query, decay, st, now) == (ZeroResult, st);
    }
  }

  /** A tweet without keywords never reaches the platform searches. */
  lemma {:induction false} NoKeywordsNoSearch(table: seq<(string, seq<string>)>, ev: KeywordEvidence, available: bool,
                           query: (string, string) -> Result<nat>, query': (string, string) -> Result<nat>,
                           decay: int -> real, st: Store, now: int)
    requires |ev.tickers| + |ev.terms| == 0
    ensures Analyze(table, ev, available, query, decay, st, now) == Analyze(table, ev, available, query', decay, st, now) == (ZeroResult, st)
  {
  }
}
