/**
 * The latency guard: it names the asset a tweet talks about, finds the largest step in that asset's
 * price series before the tweet, decides whether the market had already repriced, records repriced
 * events in the memory store and decides whether a repriced tweet goes to human review.
 *
 * The price feed is a parameter (`feed(asset)` is the series the exchange returned, empty on failure);
 * the word-boundary and `$SYMBOL` regular expressions are written out over ASCII characters.
 */
module LatencyGuard {
  import opened Wrappers
  import Text
  import opened Rounding
  import opened MemoryStore

  datatype LatencyResult = LatencyResult(repriced: bool, deltaSeconds: int, priceChangePct: real, asset: Option<string>)

  /** A price observation; `timestamp` in seconds. */
  datatype PricePoint = PricePoint(timestamp: int, price: real)

  /** The answer when no asset is named, and when the analysis raises. */
  const Neutral: LatencyResult := LatencyResult(false, 0, 0.0, None)

  function Abs(x: real): (r: real)
    ensures r >= 0.0 && (r == x || r == -x)
  {
    if x < 0.0 then -x else x
  }

  // ---------------------------------------------------------------------------------------------
  // Asset identification
  // ---------------------------------------------------------------------------------------------

  /** Python's `\w` restricted to ASCII. */
  predicate IsWordChar(c: char)
  {
    'a' <= c <= 'z' || 'A' <= c <= 'Z' || '0' <= c <= '9' || c == '_'
  }

  predicate IsUpper(c: char)
  {
    'A' <= c <= 'Z'
  }

  /** `\bterm\b` matches at index `i` (every term here starts and ends with a letter). */
  predicate WordAt(s: string, term: string, i: int)
  {
    Text.OccursAt(s, term, i)
    && (i == 0 || !IsWordChar(s[i - 1]))
    && (i + |term| == |s| || !IsWordChar(s[i + |term|]))
  }

  /** `re.search(r'\b' + term + r'\b', s)` succeeds. */
  predicate HasWord(s: string, term: string)
  {
    exists i | 0 <= i <= |s| :: WordAt(s, term, i)
  }

  /** The length of the run of capital letters starting at `i`. */
  function UpperRun(s: string, i: nat): (n: nat)
    requires i <= |s|
    ensures i + n <= |s|
    ensures forall k :: i <= k < i + n ==> IsUpper(s[k])
    ensures i + n == |s| || !IsUpper(s[i + n])
    decreases |s| - i
  {
    if i < |s| && IsUpper(s[i]) then 1 + UpperRun(s, i + 1) else 0
  }

  /**
   * `\$([A-Z]{2,5})\b` matches at index `i`: a dollar sign, a run of two to five capitals and no word
   * character after it (a longer run, or a run followed by a word character, fails even after
   * backtracking, since every shorter capture is followed by a capital).
   */
  predicate SymbolAt(s: string, i: nat)
  {
    i < |s| && s[i] == '$'
    && var n := UpperRun(s, i + 1);
    2 <= n <= 5 && (i + 1 + n == |s| || !IsWordChar(s[i + 1 + n]))
  }

  /** The first `$SYMBOL` match at or after `i`, that is `re.findall(...)[0]` when `i` is 0. */
  function FirstSymbol(s: string, i: nat): (r: Option<string>)
    requires i <= |s|
    ensures r.None? <==> forall k :: i <= k < |s| ==> !SymbolAt(s, k)
    ensures r.Some? ==> 2 <= |r.value| <= 5 && forall k :: 0 <= k < |r.value| ==> IsUpper(r.value[k])
    decreases |s| - i
  {
    if i == |s| then None
    else if SymbolAt(s, i) then Some(s[i + 1..i + 1 + UpperRun(s, i + 1)])
    else FirstSymbol(s, i + 1)
  }

  /** The name-to-symbol table, in the order the agent scans it. */
  const AssetMappings: seq<(string, string)> := [
    ("bitcoin", "BTC"), ("btc", "BTC"), ("ethereum", "ETH"), ("eth", "ETH"), ("ether", "ETH"),
    ("solana", "SOL"), ("sol", "SOL"), ("cardano", "ADA"), ("ada", "ADA"), ("polkadot", "DOT"),
    ("dot", "DOT"), ("chainlink", "LINK"), ("link", "LINK"), ("uniswap", "UNI"), ("uni", "UNI"),
    ("aave", "AAVE"), ("compound", "COMP"), ("comp", "COMP")
  ]

  /** The fallback patterns tried after the table. */
  const CryptoPatterns: seq<(string, string)> := [
    ("btc", "BTC"), ("eth", "ETH"), ("sol", "SOL"), ("ada", "ADA"), ("dot", "DOT")
  ]

  /** The symbol of the first table entry whose term occurs as a whole word. */
  function Mapped(lower: string, table: seq<(string, string)>): (r: Option<string>)
    ensures r.None? <==> forall k :: 0 <= k < |table| ==> !HasWord(lower, table[k].0)
  {
    if |table| == 0 then None
    else if HasWord(lower, table[0].0) then Some(table[0].1)
    else Mapped(lower, table[1..])
  }

  /** The symbol `Mapped` returns belongs to the first entry that occurs. */
  lemma {:induction false} MappedFirst(lower: string, table: seq<(string, string)>)
    requires Mapped(lower, table).Some?
    ensures exists k :: (0 <= k < |table| && HasWord(lower, table[k].0) && Mapped(lower, table).value == table[k].1
                         && forall m :: 0 <= m < k ==> !HasWord(lower, table[m].0))
  {
    if !HasWord(lower, table[0].0) {
      MappedFirst(lower, table[1..]);
      var k :| 0 <= k < |table[1..]| && HasWord(lower, table[1..][k].0) && Mapped(lower, table[1..]).value == table[1..][k].1
        && forall m :: 0 <= m < k ==> !HasWord(lower, table[1..][m].0);
      assert forall m :: 0 <= m < k + 1 ==> !HasWord(lower, table[m].0) by {
        forall m | 0 <= m < k + 1
          ensures !HasWord(lower, table[m].0)
        {
          if m > 0 {
            assert table[m] == table[1..][m - 1];
          }
        }
      }
      assert table[k + 1] == table[1..][k];
    } else {
      assert HasWord(lower, table[0].0);
    }
  }

  /** `_identify_primary_asset`: an explicit `$SYMBOL` first, then the table, then the fallback patterns. */
  function IdentifyAsset(text: string): (r: Option<string>)
    ensures FirstSymbol(text, 0).Some? ==> r == FirstSymbol(text, 0)
    ensures FirstSymbol(text, 0).None? ==> r == Mapped(Text.Lower(text), AssetMappings)
  {
    match FirstSymbol(text, 0)
    case Some(sym) => Some(sym)
    case None =>
      var lower := Text.Lower(text);
      match Mapped(lower, AssetMappings)
      case Some(a) => Some(a)
      case None =>
        CryptoFallbackSubsumed(lower);
        Mapped(lower, CryptoPatterns)
  }

  /** Every fallback pattern is already a table entry, so the fallback never finds anything the table missed. */
  lemma {:induction false} CryptoFallbackSubsumed(lower: string)
    ensures Mapped(lower, AssetMappings).None? ==> Mapped(lower, CryptoPatterns).None?
  {
    if Mapped(lower, AssetMappings).None? {
      assert CryptoPatterns == [AssetMappings[1], AssetMappings[3], AssetMappings[6], AssetMappings[8], AssetMappings[10]];
      forall k | 0 <= k < |CryptoPatterns|
        ensures !HasWord(lower, CryptoPatterns[k].0)
      {
        var idx := [1, 3, 6, 8, 10][k];
        assert CryptoPatterns[k] == AssetMappings[idx];
      }
    }
  }

  /** An explicit `$SYMBOL` wins over any asset name the text also mentions. */
  lemma {:induction false} SymbolTakesPrecedence(text: string, i: nat)
    requires i < |text| && SymbolAt(text, i)
    ensures IdentifyAsset(text).Some? && IdentifyAsset(text) == FirstSymbol(text, 0)
    ensures (forall k :: 0 <= k < i ==> !SymbolAt(text, k)) ==> IdentifyAsset(text).value == text[i + 1..i + 1 + UpperRun(text, i + 1)]
  {
    if forall k :: 0 <= k < i ==> !SymbolAt(text, k) {
      FirstSymbolFrom(text, 0, i);
    }
  }

  /** With no match before `i`, the first match from 0 is the one at `i`. */
  lemma {:induction false} FirstSymbolFrom(s: string, j: nat, i: nat)
    requires j <= i < |s| && SymbolAt(s, i)
    requires forall k :: j <= k < i ==> !SymbolAt(s, k)
    ensures FirstSymbol(s, j) == Some(s[i + 1..i + 1 + UpperRun(s, i + 1)])
    decreases i - j
  {
    if j < i {
      FirstSymbolFrom(s, j + 1, i);
    }
  }

  /** A text with no `$SYMBOL` and no table term as a whole word names no asset. */
  lemma {:induction false} NoMentionNoAsset(text: string)
    requires forall k :: 0 <= k < |text| ==> !SymbolAt(text, k)
    requires forall k :: 0 <= k < |AssetMappings| ==> !HasWord(Text.Lower(text), AssetMappings[k].0)
    ensures IdentifyAsset(text).None?
  {
  }

  // ---------------------------------------------------------------------------------------------
  // Price movement
  // ---------------------------------------------------------------------------------------------

  /** Step `i` compares point `i` with point `i - 1`; it counts only when the earlier price is positive. */
  predicate Step(points: seq<PricePoint>, i: int)
  {
    1 <= i < |points| && points[i - 1].price > 0.0
  }

  /** The percentage change of step `i`. */
  function StepChange(points: seq<PricePoint>, i: int): real
    requires Step(points, i)
  {
    (points[i].price - points[i - 1].price) / points[i - 1].price * 100.0
  }

  /**
   * `(c, t)` is the first largest step among steps `1 .. n - 1`: no step is larger, and either every
   * step is flat and `(c, t) == (0.0, 0)`, or `c` is the first step of largest magnitude and `t` the
   * seconds between that point and the tweet.
   */
  ghost predicate FirstMax(points: seq<PricePoint>, tweetTime: int, n: int, c: real, t: int)
  {
    (forall k :: 1 <= k < n && Step(points, k) ==> Abs(StepChange(points, k)) <= Abs(c))
    && ((c == 0.0 && t == 0) || exists i :: FirstMaxAt(points, tweetTime, n, c, t, i))
  }

  /** `(c, t)` comes from step `i`, a non-flat step larger than every step before it. */
  ghost predicate FirstMaxAt(points: seq<PricePoint>, tweetTime: int, n: int, c: real, t: int, i: int)
  {
    1 <= i < n && Step(points, i) && c == StepChange(points, i) && c != 0.0
    && t == tweetTime - points[i].timestamp
    && forall k :: 1 <= k < i && Step(points, k) ==> Abs(StepChange(points, k)) < Abs(c)
  }

  /** The running result of the scan after steps `1 .. n - 1`. */
  function Scan(points: seq<PricePoint>, tweetTime: int, n: nat): (r: (real, int))
    requires 1 <= n <= |points|
    decreases n
  {
    if n == 1 then (0.0, 0)
    else
      var (c, t) := Scan(points, tweetTime, n - 1);
      var i := n - 1;
      if Step(points, i) && Abs(StepChange(points, i)) > Abs(c) then (StepChange(points, i), tweetTime - points[i].timestamp)
      else (c, t)
  }

  /** The scan keeps the first largest step. */
  lemma {:induction false} ScanFirstMax(points: seq<PricePoint>, tweetTime: int, n: nat)
    requires 1 <= n <= |points|
    ensures FirstMax(points, tweetTime, n, Scan(points, tweetTime, n).0, Scan(points, tweetTime, n).1)
    decreases n
  {
    if n > 1 {
      ScanFirstMax(points, tweetTime, n - 1);
      var (c, t) := Scan(points, tweetTime, n - 1);
      var i := n - 1;
      if Step(points, i) && Abs(StepChange(points, i)) > Abs(c) {
        var c' := StepChange(points, i);
        assert FirstMaxAt(points, tweetTime, n, c', tweetTime - points[i].timestamp, i);
      } else {
        if !(c == 0.0 && t == 0) {
          var j :| FirstMaxAt(points, tweetTime, n - 1, c, t, j);
          assert FirstMaxAt(points, tweetTime, n, c, t, j);
        }
      }
    }
  }

  /** `_check_price_movement`'s result: `(0.0, 0)` for fewer than two points, otherwise the scan over all steps. */
  function PriceMovement(points: seq<PricePoint>, tweetTime: int): (r: (real, int))
    ensures |points| < 2 ==> r == (0.0, 0)
    ensures r.0 == 0.0 ==> r.1 == 0
  {
    if |points| < 2 then (0.0, 0)
    else
      ScanFirstMax(points, tweetTime, |points|);
      Scan(points, tweetTime, |points|)
  }

  /** `_check_price_movement` as the loop the agent runs. */
  method CheckPriceMovement(points: seq<PricePoint>, tweetTime: int) returns (change: real, delta: int)
    ensures (change, delta) == PriceMovement(points, tweetTime)
    ensures |points| < 2 ==> change == 0.0 && delta == 0
    ensures |points| >= 2 ==> FirstMax(points, tweetTime, |points|, change, delta)
  {
    if |points| < 2 {
      return 0.0, 0;
    }
    change, delta := 0.0, 0;
    var i := 1;
    while i < |points|
      invariant 1 <= i <= |points|
      invariant (change, delta) == Scan(points, tweetTime, i)
    {
      var prev := points[i - 1].price;
      if prev > 0.0 {
        var pct := (points[i].price - prev) / prev * 100.0;
        if Abs(pct) > Abs(change) {
          change := pct;
          delta := tweetTime - points[i].timestamp;
        }
      }
      i := i + 1;
    }
    ScanFirstMax(points, tweetTime, |points|);
  }

  /** A non-flat result meeting `FirstMax` names the step it came from. */
  lemma {:induction false} FirstMaxStep(points: seq<PricePoint>, tweetTime: int, n: int, c: real, t: int) returns (i: int)
    requires FirstMax(points, tweetTime, n, c, t) && !(c == 0.0 && t == 0)
    ensures FirstMaxAt(points, tweetTime, n, c, t, i)
  {
    i :| FirstMaxAt(points, tweetTime, n, c, t, i);
  }

  /** The first largest step is unique: any two results meeting `FirstMax` agree. */
  lemma {:induction false} FirstMaxUnique(points: seq<PricePoint>, tweetTime: int, n: int, c: real, t: int, c': real, t': int)
    requires FirstMax(points, tweetTime, n, c, t) && FirstMax(points, tweetTime, n, c', t')
    ensures c == c' && t == t'
  {
    var flat, flat' := c == 0.0 && t == 0, c' == 0.0 && t' == 0;
    if flat {
      assert flat';
    } else {
      var i := FirstMaxStep(points, tweetTime, n, c, t);
      assert Abs(StepChange(points, i)) <= Abs(c');
      assert !flat';
      var i' := FirstMaxStep(points, tweetTime, n, c', t');
      assert Abs(StepChange(points, i')) <= Abs(c);
      var ci, ci' := StepChange(points, i), StepChange(points, i');
      assert i < i' ==> Abs(ci) < Abs(c');
      assert i' < i ==> Abs(ci') < Abs(c);
    }
  }

  // ---------------------------------------------------------------------------------------------
  // Repricing
  // ---------------------------------------------------------------------------------------------

  /** `price_thresholds.get(asset, price_thresholds['default'])`, as fractions (0.03 is "3%"). */
  function Threshold(asset: string): (r: real)
    ensures r == (if asset == "ETH" then 0.05 else 0.03)
  {
    if asset == "BTC" then 0.03 else if asset == "ETH" then 0.05 else 0.03
  }

  /** The repricing rule as written: the fractional threshold compared with a change in percent. */
  function RepricedAsWritten(asset: string, change: real, delta: int): (b: bool)
    ensures asset != "ETH" ==> (b <==> (change > 0.03 || change < -0.03) && delta > 120)
    ensures asset == "ETH" ==> (b <==> (change > 0.05 || change < -0.05) && delta > 120)
  {
    Abs(change) > Threshold(asset) && delta > 120
  }

  /**
   * The repricing rule as intended: the threshold converted to percent, like the change, so
   * Bitcoin and the default need a move over 3 percent, Ethereum over 5 percent.
   */
  function Repriced(asset: string, change: real, delta: int): (b: bool)
    ensures asset != "ETH" ==> (b <==> (change > 3.0 || change < -3.0) && delta > 120)
    ensures asset == "ETH" ==> (b <==> (change > 5.0 || change < -5.0) && delta > 120)
  {
    Abs(change) > Threshold(asset) * 100.0 && delta > 120
  }

  /** Which repricing rule an analysis applies: the program's own, or the corrected one. */
  datatype Rule = AsWritten | Intended

  predicate RepricedUnder(rule: Rule, asset: string, change: real, delta: int)
  {
    match rule
    case AsWritten => RepricedAsWritten(asset, change, delta)
    case Intended => Repriced(asset, change, delta)
  }

  /** A half-percent Bitcoin move five minutes before the tweet: repriced as written, not as intended. */
  lemma {:induction false} HalfPercentMove()
    ensures RepricedAsWritten("BTC", 0.5, 300)
    ensures !Repriced("BTC", 0.5, 300)
  {
  }

  /** The intended rule flags fewer moves: whatever it flags, the rule as written flags too. */
  lemma {:induction false} RepricedStricter(asset: string, change: real, delta: int)
    ensures Repriced(asset, change, delta) ==> RepricedAsWritten(asset, change, delta)
  {
  }

  // ---------------------------------------------------------------------------------------------
  // Analysis
  // ---------------------------------------------------------------------------------------------

  /**
   * `analyze_latency` for a tweet posted at `tweetTime` (formatted `stamp`) at clock `now`, with
   * `feed(asset)` the series the exchange returns: returns the result and the store after the event
   * log. No step of the model raises, so the handler's neutral answer arises only for a tweet
   * naming no asset. `Analyze(AsWritten, ..)` is the program as written; `Analyze(Intended, ..)`
   * applies the corrected threshold.
   */
  function Analyze(rule: Rule, text: string, tweetTime: int, stamp: string, feed: string -> seq<PricePoint>, st: Store, now: int): (r: (LatencyResult, Store))
    ensures IdentifyAsset(text).None? ==> r == (Neutral, st)
    ensures r.0.asset == IdentifyAsset(text)
    ensures r.0.repriced ==> r.0.asset.Some? && r.0.deltaSeconds > 120
    ensures !r.0.repriced ==> r.1 == st
    ensures r.0.asset.Some? ==> (r.0.repriced <==> RepricedUnder(rule, r.0.asset.value, PriceMovement(feed(r.0.asset.value), tweetTime).0, r.0.deltaSeconds))
    ensures r.0.asset.Some? ==> r.0.deltaSeconds == PriceMovement(feed(r.0.asset.value), tweetTime).1
    ensures r.0.asset.Some? && |feed(r.0.asset.value)| < 2 ==> !r.0.repriced && r.0.priceChangePct == 0.0
  {
    match IdentifyAsset(text)
    case None => (Neutral, st)
    case Some(asset) =>
      var (change, delta) := PriceMovement(feed(asset), tweetTime);
      var repriced := RepricedUnder(rule, asset, change, delta);
      var st' := if repriced then LogLatencyEvent(st, asset, text, stamp, tweetTime, change, delta, now) else st;
      RoundFixes(0, 2);
      (LatencyResult(repriced, delta, Round(change, 2), Some(asset)), st')
  }

  /** `_log_latency_event`: the same record the memory store's `store_latency_flag` writes. */
  function LogLatencyEvent(st: Store, asset: string, text: string, stamp: string, tweetTime: int, change: real, delta: int, now: int): (r: Store)
    ensures var e := Find(r, Key(LatencyNamespace, stamp));
      && e.Some? && e.value.Latency?
      && e.value.flag.asset == asset && e.value.flag.changePct == change && e.value.flag.deltaSeconds == delta
      && |e.value.flag.text| <= 200 && e.value.flag.text <= text
    ensures forall k :: k != Key(LatencyNamespace, stamp) ==> Find(r, k) == Find(st, k)
  {
    forall k | k != Key(LatencyNamespace, stamp)
      ensures Find(StoreLatencyFlag(st, asset, text, stamp, tweetTime, change, delta, now), k) == Find(st, k)
    {
      PutFind(st, Key(LatencyNamespace, stamp), Latency(LatencyFlag(asset, Text.Truncate(text, 200), tweetTime, change, delta, now)), k);
    }
    StoreLatencyFlag(st, asset, text, stamp, tweetTime, change, delta, now)
  }

  /** Exactly the repriced results leave a record under `latency_flags:<stamp>`, holding the unrounded change. */
  lemma {:induction false} RepricedIsLogged(rule: Rule, text: string, tweetTime: int, stamp: string, feed: string -> seq<PricePoint>, st: Store, now: int)
    requires Find(st, Key(LatencyNamespace, stamp)).None?
    ensures var (res, st') := Analyze(rule, text, tweetTime, stamp, feed, st, now);
      res.repriced <==> Find(st', Key(LatencyNamespace, stamp)).Some?
    ensures var (res, st') := Analyze(rule, text, tweetTime, stamp, feed, st, now);
      res.repriced ==> Find(st', Key(LatencyNamespace, stamp)).value.flag.changePct == PriceMovement(feed(res.asset.value), tweetTime).0
  {
  }

  /** A tweet naming no asset never consults the price feed. */
  lemma {:induction false} NoAssetIgnoresFeed(rule: Rule, text: string, tweetTime: int, stamp: string, feed: string -> seq<PricePoint>, feed': string -> seq<PricePoint>, st: Store, now: int)
    requires IdentifyAsset(text).None?
    ensures Analyze(rule, text, tweetTime, stamp, feed, st, now) == Analyze(rule, text, tweetTime, stamp, feed', st, now)
  {
  }

  /** The reported change is the first largest step rounded to two places. */
  lemma {:induction false} ReportedChange(rule: Rule, text: string, tweetTime: int, stamp: string, feed: string -> seq<PricePoint>, st: Store, now: int)
    requires IdentifyAsset(text).Some? && |feed(IdentifyAsset(text).value)| >= 2
    ensures var res := Analyze(rule, text, tweetTime, stamp, feed, st, now).0;
      var pts := feed(IdentifyAsset(text).value);
      exists c :: FirstMax(pts, tweetTime, |pts|, c, res.deltaSeconds) && res.priceChangePct == Round(c, 2)
  {
    var pts := feed(IdentifyAsset(text).value);
    ScanFirstMax(pts, tweetTime, |pts|);
  }

  // ---------------------------------------------------------------------------------------------
  // Human review
  // ---------------------------------------------------------------------------------------------

  const NewsIndicators: seq<string> := [
    "hack", "exploit", "breach", "attack", "partnership", "announce", "launch", "release",
    "upgrade", "update", "news", "breaking", "report", "confirm", "official"
  ]

  /** `should_trigger_human_review`. */
  function HumanReview(res: LatencyResult, text: string): (r: bool)
    ensures r <==> res.repriced && (res.priceChangePct > 5.0 || res.priceChangePct < -5.0)
                   && (exists w :: w in NewsIndicators && Text.Contains(Text.Lower(text), w))
                   && res.deltaSeconds > 600
  {
    if !res.repriced then false
    else Abs(res.priceChangePct) > 5.0 && Text.ContainsAny(Text.Lower(text), NewsIndicators) && res.deltaSeconds > 600
  }

  /** A reviewed tweet named an asset, moved the market by more than 5 percent and left a flag in the store. */
  lemma {:induction false} ReviewedIsLogged(rule: Rule, text: string, tweetTime: int, stamp: string, feed: string -> seq<PricePoint>, st: Store, now: int)
    requires HumanReview(Analyze(rule, text, tweetTime, stamp, feed, st, now).0, text)
    ensures var (res, st') := Analyze(rule, text, tweetTime, stamp, feed, st, now);
      res.asset.Some? && res.deltaSeconds > 600
      && Find(st', Key(LatencyNamespace, stamp)).Some? && Find(st', Key(LatencyNamespace, stamp)).value.Latency?
  {
  }

  /** A rounded change beyond ±5 comes from a raw change beyond ±5. */
  lemma {:induction false} RoundedBeyondFive(c: real)
    ensures Round(c, 2) > 5.0 ==> c > 5.0
    ensures Round(c, 2) < -5.0 ==> c < -5.0
  {
    RoundFixes(5, 2);
    RoundFixes(-5, 2);
    if c <= 5.0 {
      RoundMonotone(c, 5.0, 2);
    }
    if c >= -5.0 {
      RoundMonotone(-5.0, c, 2);
    }
  }

  /**
   * The threshold fix does not change any review decision: a change big enough for review is over
   * every intended threshold, so both rules reprice it.
   */
  lemma {:induction false} ReviewUnaffectedByThreshold(asset: string, change: real, delta: int)
    requires Round(change, 2) > 5.0 || Round(change, 2) < -5.0
    ensures Repriced(asset, change, delta) <==> RepricedAsWritten(asset, change, delta)
  {
    RoundedBeyondFive(change);
  }

  /**
   * The two rules analyse a tweet alike except for the repricing flag: the same asset, delta and
   * reported change, every tweet the corrected rule reprices is repriced as written, and the
   * human-review decision is the same.
   */
  lemma {:induction false} RulesAgreeOnReview(text: string, tweetTime: int, stamp: string, feed: string -> seq<PricePoint>, st: Store, now: int)
    ensures var a := Analyze(AsWritten, text, tweetTime, stamp, feed, st, now).0;
      var b := Analyze(Intended, text, tweetTime, stamp, feed, st, now).0;
      && a.asset == b.asset && a.deltaSeconds == b.deltaSeconds && a.priceChangePct == b.priceChangePct
      && (b.repriced ==> a.repriced)
      && HumanReview(a, text) == HumanReview(b, text)
  {
    match IdentifyAsset(text)
    case None =>
    case Some(asset) =>
      var (change, delta) := PriceMovement(feed(asset), tweetTime);
      RepricedStricter(asset, change, delta);
      if Round(change, 2) > 5.0 || Round(change, 2) < -5.0 {
        ReviewUnaffectedByThreshold(asset, change, delta);
      }
  }
}
