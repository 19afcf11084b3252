/**
 * The banned-phrase skeptic agent: weighs the banned phrases a tweet uses, softens the weight
 * for sarcasm, valuable information and quotation, turns it into a tone penalty, keeps per-author
 * violation statistics, and decides when a result goes to human review.
 *
 * Regular expressions are not modelled: what each compiled pattern's `findall` returns, whether
 * an innocent-context pattern matches, and how many value-indicator patterns match are handed in
 * as `BanEvidence`. The exception and quotation checks are plain substring tests and are exact.
 */
module BannedPhrases {
  import opened Wrappers
  import opened Values
  import Text
  import opened Rounding
  import opened Tallies
  import opened MemoryStore

  datatype BannedPhrase = BannedPhrase(pattern: string, weight: real, note: string)

  datatype Category = Category(name: string, weight: real, phrases: seq<BannedPhrase>)

  /** A compiled pattern: its weight is the phrase weight times the category weight. */
  datatype CompiledPattern = CompiledPattern(pattern: string, weight: real, note: string)

  datatype BannedResult = BannedResult(bannedTerms: seq<string>, totalWeight: real, tonePenalty: real, riskAssessment: string)

  /** For each compiled pattern in order, its `findall` matches; then the two other regex scans. */
  datatype BanEvidence = BanEvidence(found: seq<seq<string>>, innocent: bool, valueCount: nat)

  datatype Detection = Detection(terms: seq<string>, weight: real)

  /** The result an exception during the analysis falls back to. */
  const ErrorResult: BannedResult := BannedResult([], 0.0, 0.0, "Low")

  /** The divisor that normalises a weight into a tone penalty. */
  const MaxPenalty: real := 5.0

  const Taxonomy: seq<Category> := [
    Category("hype_language", 1.0, [
      BannedPhrase(@"\bto the moon\b", 1.0, "Hype language"),
      BannedPhrase(@"\bmoon(?:ing|shot)\b", 0.8, "Hype language"),
      BannedPhrase(@"\blambo\b", 0.5, "Slang/off-brand"),
      BannedPhrase(@"\brekt\b", 0.5, "Slang/informal"),
      BannedPhrase(@"\bhodl\b", 0.3, "Crypto slang"),
      BannedPhrase(@"\bwagmi\b", 0.4, "Crypto slang"),
      BannedPhrase(@"\bngmi\b", 0.4, "Crypto slang"),
      BannedPhrase(@"\blfg\b", 0.4, "Informal acronym"),
      BannedPhrase(@"\bfomo\b", 0.3, "Crypto acronym"),
      BannedPhrase(@"\bfud\b", 0.3, "Crypto acronym")]),
    Category("unrealistic_promises", 1.5, [
      BannedPhrase(@"\b\d+x\s+gains?\b", 1.2, "Unrealistic promise"),
      BannedPhrase(@"\b(?:100|1000)x\b", 1.5, "Unrealistic multiplier"),
      BannedPhrase(@"\bmake you rich\b", 1.5, "Financial advice"),
      BannedPhrase(@"\bguaranteed\s+(?:profit|gains?|returns?)\b", 1.8, "False guarantee"),
      BannedPhrase(@"\beasy money\b", 1.0, "Misleading claim"),
      BannedPhrase(@"\bget rich quick\b", 1.5, "Unrealistic promise")]),
    Category("formatting_issues", 0.5, [
      BannedPhrase(@"!{3,}", 0.3, "Excessive punctuation"),
      BannedPhrase(@"\?{2,}", 0.2, "Excessive punctuation"),
      BannedPhrase(@"\b[A-Z]{5,}\b", 0.4, "Excessive caps"),
      BannedPhrase("\U{1F680}{2,}", 0.3, "Excessive emoji")]),
    Category("inappropriate_language", 2.0, [
      BannedPhrase(@"\bsh[i1]t(?:coin)?\b", 1.0, "Profanity"),
      BannedPhrase(@"\bcrap\b", 0.8, "Inappropriate"),
      BannedPhrase(@"\btrash\b", 0.6, "Harsh language"),
      BannedPhrase(@"\bg[a@]rbage\b", 0.6, "Harsh language"),
      BannedPhrase(@"\bscam\b", 0.8, "Accusatory language")]),
    Category("clickbait", 0.8, [
      BannedPhrase(@"\byou won't believe\b", 0.8, "Clickbait"),
      BannedPhrase(@"\bshocking\s+(?:truth|news|revelation)\b", 0.8, "Clickbait"),
      BannedPhrase(@"\bsecret\s+(?:revealed|exposed)\b", 0.7, "Clickbait"),
      BannedPhrase(@"\bwhat\s+they\s+don't\s+want\s+you\s+to\s+know\b", 0.9, "Clickbait"),
      BannedPhrase(@"\binsane\s+(?:profits?|gains?)\b", 0.8, "Clickbait"),
      BannedPhrase(@"\bmind[- ]?blow(?:ing|n)\b", 0.6, "Clickbait")])
  ]

  /** Names of projects and networks whose mention excuses a banned match they contain. */
  const ContextExceptions: seq<string> := ["moonbeam", "moonriver", "lunar", "eclipse", "solana"]

  // ---------------------------------------------------------------------------------------------
  // Compiling the taxonomy
  // ---------------------------------------------------------------------------------------------

  function Weighted(c: Category, ph: BannedPhrase): CompiledPattern
  {
    CompiledPattern(ph.pattern, ph.weight * c.weight, ph.note)
  }

  /** How many phrases the categories hold together. */
  function PhraseCount(cats: seq<Category>): nat
  {
    if |cats| == 0 then 0 else |cats[0].phrases| + PhraseCount(cats[1..])
  }

  /** `_compile_patterns`: every phrase of every category, in order, weighted by its category. */
  function Compile(cats: seq<Category>): (ps: seq<CompiledPattern>)
    ensures |ps| == PhraseCount(cats)
    ensures |cats| > 0 ==> forall j :: 0 <= j < |cats[0].phrases| ==> ps[j] == Weighted(cats[0], cats[0].phrases[j])
  {
    if |cats| == 0 then []
    else
      var head := seq(|cats[0].phrases|, j requires 0 <= j < |cats[0].phrases| => Weighted(cats[0], cats[0].phrases[j]));
      head + Compile(cats[1..])
  }

  /** Each compiled pattern is some category's phrase with the category's weight applied. */
  lemma {:induction false} CompileSound(cats: seq<Category>, i: nat)
    requires i < |Compile(cats)|
    ensures exists k, j :: 0 <= k < |cats| && 0 <= j < |cats[k].phrases| && Compile(cats)[i] == Weighted(cats[k], cats[k].phrases[j])
  {
    var n := |cats[0].phrases|;
    if i < n {
      assert Compile(cats)[i] == Weighted(cats[0], cats[0].phrases[i]);
    } else {
      var head := seq(n, j requires 0 <= j < n => Weighted(cats[0], cats[0].phrases[j]));
      assert Compile(cats) == head + Compile(cats[1..]);
      assert Compile(cats)[i] == Compile(cats[1..])[i - n];
      CompileSound(cats[1..], i - n);
      var k, j :| 0 <= k < |cats[1..]| && 0 <= j < |cats[1..][k].phrases| && Compile(cats[1..])[i - n] == Weighted(cats[1..][k], cats[1..][k].phrases[j]);
      assert cats[1..][k] == cats[k + 1];
    }
  }

  predicate PositiveCategories(cats: seq<Category>)
  {
    forall k, j :: 0 <= k < |cats| && 0 <= j < |cats[k].phrases| ==> cats[k].weight > 0.0 && cats[k].phrases[j].weight > 0.0
  }

  predicate PositivePatterns(ps: seq<CompiledPattern>)
  {
    forall i :: 0 <= i < |ps| ==> ps[i].weight > 0.0
  }

  /** Positive phrase and category weights compile to positive pattern weights. */
  lemma {:induction false} CompilePositive(cats: seq<Category>)
    requires PositiveCategories(cats)
    ensures PositivePatterns(Compile(cats))
  {
    var ps := Compile(cats);
    forall i | 0 <= i < |ps|
      ensures ps[i].weight > 0.0
    {
      CompileSound(cats, i);
      var k, j :| 0 <= k < |cats| && 0 <= j < |cats[k].phrases| && ps[i] == Weighted(cats[k], cats[k].phrases[j]);
      PositiveProduct(cats[k].phrases[j].weight, cats[k].weight);
    }
  }

  lemma {:induction false} PositiveProduct(a: real, b: real)
    requires a > 0.0 && b > 0.0
    ensures a * b > 0.0
  {
    ProductSign(a, b);
  }

  lemma {:induction false} ProductSign(a: real, b: real)
    ensures a > 0.0 && b > 0.0 ==> a * b > 0.0
    ensures a >= 0.0 && b >= 0.0 ==> a * b >= 0.0
  {
  }

  /** The program's taxonomy has 31 phrases, all with positive weights. */
  lemma {:induction false} TaxonomyPatterns()
    ensures |Compile(Taxonomy)| == 31
    ensures PositivePatterns(Compile(Taxonomy))
  {
    assert PhraseCount(Taxonomy[4..]) == 6;
    assert PhraseCount(Taxonomy[3..]) == 11;
    assert PhraseCount(Taxonomy[2..]) == 15;
    assert PhraseCount(Taxonomy[1..]) == 21;
    assert PositiveCategories(Taxonomy);
    CompilePositive(Taxonomy);
  }

  // ---------------------------------------------------------------------------------------------
  // Detection
  // ---------------------------------------------------------------------------------------------

  /** The matches reported for pattern `i`; none when the evidence stops short. */
  function MatchesAt(found: seq<seq<string>>, i: nat): seq<string>
  {
    if i < |found| then found[i] else []
  }

  /** A project name the text mentions that contains a match, or is contained in one. */
  predicate ExceptionApplies(lower: string, matches: seq<string>)
  {
    exists e, k :: e in ContextExceptions && 0 <= k < |matches| && Text.Contains(lower, e)
      && (Text.Contains(e, Text.Lower(matches[k])) || Text.Contains(Text.Lower(matches[k]), e))
  }

  /** Whether a pattern's matches count: there are some, no exception covers them, and the text is not innocent. */
  predicate Flagged(text: string, matches: seq<string>, innocent: bool)
  {
    |matches| > 0 && !ExceptionApplies(Text.Lower(text), matches) && !innocent
  }

  /** The term the program records for a match: `f"{match} ({note})"`. */
  function Tagged(m: string, note: string): (t: string)
    ensures |t| > 0 && t[|t| - 1] == ')'
  {
    m + " (" + note + ")"
  }

  function TagAll(matches: seq<string>, note: string): (ts: seq<string>)
    ensures |ts| == |matches|
    ensures forall j :: 0 <= j < |ts| ==> ts[j] == Tagged(matches[j], note)
  {
    seq(|matches|, j requires 0 <= j < |matches| => Tagged(matches[j], note))
  }

  /**
   * `_detect_banned_terms` over the patterns `ps`: every flagged pattern contributes one term per
   * match and its weight once per match. Innocent text flags nothing, every term ends with the
   * closing parenthesis of its note, and with positive weights the weight is zero exactly when
   * no term was found.
   */
  function Detect(ps: seq<CompiledPattern>, text: string, found: seq<seq<string>>, innocent: bool): (d: Detection)
    ensures innocent ==> d == Detection([], 0.0)
    ensures forall t :: t in d.terms ==> |t| > 0 && t[|t| - 1] == ')'
    ensures PositivePatterns(ps) ==> d.weight >= 0.0 && (d.weight == 0.0 <==> |d.terms| == 0)
  {
    if |ps| == 0 then Detection([], 0.0)
    else
      var init := ps[..|ps| - 1];
      PositivePrefix(ps);
      var m := MatchesAt(found, |ps| - 1);
      AddPattern(Detect(init, text, found, innocent), ps[|ps| - 1], m, Flagged(text, m, innocent))
  }

  /** One more pattern's contribution: its tagged matches and their weight when it is flagged. */
  function AddPattern(d: Detection, p: CompiledPattern, m: seq<string>, flagged: bool): (d': Detection)
    ensures !flagged ==> d' == d
    ensures forall t :: t in d.terms ==> t in d'.terms
    ensures forall t :: t in d'.terms ==> t in d.terms || exists j :: 0 <= j < |m| && t == Tagged(m[j], p.note)
    ensures flagged ==> forall j :: 0 <= j < |m| ==> Tagged(m[j], p.note) in d'.terms
    ensures p.weight > 0.0 && d.weight >= 0.0 && (d.weight == 0.0 <==> |d.terms| == 0) ==>
      d'.weight >= 0.0 && (d'.weight == 0.0 <==> |d'.terms| == 0)
  {
    if flagged then
      ProductSign(p.weight, |m| as real);
      Detection(d.terms + TagAll(m, p.note), d.weight + p.weight * |m| as real)
    else d
  }

  lemma {:induction false} PositivePrefix(ps: seq<CompiledPattern>)
    requires |ps| > 0
    ensures PositivePatterns(ps) ==> PositivePatterns(ps[..|ps| - 1]) && ps[|ps| - 1].weight > 0.0
  {
  }

  /** Every match of a flagged pattern is reported, tagged with the pattern's note. */
  lemma {:induction false} DetectReports(ps: seq<CompiledPattern>, text: string, found: seq<seq<string>>, innocent: bool, i: nat, j: nat)
    requires i < |ps| && Flagged(text, MatchesAt(found, i), innocent) && j < |MatchesAt(found, i)|
    ensures Tagged(MatchesAt(found, i)[j], ps[i].note) in Detect(ps, text, found, innocent).terms
  {
    var init := ps[..|ps| - 1];
    var last := |ps| - 1;
    var m := MatchesAt(found, last);
    assert Detect(ps, text, found, innocent) == AddPattern(Detect(init, text, found, innocent), ps[last], m, Flagged(text, m, innocent));
    if i < last {
      assert init[i] == ps[i];
      DetectReports(init, text, found, innocent, i, j);
    } else {
      var d := Detect(init, text, found, innocent);
      assert i == last && Flagged(text, m, innocent);
      AddPatternReports(d, ps[last], m, j);
    }
  }

  /** A flagged pattern adds its `j`-th match. */
  lemma {:induction false} AddPatternReports(d: Detection, p: CompiledPattern, m: seq<string>, j: nat)
    requires j < |m|
    ensures Tagged(m[j], p.note) in AddPattern(d, p, m, true).terms
  {
    assert TagAll(m, p.note)[j] == Tagged(m[j], p.note);
  }

  // ---------------------------------------------------------------------------------------------
  // Context adjustment and tone
  // ---------------------------------------------------------------------------------------------

  /** The tweet quotes someone: it contains a double or a single quotation mark. */
  predicate Quoted(text: string)
  {
    '"' in text || '\'' in text
  }

  /** The three reductions multiplied together: 0.6 for sarcasm, 1 − min(0.3, 0.1·value_count) for valuable information, 0.8 for quotation. */
  function AdjustFactor(sarcastic: bool, valueCount: nat, text: string): (f: real)
    ensures 0.336 <= f <= 1.0
    ensures !sarcastic && valueCount == 0 && !Quoted(text) ==> f == 1.0
  {
    var s := if sarcastic then 0.6 else 1.0;
    var v := if valueCount > 0 then 1.0 - Min(0.3, valueCount as real * 0.1) else 1.0;
    var q := if Quoted(text) then 0.8 else 1.0;
    FactorBounds(s, v, q);
    s * v * q
  }

  lemma {:induction false} FactorBounds(s: real, v: real, q: real)
    requires 0.6 <= s <= 1.0 && 0.7 <= v <= 1.0 && 0.8 <= q <= 1.0
    ensures 0.336 <= s * v * q <= 1.0
  {
    ProductBetween(s, v, 0.6, 0.7);
    ProductBetween(s * v, q, 0.42, 0.8);
  }

  /** Multiplying two numbers of `[0, 1]` bounded below by `la` and `lb`. */
  lemma {:induction false} ProductBetween(a: real, b: real, la: real, lb: real)
    requires 0.0 <= la <= a <= 1.0 && 0.0 <= lb <= b <= 1.0
    ensures la * lb <= a * b <= 1.0
  {
    MulMono(la, a, lb);
    assert la * lb <= a * lb;
    MulMono(lb, b, a);
    assert lb * a <= b * a;
    assert a * lb == lb * a;
    MulMono(a, 1.0, b);
    assert a * b <= 1.0 * b;
    assert 1.0 * b == b;
  }

  /**
   * `_apply_context_adjustments`: the weight times the reductions that apply, floored at 0 (the
   * program multiplies them into the weight one after another, which in exact arithmetic is the
   * same). A non-negative weight keeps at least 0.6 · 0.7 · 0.8 = 0.336 of itself and never grows.
   */
  function AdjustWeight(w: real, sarcastic: bool, valueCount: nat, text: string): (r: real)
    ensures r >= 0.0
    ensures w >= 0.0 ==> 0.336 * w <= r <= w
    ensures w <= 0.0 ==> r == 0.0
    ensures !sarcastic && valueCount == 0 && !Quoted(text) ==> r == Max(0.0, w)
  {
    var f := AdjustFactor(sarcastic, valueCount, text);
    Scale(w, f);
    Max(0.0, w * f)
  }

  /** Scaling by a factor of `[0.336, 1]` and flooring at 0. */
  lemma {:induction false} Scale(a: real, f: real)
    requires 0.336 <= f <= 1.0
    ensures Max(0.0, a * f) >= 0.0
    ensures a >= 0.0 ==> 0.336 * a <= Max(0.0, a * f) <= a
    ensures a <= 0.0 ==> Max(0.0, a * f) == 0.0
    ensures f == 1.0 ==> Max(0.0, a * f) == Max(0.0, a)
  {
    if a >= 0.0 {
      MulMono(0.336, f, a);
      assert 0.336 * a <= f * a;
      MulMono(f, 1.0, a);
      assert f * a <= 1.0 * a;
      assert a * f == f * a;
    } else {
      MulMono(a, 0.0, f);
      assert a * f <= 0.0 * f;
    }
  }

  /** A heavier detected weight is never adjusted below a lighter one. */
  lemma {:induction false} AdjustWeightMonotone(w: real, w': real, sarcastic: bool, valueCount: nat, text: string)
    requires w <= w'
    ensures AdjustWeight(w, sarcastic, valueCount, text) <= AdjustWeight(w', sarcastic, valueCount, text)
  {
    FloorScaleMono(w, w', AdjustFactor(sarcastic, valueCount, text));
  }

  lemma {:induction false} FloorScaleMono(w: real, w': real, f: real)
    requires w <= w' && f >= 0.0
    ensures Max(0.0, w * f) <= Max(0.0, w' * f)
  {
    MulMono(w, w', f);
  }

  lemma {:induction false} MulMono(x: real, y: real, f: real)
    requires x <= y && f >= 0.0
    ensures x * f <= y * f
  {
    assert y * f - x * f == (y - x) * f;
  }

  /** The tone penalty: the weight over the maximum penalty, capped at 1. */
  function TonePenalty(adjusted: real): (t: real)
    ensures adjusted >= 0.0 ==> 0.0 <= t <= 1.0
    ensures adjusted >= MaxPenalty ==> t == 1.0
    ensures t * MaxPenalty <= adjusted
  {
    Min(1.0, adjusted / MaxPenalty)
  }

  // ---------------------------------------------------------------------------------------------
  // Author statistics
  // ---------------------------------------------------------------------------------------------

  /** The agent's reading of an author's statistics: absent means zeroed ones without a timestamp. */
  function AgentBanStats(st: Store, author: string): (r: Result<BanTermStats>)
    ensures Find(st, Key(BanNamespace, author)).None? ==> r == Ok(BanTermStats(0, 0.0, [], 0.0, None))
    ensures r.Ok? && Find(st, Key(BanNamespace, author)).Some? ==> r == BanStats(st, author, 0)
    ensures r.Raised? <==> BanStats(st, author, 0).Raised?
  {
    match Find(st, Key(BanNamespace, author))
    case None => Ok(BanTermStats(0, 0.0, [], 0.0, None))
    case Some(Ban(p)) => Ok(p)
    case Some(_) => Raised("KeyError: count")
  }

  /** `_update_author_stats` on one record; the agent does not touch the timestamp. */
  function AgentNextBan(p: BanTermStats, terms: seq<string>, weight: real): (q: BanTermStats)
    ensures q.count == p.count + 1 && q.totalWeight == p.totalWeight + weight
    ensures q.lastUpdated == p.lastUpdated
  {
    var count := p.count + 1;
    var total := p.totalWeight + weight;
    BanTermStats(count, total, AddViolations(p.violations, terms), total / count as real, p.lastUpdated)
  }

  /** The agent's update is the store's own statistics update, except that it keeps the timestamp. */
  lemma {:induction false} AgentNextBanAgrees(p: BanTermStats, terms: seq<string>, weight: real, now: int)
    ensures AgentNextBan(p, terms, weight) == NextBan(p, terms, weight, now).(lastUpdated := p.lastUpdated)
  {
  }

  /** Writes the updated statistics; a record of another shape raises. */
  function UpdateAgentBanStats(st: Store, author: string, terms: seq<string>, weight: real): (r: Result<Store>)
    ensures r.Ok? <==> AgentBanStats(st, author).Ok?
    ensures r.Ok? ==> Find(r.value, Key(BanNamespace, author)) == Some(Ban(AgentNextBan(AgentBanStats(st, author).value, terms, weight)))
    ensures r.Ok? ==> forall k :: k != Key(BanNamespace, author) ==> Find(r.value, k) == Find(st, k)
  {
    var p :- AgentBanStats(st, author);
    var e := Ban(AgentNextBan(p, terms, weight));
    PutFind(st, Key(BanNamespace, author), e, "");
    assert forall k :: k != Key(BanNamespace, author) ==> Find(Put(st, Key(BanNamespace, author), e), k) == Find(st, k) by {
      forall k | k != Key(BanNamespace, author)
        ensures Find(Put(st, Key(BanNamespace, author), e), k) == Find(st, k)
      {
        PutFind(st, Key(BanNamespace, author), e, k);
      }
    }
    Ok(Put(st, Key(BanNamespace, author), e))
  }

  // ---------------------------------------------------------------------------------------------
  // The analysis
  // ---------------------------------------------------------------------------------------------

  /** `_extract_clean_term` on each term: stripped, then lower-cased. */
  function Report(terms: seq<string>): (rs: seq<string>)
    ensures |rs| == |terms|
    ensures forall i :: 0 <= i < |rs| ==> rs[i] == Text.Lower(Text.Strip(terms[i]))
  {
    seq(|terms|, i requires 0 <= i < |terms| => Text.Lower(Text.Strip(terms[i])))
  }

  /** Reporting one more term appends its cleaned form. */
  lemma {:induction false} ReportSnoc(terms: seq<string>)
    requires |terms| > 0
    ensures Report(terms) == Report(terms[..|terms| - 1]) + [Text.Lower(Text.Strip(terms[|terms| - 1]))]
  {
    var a := Report(terms);
    var b := Report(terms[..|terms| - 1]) + [Text.Lower(Text.Strip(terms[|terms| - 1]))];
    assert |a| == |b|;
    forall i | 0 <= i < |a|
      ensures a[i] == b[i]
    {
      if i < |terms| - 1 {
        assert terms[..|terms| - 1][i] == terms[i];
        assert b[i] == Report(terms[..|terms| - 1])[i];
      } else {
        assert b[i] == Text.Lower(Text.Strip(terms[|terms| - 1]));
      }
    }
  }

  /** The statistics count a term exactly as often as the report lists it. */
  lemma {:induction false} OccurrencesReported(terms: seq<string>, k: string)
    ensures Occurrences(terms, k) == multiset(Report(terms))[k]
  {
    if |terms| > 0 {
      var init := terms[..|terms| - 1];
      var last := terms[|terms| - 1];
      OccurrencesReported(init, k);
      ReportSnoc(terms);
      Text.LowerStrip(last);
    }
  }

  /** The body of `analyze_banned_phrases`' `try`: the statistics write is the one step that can raise. */
  function Analysis(ps: seq<CompiledPattern>, text: string, author: string, ev: BanEvidence, sarcastic: bool, st: Store): (r: Result<(BannedResult, Store)>)
    ensures r.Ok? <==> AgentBanStats(st, author).Ok?
    ensures r.Ok? ==> 0.0 <= r.value.0.tonePenalty <= 1.0 && r.value.0.totalWeight >= 0.0
    ensures r.Ok? ==> r.value.0.bannedTerms == Report(Detect(ps, text, ev.found, ev.innocent).terms)
    ensures r.Ok? && ev.innocent ==> r.value.0.bannedTerms == [] && r.value.0.tonePenalty == 0.0
  {
    var d := Detect(ps, text, ev.found, ev.innocent);
    var adjusted := AdjustWeight(d.weight, sarcastic, ev.valueCount, text);
    var tone := TonePenalty(adjusted);
    var st' :- UpdateAgentBanStats(st, author, d.terms, adjusted);
    RoundStaysWithin(tone, 0, 100);
    RoundedNonNegative(tone);
    RoundedNonNegative(adjusted);
    Ok((BannedResult(Report(d.terms), Round(adjusted, 2), Round(tone, 2), "Low"), st'))
  }

  /** Rounding to two decimals keeps a non-negative number non-negative and zero at zero. */
  lemma {:induction false} RoundedNonNegative(x: real)
    requires x >= 0.0
    ensures Round(x, 2) >= 0.0
    ensures x == 0.0 ==> Round(x, 2) == 0.0
  {
    RoundStaysWithin(0.0, 0, 0);
    RoundMonotone(0.0, x, 2);
  }

  /** `analyze_banned_phrases`: any exception gives no terms and no penalty. */
  function AnalyzeBanned(ps: seq<CompiledPattern>, text: string, author: string, ev: BanEvidence, sarcastic: bool, st: Store): (r: (BannedResult, Store))
    ensures 0.0 <= r.0.tonePenalty <= 1.0
    ensures Analysis(ps, text, author, ev, sarcastic, st).Raised? ==> r == (ErrorResult, st)
    ensures ev.innocent ==> r.0.bannedTerms == [] && r.0.tonePenalty == 0.0
  {
    match Analysis(ps, text, author, ev, sarcastic, st)
    case Ok(res) => res
    case Raised(_) => (ErrorResult, st)
  }

  /** A completed analysis tallies every reported term once more in the author's violations, and touches no other record. */
  lemma {:induction false} AnalysisTallies(ps: seq<CompiledPattern>, text: string, author: string, ev: BanEvidence, sarcastic: bool, st: Store, k: string, other: string)
    requires Analysis(ps, text, author, ev, sarcastic, st).Ok?
    ensures var (res, st') := Analysis(ps, text, author, ev, sarcastic, st).value;
      Find(st', Key(BanNamespace, author)).Some? && Find(st', Key(BanNamespace, author)).value.Ban?
      && CountOf(Find(st', Key(BanNamespace, author)).value.ban.violations, k)
        == CountOf(AgentBanStats(st, author).value.violations, k) + multiset(res.bannedTerms)[k]
      && (other != Key(BanNamespace, author) ==> Find(st', other) == Find(st, other))
  {
    var d := Detect(ps, text, ev.found, ev.innocent);
    var p := AgentBanStats(st, author).value;
    AddViolationsCounts(p.violations, d.terms, k);
    OccurrencesReported(d.terms, k);
  }

  // ---------------------------------------------------------------------------------------------
  // Author-level checks and escalation
  // ---------------------------------------------------------------------------------------------

  /**
   * `is_author_chronic_violator`: an absent or empty record, or fewer than five analysed tweets,
   * is not chronic; otherwise the average weight must exceed the threshold.
   */
  function IsChronicViolator(st: Store, author: string, threshold: real): (r: Result<bool>)
    ensures Find(st, Key(BanNamespace, author)).None? ==> r == Ok(false)
    ensures r == Ok(true) && Find(st, Key(BanNamespace, author)).value.Ban? ==>
      Find(st, Key(BanNamespace, author)).value.ban.count >= 5 && Find(st, Key(BanNamespace, author)).value.ban.avg > threshold
    ensures (match Find(st, Key(BanNamespace, author))
      case Some(Ban(p)) => r == Ok(p.count >= 5 && p.avg > threshold)
      case _ => true)
  {
    match Find(st, Key(BanNamespace, author))
    case None => Ok(false)
    case Some(Ban(p)) => Ok(p.count >= 5 && p.avg > threshold)
    case Some(Other(fields)) => ChronicFields(fields, "avg_weight", threshold)
    case Some(_) => Raised("KeyError: count")
  }

  /** An author needs five analysed tweets before the agent calls them chronic. */
  lemma {:induction false} ChronicNeedsFive(st: Store, author: string, threshold: real, ps: seq<seq<string>>)
    requires Find(st, Key(BanNamespace, author)).Some? && Find(st, Key(BanNamespace, author)).value.Ban?
    requires Find(st, Key(BanNamespace, author)).value.ban.count < 5
    ensures IsChronicViolator(st, author, threshold) == Ok(false)
  {
  }

  const InappropriateTerms: seq<string> := ["scam", "trash", "garbage", "shit"]

  /**
   * `should_escalate_for_review` as written: a tone penalty over 0.8; or a chronic author with a
   * penalty over 0.5; or one of the inappropriate words as an element of the reported terms.
   */
  function ShouldEscalate(res: BannedResult, st: Store, author: string): (r: Result<bool>)
    ensures res.tonePenalty > 0.8 ==> r == Ok(true)
    ensures res.tonePenalty <= 0.8 ==> (r.Ok? <==> IsChronicViolator(st, author, 1.0).Ok?)
    ensures r == Ok(false) ==> res.tonePenalty <= 0.5 || IsChronicViolator(st, author, 1.0) == Ok(false)
    ensures r.Ok? ==>
      (r.value <==> (|| res.tonePenalty > 0.8
                     || (IsChronicViolator(st, author, 1.0) == Ok(true) && res.tonePenalty > 0.5)
                     || exists t :: t in InappropriateTerms && t in res.bannedTerms))
  {
    if res.tonePenalty > 0.8 then Ok(true)
    else
      var chronic :- IsChronicViolator(st, author, 1.0);
      if chronic && res.tonePenalty > 0.5 then Ok(true)
      else Ok(exists t :: t in InappropriateTerms && t in res.bannedTerms)
  }

  /** No reported term is ever one of the bare inappropriate words: every term carries its note. */
  lemma {:induction false} InappropriateNeverReported(ps: seq<CompiledPattern>, text: string, author: string, ev: BanEvidence, sarcastic: bool, st: Store)
    ensures forall t :: t in InappropriateTerms ==> t !in AnalyzeBanned(ps, text, author, ev, sarcastic, st).0.bannedTerms
  {
    if Analysis(ps, text, author, ev, sarcastic, st).Ok? {
      var d := Detect(ps, text, ev.found, ev.innocent);
      ReportKeepsParen(d.terms);
      NoBareWord(Report(d.terms));
    }
  }

  predicate EndsWithParen(t: string)
  {
    |t| > 0 && t[|t| - 1] == ')'
  }

  /** Cleaning keeps the closing parenthesis at the end of every term. */
  lemma {:induction false} ReportKeepsParen(terms: seq<string>)
    requires forall t :: t in terms ==> EndsWithParen(t)
    ensures forall t :: t in Report(terms) ==> EndsWithParen(t)
  {
    var rs := Report(terms);
    forall i | 0 <= i < |rs|
      ensures EndsWithParen(rs[i])
    {
      assert terms[i] in terms;
      Text.StripKeepsLast(terms[i]);
      var c := Text.Strip(terms[i]);
      assert rs[i] == Text.Lower(c);
      assert rs[i][|c| - 1] == Text.LowerChar(c[|c| - 1]);
    }
  }

  /** None of the four words ends with a parenthesis. */
  lemma {:induction false} NoBareWord(terms: seq<string>)
    requires forall t :: t in terms ==> EndsWithParen(t)
    ensures forall t :: t in InappropriateTerms ==> t !in terms
  {
    assert !EndsWithParen("scam") && !EndsWithParen("trash") && !EndsWithParen("garbage") && !EndsWithParen("shit");
  }

  /**
   * As written, the inappropriate-word clause never decides anything: for an analysed result the
   * decision is the penalty and chronic-author clauses alone.
   */
  lemma {:induction false} EscalationIgnoresWords(ps: seq<CompiledPattern>, text: string, author: string, ev: BanEvidence, sarcastic: bool, st: Store, st': Store)
    ensures var res := AnalyzeBanned(ps, text, author, ev, sarcastic, st).0;
      ShouldEscalate(res, st', author)
      == if res.tonePenalty > 0.8 then Ok(true)
         else match IsChronicViolator(st', author, 1.0)
           case Ok(c) => Ok(c && res.tonePenalty > 0.5)
           case Raised(e) => Raised(e)
  {
    InappropriateNeverReported(ps, text, author, ev, sarcastic, st);
    WithoutWordsEscalation(AnalyzeBanned(ps, text, author, ev, sarcastic, st).0, st', author);
  }

  /** Without a bare inappropriate word among the terms, only the penalty and the violator count decide. */
  lemma {:induction false} WithoutWordsEscalation(res: BannedResult, st: Store, author: string)
    requires forall t :: t in InappropriateTerms ==> t !in res.bannedTerms
    ensures ShouldEscalate(res, st, author)
      == if res.tonePenalty > 0.8 then Ok(true)
         else match IsChronicViolator(st, author, 1.0)
           case Ok(c) => Ok(c && res.tonePenalty > 0.5)
           case Raised(e) => Raised(e)
  {
  }

  /** The escalation with the word clause as evidently intended: a reported term whose match is the word. */
  function ShouldEscalateCorrected(res: BannedResult, st: Store, author: string): (r: Result<bool>)
    ensures res.tonePenalty > 0.8 ==> r == Ok(true)
    ensures res.tonePenalty <= 0.8 ==> (r.Ok? <==> IsChronicViolator(st, author, 1.0).Ok?)
    ensures r.Ok? && ShouldEscalate(res, st, author) == Ok(true) ==> r == Ok(true)
  {
    if res.tonePenalty > 0.8 then Ok(true)
    else
      var chronic :- IsChronicViolator(st, author, 1.0);
      if chronic && res.tonePenalty > 0.5 then Ok(true)
      else
        Ok(exists t, b :: t in InappropriateTerms && b in res.bannedTerms && (b == t || StartsWith(b, t + " (")))
  }

  /** Cleaning a tagged match whose first character is not blank starts with the lower-cased match and " (". */
  lemma {:induction false} TaggedCleanStartsWith(m: string, note: string)
    requires |m| > 0 && !Text.IsSpace(m[0])
    ensures StartsWith(Text.Lower(Text.Strip(Tagged(m, note))), Text.Lower(m) + " (")
  {
    var term := Tagged(m, note);
    assert term[0] == m[0] && term[|term| - 1] == ')';
    Text.StripUnchanged(term);
    var b := Text.Lower(term);
    var w := Text.Lower(m) + " (";
    assert |b| >= |w|;
    forall k | 0 <= k < |w|
      ensures b[k] == w[k]
    {
      assert term[k] == (m + " (")[k];
    }
    assert b[..|w|] == w;
  }

  /** With the correction, a reported term that is an inappropriate word, bare or tagged, escalates. */
  lemma {:induction false} CorrectedOnReportedWord(res: BannedResult, st: Store, author: string, t: string, b: string)
    requires IsChronicViolator(st, author, 1.0).Ok?
    requires t in InappropriateTerms && b in res.bannedTerms && StartsWith(b, t + " (")
    ensures ShouldEscalateCorrected(res, st, author) == Ok(true)
  {
  }

  /**
   * With the correction, a flagged match of an inappropriate word (in any letter case) sends the
   * analysed result to review whenever the chronic-author check does not raise.
   */
  lemma {:induction false} CorrectedEscalatesOnWord(ps: seq<CompiledPattern>, text: string, author: string, ev: BanEvidence, sarcastic: bool, st: Store, st': Store, i: nat, j: nat)
    requires Analysis(ps, text, author, ev, sarcastic, st).Ok?
    requires IsChronicViolator(st', author, 1.0).Ok?
    requires i < |ps| && Flagged(text, MatchesAt(ev.found, i), ev.innocent) && j < |MatchesAt(ev.found, i)|
    requires Text.Lower(MatchesAt(ev.found, i)[j]) in InappropriateTerms
    requires |MatchesAt(ev.found, i)[j]| > 0 && !Text.IsSpace(MatchesAt(ev.found, i)[j][0])
    ensures ShouldEscalateCorrected(AnalyzeBanned(ps, text, author, ev, sarcastic, st).0, st', author) == Ok(true)
  {
    var m := MatchesAt(ev.found, i)[j];
    var term := Tagged(m, ps[i].note);
    DetectReports(ps, text, ev.found, ev.innocent, i, j);
    var d := Detect(ps, text, ev.found, ev.innocent);
    var a := Analysis(ps, text, author, ev, sarcastic, st);
    var res := AnalyzeBanned(ps, text, author, ev, sarcastic, st).0;
    assert res == a.value.0;
    var rep := Report(d.terms);
    assert res.bannedTerms == rep;
    var idx :| 0 <= idx < |d.terms| && d.terms[idx] == term;
    TaggedCleanStartsWith(m, ps[i].note);
    var b := rep[idx];
    assert b == Text.Lower(Text.Strip(term));
    CorrectedOnReportedWord(res, st', author, Text.Lower(m), b);
  }
}
