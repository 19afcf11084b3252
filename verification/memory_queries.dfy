/**
 * The queries of `MemoryNamespaceManager` that read the whole store: the most violated banned
 * terms, the chronic sloppers, the age-based clean-up, the namespace export and the namespace
 * statistics. They iterate the store in insertion order, as `dict.items()` does.
 */
module MemoryQueries {
  import opened Wrappers
  import opened Values
  import opened Tallies
  import opened MemoryStore
  import Sorting
  import Text
  import Enhanced

  // ---------------------------------------------------------------------------------------------
  // Most violated terms
  // ---------------------------------------------------------------------------------------------

  /**
   * `data.get('violations', {})` of a record under a `ban_term_stats:` key: the statistics' own
   * tally, nothing for a record without the field, and an error for a foreign record that has one.
   */
  function ViolationsOf(e: Entry): (r: Result<Tally>)
    ensures e.Ban? ==> r == Ok(e.ban.violations)
    ensures "violations" !in FieldsOf(e) ==> r == Ok([])
  {
    if e.Ban? then Ok(e.ban.violations)
    else if "violations" in FieldsOf(e) then Raised("violations of another shape")
    else Ok([])
  }

  /** `term_counts[term] = term_counts.get(term, 0) + count` over one record's violations, in order. */
  function AddAll(t: Tally, v: Tally): Tally
  {
    if |v| == 0 then t else AddTo(AddAll(t, v[..|v| - 1]), v[|v| - 1].0, v[|v| - 1].1)
  }

  /** The sum of every count `v` lists under `k`. */
  function SumFor(v: Tally, k: string): nat
  {
    if |v| == 0 then 0 else SumFor(v[..|v| - 1], k) + (if v[|v| - 1].0 == k then v[|v| - 1].1 else 0)
  }

  /** Merging adds each term's counts, keeps the names distinct and adds the totals. */
  lemma {:induction false} AddAllCounts(t: Tally, v: Tally, k: string)
    ensures CountOf(AddAll(t, v), k) == CountOf(t, k) + SumFor(v, k)
    ensures TallyTotal(AddAll(t, v)) == TallyTotal(t) + TallyTotal(v)
    ensures DistinctNames(t) ==> DistinctNames(AddAll(t, v))
  {
    AddAllCount(t, v, k);
    AddAllTotal(t, v);
    if DistinctNames(t) {
      AddAllNames(t, v);
    }
  }

  lemma {:induction false} AddAllCount(t: Tally, v: Tally, k: string)
    ensures CountOf(AddAll(t, v), k) == CountOf(t, k) + SumFor(v, k)
  {
    if |v| > 0 {
      var init, x := v[..|v| - 1], v[|v| - 1];
      AddAllCount(t, init, k);
      AddToCounts(AddAll(t, init), x.0, x.1, k);
    }
  }

  lemma {:induction false} AddAllTotal(t: Tally, v: Tally)
    ensures TallyTotal(AddAll(t, v)) == TallyTotal(t) + TallyTotal(v)
  {
    if |v| > 0 {
      var init, x := v[..|v| - 1], v[|v| - 1];
      AddAllTotal(t, init);
      AddToCounts(AddAll(t, init), x.0, x.1, x.0);
      TallyTotalSnoc(init, x);
      assert v == init + [x];
    }
  }

  lemma {:induction false} AddAllNames(t: Tally, v: Tally)
    requires DistinctNames(t)
    ensures DistinctNames(AddAll(t, v))
  {
    if |v| > 0 {
      var init, x := v[..|v| - 1], v[|v| - 1];
      AddAllNames(t, init);
      AddToNames(AddAll(t, init), x.0, x.1, x.0);
    }
  }

  lemma {:induction false} TallyTotalSnoc(v: Tally, x: (string, nat))
    ensures TallyTotal(v + [x]) == TallyTotal(v) + x.1
  {
    if |v| > 0 {
      assert (v + [x])[1..] == v[1..] + [x];
      TallyTotalSnoc(v[1..], x);
    }
  }

  /** The aggregate of every ban record's violations, in store order. */
  function TermCounts(st: Store): Result<Tally>
  {
    if |st| == 0 then Ok([])
    else
      var t :- TermCounts(st[..|st| - 1]);
      var (key, e) := st[|st| - 1];
      if StartsWith(key, BanNamespace + ":") then
        var v :- ViolationsOf(e);
        Ok(AddAll(t, v))
      else Ok(t)
  }

  /** How many violations of `k` the ban records list in all: the reference for the aggregate. */
  function Mentions(st: Store, k: string): nat
  {
    if |st| == 0 then 0
    else
      var (key, e) := st[|st| - 1];
      Mentions(st[..|st| - 1], k)
      + (if StartsWith(key, BanNamespace + ":") && ViolationsOf(e).Ok? then SumFor(ViolationsOf(e).value, k) else 0)
  }

  /** The aggregate counts each term exactly as often as the ban records list it, once per name. */
  lemma {:induction false} TermCountsCounts(st: Store, k: string)
    requires TermCounts(st).Ok?
    ensures CountOf(TermCounts(st).value, k) == Mentions(st, k)
    ensures DistinctNames(TermCounts(st).value)
  {
    if |st| > 0 {
      TermCountsCounts(st[..|st| - 1], k);
      var t := TermCounts(st[..|st| - 1]).value;
      var (key, e) := st[|st| - 1];
      if StartsWith(key, BanNamespace + ":") {
        AddAllCounts(t, ViolationsOf(e).value, k);
      }
    }
  }

  function CountKey(x: (string, nat)): real
  {
    x.1 as real
  }

  /** `get_most_violated_terms`: the aggregate sorted by count, highest first, cut at `top_n`. */
  function MostViolatedTerms(st: Store, topN: int): (r: Result<seq<(string, nat)>>)
    ensures r.Ok? <==> TermCounts(st).Ok?
    ensures r.Ok? ==> |r.value| <= |TermCounts(st).value| && (topN >= 0 ==> |r.value| <= topN)
    ensures r.Ok? ==> Sorting.SortedDesc(r.value, CountKey)
    ensures r.Ok? && topN >= 0 ==>
      |r.value| == if topN < |TermCounts(st).value| then topN else |TermCounts(st).value|
    ensures r.Ok? && topN < 0 ==>
      |r.value| == if |TermCounts(st).value| + topN < 0 then 0 else |TermCounts(st).value| + topN
    ensures r.Ok? ==> multiset(r.value) <= multiset(TermCounts(st).value)
  {
    var t :- TermCounts(st);
    var sorted := Sorting.SortDesc(t, CountKey);
    Text.PyPrefix(sorted, topN);
    Ok(Text.PySlice(sorted, 0, topN))
  }

  /** Each listed term carries its full count over all ban records. */
  lemma {:induction false} MostViolatedTermsCounts(st: Store, topN: int, i: nat)
    requires MostViolatedTerms(st, topN).Ok?
    requires i < |MostViolatedTerms(st, topN).value|
    ensures MostViolatedTerms(st, topN).value[i].1 == Mentions(st, MostViolatedTerms(st, topN).value[i].0)
  {
    var t := TermCounts(st).value;
    var sorted := Sorting.SortDesc(t, CountKey);
    var r := MostViolatedTerms(st, topN).value;
    var lo, hi := Text.SliceBound(|sorted|, 0), Text.SliceBound(|sorted|, topN);
    assert r == sorted[lo..hi] && lo == 0;
    var x := r[i];
    assert x == sorted[i];
    assert x in multiset(sorted);
    assert x in multiset(t);
    var a :| 0 <= a < |t| && t[a] == x;
    TermCountsCounts(st, x.0);
    DistinctCount(t, a);
  }

  /** With a non-negative `top_n`, no term left out was violated more often than any listed one. */
  lemma {:induction false} MostViolatedTermsTop(st: Store, topN: int, i: nat, k: string)
    requires MostViolatedTerms(st, topN).Ok?
    requires i < |MostViolatedTerms(st, topN).value|
    requires topN >= 0 && k in Names(TermCounts(st).value) && k !in Names(MostViolatedTerms(st, topN).value)
    ensures Mentions(st, k) <= MostViolatedTerms(st, topN).value[i].1
  {
    TermCountsCounts(st, k);
    SortedPrefixTop(TermCounts(st).value, topN, i, k);
  }

  /** The counting core of the above, for any tally with distinct names. */
  lemma {:induction false} SortedPrefixTop(t: Tally, topN: int, i: nat, k: string)
    requires DistinctNames(t) && topN >= 0 && k in Names(t)
    requires i < |Text.PySlice(Sorting.SortDesc(t, CountKey), 0, topN)|
    requires k !in Names(Text.PySlice(Sorting.SortDesc(t, CountKey), 0, topN))
    ensures CountOf(t, k) <= Text.PySlice(Sorting.SortDesc(t, CountKey), 0, topN)[i].1
  {
    var sorted := Sorting.SortDesc(t, CountKey);
    var r := Text.PySlice(sorted, 0, topN);
    assert r == sorted[..|r|];
    var b :| 0 <= b < |t| && Names(t)[b] == k;
    DistinctCount(t, b);
    var j := IndexInSorted(t, sorted, t[b]);
    NotInPrefix(sorted, |r|, k, j);
    assert CountKey(sorted[j]) <= CountKey(sorted[i]);
  }

  /** An element of the tally has a position in any permutation of it. */
  lemma {:induction false} IndexInSorted(t: Tally, sorted: Tally, x: (string, nat)) returns (j: nat)
    requires multiset(sorted) == multiset(t) && x in t
    ensures j < |sorted| && sorted[j] == x
  {
    assert x in multiset(t);
    assert x in multiset(sorted);
    j :| 0 <= j < |sorted| && sorted[j] == x;
  }

  /** An entry named `k` lies after a prefix in which the name does not appear. */
  lemma {:induction false} NotInPrefix(sorted: Tally, n: nat, k: string, j: nat)
    requires n <= |sorted| && j < |sorted| && sorted[j].0 == k
    requires k !in Names(sorted[..n])
    ensures j >= n
  {
  }

  /** In a tally with distinct names, an entry's count is the name's count. */
  lemma {:induction false} DistinctCount(t: Tally, a: nat)
    requires DistinctNames(t) && a < |t|
    ensures CountOf(t, t[a].0) == t[a].1
  {
    if a > 0 {
      DistinctCount(t[1..], a - 1);
    }
  }

  // ---------------------------------------------------------------------------------------------
  // Chronic sloppers
  // ---------------------------------------------------------------------------------------------

  /** One entry of `get_chronic_sloppers`; `trend` is the last three scores. */
  datatype Slopper = Slopper(author: string, avg: real, count: nat, trend: seq<real>)

  function AvgKey(s: Slopper): real
  {
    s.avg
  }

  /** `key.replace(prefix, '')`: every occurrence of the prefix is deleted, not only the leading one. */
  function Entity(key: string, prefix: string): string
    requires |prefix| > 0
  {
    Text.Replace(key, prefix, "")
  }

  /** For a key built from an entity that never holds the prefix, the entity comes back. */
  lemma EntityOfKey(prefix: string, entity: string)
    requires |prefix| > 0 && !Text.Contains(entity, prefix)
    ensures Entity(prefix + entity, prefix) == entity
  {
    Text.ReplaceLeading(prefix, entity, "");
    Text.ReplaceAbsent(entity, prefix, "");
  }

  /** A fingerprint key whose author holds the prefix again loses both copies, as Python's `replace` does. */
  lemma EntityRemovesEvery()
    ensures Entity("slop_fingerprint:aslop_fingerprint:b", "slop_fingerprint:") == "ab"
  {
    var p := "slop_fingerprint:";
    assert "slop_fingerprint:aslop_fingerprint:b" == p + ("a" + p + "b");
    Text.ReplaceLeading(p, "a" + p + "b", "");
    var t := "a" + p + "b";
    assert t[..|p|] != p by { assert t[0] != p[0]; }
    assert t[1..] == p + "b";
    Text.ReplaceLeading(p, "b", "");
  }

  /** A fingerprint record the query picks. */
  predicate Qualifies(st: Store, i: int, threshold: real, minCount: int)
    requires 0 <= i < |st|
  {
    StartsWith(st[i].0, SlopNamespace + ":") && st[i].1.Slop?
    && st[i].1.slop.count >= minCount && st[i].1.slop.avg >= threshold
  }

  function SlopperAt(st: Store, i: int): Slopper
    requires 0 <= i < |st| && st[i].1.Slop?
  {
    var p := st[i].1.slop;
    Slopper(Entity(st[i].0, SlopNamespace + ":"), p.avg, p.count, Last(p.lastScores, 3))
  }

  /** The qualifying fingerprints in store order. */
  function Sloppers(st: Store, threshold: real, minCount: int): seq<Slopper>
  {
    if |st| == 0 then []
    else
      var found := Sloppers(st[..|st| - 1], threshold, minCount);
      if Qualifies(st, |st| - 1, threshold, minCount) then found + [SlopperAt(st, |st| - 1)] else found
  }

  /** Every listed slopper comes from a qualifying fingerprint. */
  lemma {:induction false} SloppersSound(st: Store, threshold: real, minCount: int, s: Slopper)
    requires s in Sloppers(st, threshold, minCount)
    ensures exists i :: 0 <= i < |st| && Qualifies(st, i, threshold, minCount) && SlopperAt(st, i) == s
  {
    var init := st[..|st| - 1];
    if s in Sloppers(init, threshold, minCount) {
      SloppersSound(init, threshold, minCount, s);
      var i :| 0 <= i < |init| && Qualifies(init, i, threshold, minCount) && SlopperAt(init, i) == s;
      assert init[i] == st[i];
      assert Qualifies(st, i, threshold, minCount) && SlopperAt(st, i) == s;
    } else {
      assert Qualifies(st, |st| - 1, threshold, minCount) && SlopperAt(st, |st| - 1) == s;
    }
  }

  /** Every qualifying fingerprint is listed. */
  lemma {:induction false} SloppersComplete(st: Store, threshold: real, minCount: int, i: nat)
    requires i < |st| && Qualifies(st, i, threshold, minCount)
    ensures SlopperAt(st, i) in Sloppers(st, threshold, minCount)
  {
    var init := st[..|st| - 1];
    if i < |init| {
      assert init[i] == st[i];
      SloppersComplete(init, threshold, minCount, i);
    }
  }

  /** A fingerprint under the prefix that is of another shape, which the model lets raise. */
  predicate ForeignFingerprint(st: Store)
  {
    exists i :: 0 <= i < |st| && StartsWith(st[i].0, SlopNamespace + ":") && !st[i].1.Slop?
  }

  /**
   * `get_chronic_sloppers`: the authors whose fingerprint has at least `min_count` tweets and an
   * average of at least `threshold`, worst first.
   */
  function ChronicSloppers(st: Store, threshold: real, minCount: int): (r: Result<seq<Slopper>>)
    ensures r.Ok? <==> !ForeignFingerprint(st)
    ensures r.Ok? ==> multiset(r.value) == multiset(Sloppers(st, threshold, minCount))
    ensures r.Ok? ==> Sorting.SortedDesc(r.value, AvgKey)
    ensures r.Ok? ==> forall s :: s in r.value ==> s.count >= minCount && s.avg >= threshold && |s.trend| <= 3
  {
    if ForeignFingerprint(st) then Raised("fingerprint of another shape")
    else
      var found := Sloppers(st, threshold, minCount);
      var sorted := Sorting.SortDesc(found, AvgKey);
      forall s | s in sorted
        ensures s.count >= minCount && s.avg >= threshold && |s.trend| <= 3
      {
        assert s in multiset(found);
        SloppersSound(st, threshold, minCount, s);
      }
      Ok(sorted)
  }

  /** Every fingerprint with enough tweets and a high enough average is in the answer. */
  lemma {:induction false} ChronicSloppersComplete(st: Store, threshold: real, minCount: int, i: nat)
    requires ChronicSloppers(st, threshold, minCount).Ok?
    requires i < |st| && Qualifies(st, i, threshold, minCount)
    ensures SlopperAt(st, i) in ChronicSloppers(st, threshold, minCount).value
  {
    SloppersComplete(st, threshold, minCount, i);
    assert SlopperAt(st, i) in multiset(ChronicSloppers(st, threshold, minCount).value);
  }

  // ---------------------------------------------------------------------------------------------
  // Clean-up
  // ---------------------------------------------------------------------------------------------

  /** `datetime.fromisoformat(v)`, `None` for the values it rejects with `ValueError` or `TypeError`. */
  function ParseTime(v: Value): Option<int>
  {
    if v.VTime? then Some(v.t) else None
  }

  /** A foreign record's `field`, parsed, or `None` when it is absent or does not parse. */
  function FieldTime(fields: seq<(string, Value)>, field: string): Option<int>
  {
    match FieldValue(fields, field)
    case None => None
    case Some(v) => ParseTime(v)
  }

  /** The parsed `last_updated`, `last_seen` and `flagged_at` times an entry holds, in that order. */
  function Timestamps(e: Entry): (ts: seq<Option<int>>)
    ensures |ts| == 3
  {
    match e
    case Sarcasm(p) => [p.lastUpdated, None, None]
    case Echo(m) => [None, Some(m.lastSeen), None]
    case Slop(p) => [p.lastUpdated, None, None]
    case Ban(p) => [p.lastUpdated, None, None]
    case Latency(f) => [None, None, Some(f.flaggedAt)]
    case Other(fields) => [FieldTime(fields, "last_updated"), FieldTime(fields, "last_seen"), FieldTime(fields, "flagged_at")]
  }

  /**
   * The inner loop of `cleanup_old_entries` over the timestamp fields from position `k`: it
   * stops at the first parsed time before the cutoff and skips absent or unparsable fields.
   */
  function StaleFrom(ts: seq<Option<int>>, k: nat, cutoff: int): bool
    decreases |ts| - k
  {
    if k >= |ts| then false
    else if ts[k].Some? && ts[k].value < cutoff then true
    else StaleFrom(ts, k + 1, cutoff)
  }

  /** An entry is removed exactly when one of its timestamps parses to a time before the cutoff. */
  lemma {:induction false} StaleFromIff(ts: seq<Option<int>>, k: nat, cutoff: int)
    ensures StaleFrom(ts, k, cutoff) <==> exists j :: k <= j < |ts| && ts[j].Some? && ts[j].value < cutoff
    decreases |ts| - k
  {
    if k < |ts| {
      StaleFromIff(ts, k + 1, cutoff);
    }
  }

  predicate Stale(e: Entry, cutoff: int)
  {
    StaleFrom(Timestamps(e), 0, cutoff)
  }

  /** `datetime.now() - timedelta(days=days)`, in seconds. */
  function Cutoff(now: int, days: int): int
  {
    now - days * 86400
  }

  /** The entries the clean-up keeps, in order. */
  function Fresh(st: Store, cutoff: int): (r: Store)
    ensures |r| <= |st|
  {
    if |st| == 0 then []
    else Fresh(st[..|st| - 1], cutoff) + (if Stale(st[|st| - 1].1, cutoff) then [] else [st[|st| - 1]])
  }

  /** An entry survives exactly when it is in the store and none of its timestamps is before the cutoff. */
  lemma {:induction false} FreshExactly(st: Store, cutoff: int, x: (string, Entry))
    ensures x in Fresh(st, cutoff) <==> x in st && !Stale(x.1, cutoff)
  {
    if |st| > 0 {
      FreshExactly(st[..|st| - 1], cutoff, x);
      assert st == st[..|st| - 1] + [st[|st| - 1]];
    }
  }

  /**
   * `cleanup_old_entries`: collects the stale keys, deletes them, and returns how many there
   * were together with the remaining store.
   */
  method CleanupOldEntries(st: Store, days: int, now: int) returns (kept: Store, removed: nat)
    ensures kept == Fresh(st, Cutoff(now, days))
    ensures removed + |kept| == |st|
    ensures forall x :: x in kept <==> x in st && !Stale(x.1, Cutoff(now, days))
  {
    var cutoff := Cutoff(now, days);
    kept, removed := [], 0;
    var i := 0;
    while i < |st|
      invariant 0 <= i <= |st|
      invariant kept == Fresh(st[..i], cutoff)
      invariant removed + |kept| == i
    {
      assert st[..i + 1][..i] == st[..i];
      if Stale(st[i].1, cutoff) {
        removed := removed + 1;
      } else {
        kept := kept + [st[i]];
      }
      i := i + 1;
    }
    assert st[..i] == st;
    forall x
      ensures x in kept <==> x in st && !Stale(x.1, cutoff)
    {
      FreshExactly(st, cutoff, x);
    }
  }

  // ---------------------------------------------------------------------------------------------
  // Export and statistics
  // ---------------------------------------------------------------------------------------------

  /** `export_namespace`: the entries whose key starts with `namespace + ':'`, in order. */
  function ExportNamespace(st: Store, namespace: string): (r: Store)
    ensures forall x :: x in r <==> x in st && StartsWith(x.0, namespace + ":")
  {
    if |st| == 0 then []
    else
      var r := ExportNamespace(st[..|st| - 1], namespace);
      assert st == st[..|st| - 1] + [st[|st| - 1]];
      r + (if StartsWith(st[|st| - 1].0, namespace + ":") then [st[|st| - 1]] else [])
  }

  /** Whatever is stored under a namespace's key is exported with that namespace. */
  lemma {:induction false} ExportAfterPut(st: Store, namespace: string, entity: string, e: Entry)
    ensures (Key(namespace, entity), e) in ExportNamespace(Put(st, Key(namespace, entity), e), namespace)
  {
    PutFind(st, Key(namespace, entity), e, "");
    var k := Key(namespace, entity);
    assert k[..|namespace + ":"|] == namespace + ":";
  }

  /**
   * `get_memory_statistics` without the timestamps and size: the entry count and the count per
   * namespace, each entry counted under the part of its key before the first ':'.
   */
  function MemoryStatistics(st: Store): (s: Enhanced.MemoryStats)
    ensures s.totalEntries == |st| == TallyTotal(s.namespaces)
    ensures forall ns :: CountOf(s.namespaces, ns) == Enhanced.KeysIn(Names(st), ns)
  {
    forall ns
      ensures CountOf(Enhanced.MemoryStatsOf(Names(st)).namespaces, ns) == Enhanced.KeysIn(Names(st), ns)
    {
      Enhanced.MemoryStatsCounts(Names(st), ns);
    }
    Enhanced.MemoryStatsCounts(Names(st), "");
    Enhanced.MemoryStatsOf(Names(st))
  }
}
