/**
 * The handful of Python `str` operations the pipeline relies on, written over `seq<char>`:
 * `find`, `rfind`, `in`, `replace`, `strip`, ASCII `lower`/`upper`, prefix slices and `join`.
 */
module Text {

  /** `pat` occurs in `s` starting at index `i`. */
  predicate OccursAt(s: string, pat: string, i: int)
  {
    0 <= i && i + |pat| <= |s| && s[i..i + |pat|] == pat
  }

  /** Python's `s.find(pat, start)`: the lowest index `>= start` where `pat` occurs, or -1. */
  function Find(s: string, pat: string, start: nat): (r: int)
    ensures r == -1 || (start <= r && OccursAt(s, pat, r))
    ensures r != -1 ==> forall j :: start <= j < r ==> !OccursAt(s, pat, j)
    ensures r == -1 ==> forall j :: start <= j ==> !OccursAt(s, pat, j)
    decreases |s| - start + 1
  {
    if start + |pat| > |s| then -1
    else if s[start..start + |pat|] == pat then start
    else Find(s, pat, start + 1)
  }

  /** Python's `s.rfind(pat)` restricted to candidate starts `<= hi`: the highest such occurrence, or -1. */
  function LastFrom(s: string, pat: string, hi: int): (r: int)
    ensures r == -1 || (0 <= r <= hi && OccursAt(s, pat, r))
    ensures r != -1 ==> forall j :: r < j <= hi ==> !OccursAt(s, pat, j)
    ensures r == -1 ==> forall j :: j <= hi ==> !OccursAt(s, pat, j)
    decreases hi + 1
  {
    if hi < 0 then -1
    else if OccursAt(s, pat, hi) then hi
    else LastFrom(s, pat, hi - 1)
  }

  /** Python's `s.rfind(pat)`. */
  function RFind(s: string, pat: string): (r: int)
    ensures r == -1 || OccursAt(s, pat, r)
    ensures r != -1 ==> forall j :: r < j ==> !OccursAt(s, pat, j)
    ensures r == -1 ==> forall j :: !OccursAt(s, pat, j)
  {
    LastFrom(s, pat, |s| - |pat|)
  }

  /** Python's `pat in s`. */
  predicate Contains(s: string, pat: string)
  {
    Find(s, pat, 0) != -1
  }

  lemma {:induction false} ContainsIff(s: string, pat: string)
    ensures Contains(s, pat) <==> exists i :: OccursAt(s, pat, i)
  {
  }

  /**
   * Python's `s.replace(pat, sub)` for a non-empty `pat`: every occurrence is replaced,
   * scanning left to right and resuming after each replaced occurrence.
   */
  function Replace(s: string, pat: string, sub: string): (r: string)
    requires |pat| > 0
    ensures |sub| <= |pat| ==> |r| <= |s|
    ensures |s| < |pat| ==> r == s
    decreases |s|
  {
    if |s| < |pat| then s
    else if s[..|pat|] == pat then sub + Replace(s[|pat|..], pat, sub)
    else [s[0]] + Replace(s[1..], pat, sub)
  }

  /** A string in which `pat` never occurs is left as it is. */
  lemma {:induction false} ReplaceAbsent(s: string, pat: string, sub: string)
    requires |pat| > 0
    requires !Contains(s, pat)
    ensures Replace(s, pat, sub) == s
    decreases |s|
  {
    ContainsIff(s, pat);
    if |s| >= |pat| {
      assert !OccursAt(s, pat, 0);
      assert s[..|pat|] != pat;
      assert !Contains(s[1..], pat) by {
        ContainsIff(s[1..], pat);
        forall i | OccursAt(s[1..], pat, i)
          ensures OccursAt(s, pat, i + 1)
        {
          assert s[1..][i..i + |pat|] == s[i + 1..i + 1 + |pat|];
        }
      }
      ReplaceAbsent(s[1..], pat, sub);
      assert s == [s[0]] + s[1..];
    }
  }

  /** An occurrence at the front is replaced, and the scan resumes right after it. */
  lemma ReplaceLeading(pat: string, rest: string, sub: string)
    requires |pat| > 0
    ensures Replace(pat + rest, pat, sub) == sub + Replace(rest, pat, sub)
  {
    assert (pat + rest)[..|pat|] == pat;
    assert (pat + rest)[|pat|..] == rest;
  }

  /** Whitespace as Python's `str.split()`/`str.strip()` see it, restricted to ASCII. */
  predicate IsSpace(c: char)
  {
    c == ' ' || c == '\t' || c == '\n' || c == '\r' || c == '\U{B}' || c == '\U{C}'
  }

  function StripLeft(s: string): (r: string)
    ensures |r| <= |s| && r == s[|s| - |r|..]
    ensures |r| > 0 ==> !IsSpace(r[0])
    ensures forall i :: 0 <= i < |s| - |r| ==> IsSpace(s[i])
  {
    if |s| > 0 && IsSpace(s[0]) then StripLeft(s[1..]) else s
  }

  function StripRight(s: string): (r: string)
    ensures |r| <= |s| && r == s[..|r|]
    ensures |r| > 0 ==> !IsSpace(r[|r| - 1])
    ensures forall i :: |r| <= i < |s| ==> IsSpace(s[i])
  {
    if |s| > 0 && IsSpace(s[|s| - 1]) then StripRight(s[..|s| - 1]) else s
  }

  /** `r` is the contiguous piece of `s` starting at index `i`. */
  predicate SliceAt(s: string, r: string, i: int)
  {
    0 <= i <= |s| - |r| && r == s[i..i + |r|]
  }

  /** Python's `s.strip()`: the slice of `s` left after dropping whitespace at both ends. */
  function Strip(s: string): (r: string)
    ensures |r| <= |s|
    ensures |r| > 0 ==> !IsSpace(r[0]) && !IsSpace(r[|r| - 1])
    ensures exists i :: SliceAt(s, r, i)
  {
    var l := StripLeft(s);
    var r := StripRight(l);
    assert r == s[|s| - |l|..][..|r|] == s[|s| - |l|..|s| - |l| + |r|];
    assert SliceAt(s, r, |s| - |l|);
    r
  }

  /** A string that starts and ends with non-whitespace is its own strip. */
  lemma {:induction false} StripUnchanged(s: string)
    requires |s| > 0 && !IsSpace(s[0]) && !IsSpace(s[|s| - 1])
    ensures Strip(s) == s
  {
  }

  /** Stripping keeps a non-whitespace last character. */
  lemma {:induction false} StripKeepsLast(s: string)
    requires |s| > 0 && !IsSpace(s[|s| - 1])
    ensures |Strip(s)| > 0 && Strip(s)[|Strip(s)| - 1] == s[|s| - 1]
  {
    var l := StripLeft(s);
    assert |l| > 0;
    assert l[|l| - 1] == s[|s| - 1];
  }

  /** Lower-casing and stripping commute: `t.lower().strip() == t.strip().lower()`. */
  lemma {:induction false} LowerStrip(s: string)
    ensures Lower(Strip(s)) == Strip(Lower(s))
  {
    LowerStripLeft(s);
    LowerStripRight(StripLeft(s));
  }

  lemma {:induction false} LowerStripLeft(s: string)
    ensures Lower(StripLeft(s)) == StripLeft(Lower(s))
    decreases |s|
  {
    if |s| > 0 {
      LowerCharSpace(s[0]);
      assert Lower(s)[0] == LowerChar(s[0]);
      if IsSpace(s[0]) {
        assert Lower(s)[1..] == Lower(s[1..]);
        LowerStripLeft(s[1..]);
      }
    }
  }

  lemma {:induction false} LowerStripRight(s: string)
    ensures Lower(StripRight(s)) == StripRight(Lower(s))
    decreases |s|
  {
    if |s| > 0 {
      LowerCharSpace(s[|s| - 1]);
      assert Lower(s)[|s| - 1] == LowerChar(s[|s| - 1]);
      if IsSpace(s[|s| - 1]) {
        var t := s[..|s| - 1];
        assert Lower(s)[..|s| - 1] == Lower(t);
        assert StripRight(Lower(s)) == StripRight(Lower(t));
        LowerStripRight(t);
      } else {
        assert StripRight(Lower(s)) == Lower(s);
      }
    }
  }

  /** Lower-casing neither makes nor removes whitespace. */
  lemma LowerCharSpace(c: char)
    ensures IsSpace(LowerChar(c)) <==> IsSpace(c)
  {
  }

  function LowerChar(c: char): char
  {
    if 'A' <= c <= 'Z' then (c as int + 32) as char else c
  }

  function UpperChar(c: char): char
  {
    if 'a' <= c <= 'z' then (c as int - 32) as char else c
  }

  /** Python's `s.lower()` for ASCII letters. */
  function Lower(s: string): (r: string)
    ensures |r| == |s|
    ensures forall i :: 0 <= i < |s| ==> r[i] == LowerChar(s[i])
  {
    seq(|s|, i requires 0 <= i < |s| => LowerChar(s[i]))
  }

  /** Python's `s.upper()` for ASCII letters. */
  function Upper(s: string): (r: string)
    ensures |r| == |s|
    ensures forall i :: 0 <= i < |s| ==> r[i] == UpperChar(s[i])
  {
    seq(|s|, i requires 0 <= i < |s| => UpperChar(s[i]))
  }

  // Sequence identities stated generically, so that callers about sequences of strings need
  // not compare strings to establish them.

  lemma {:induction false} MoveHead<T>(s: seq<T>, a: seq<T>)
    requires |a| > 0
    ensures s + [a[0]] + a[1..] == s + a
  {
    assert [a[0]] + a[1..] == a;
  }

  lemma {:induction false} TakeStep<T>(s: seq<T>, j: nat)
    requires j < |s|
    ensures s[..j + 1][..j] == s[..j]
  {
  }

  lemma {:induction false} ConsTail<T>(x: T, s: seq<T>)
    ensures ([x] + s)[0] == x && ([x] + s)[1..] == s
  {
  }

  lemma {:induction false} EmptyConcat<T>(s: seq<T>)
    ensures [] + s == s && s + [] == s
  {
  }

  lemma {:induction false} TakeAll<T>(s: seq<T>)
    ensures s[..|s|] == s
  {
  }

  /** Python's `s[:n]` for `n >= 0`. */
  function Truncate<T>(s: seq<T>, n: nat): (r: seq<T>)
    ensures |r| == if |s| < n then |s| else n
    ensures r <= s
  {
    if |s| <= n then s else s[..n]
  }

  /** Python's index normalisation for a slice bound. */
  function SliceBound(len: nat, b: int): (r: nat)
    ensures r <= len
  {
    if b < 0 then (if b + len < 0 then 0 else b + len) else if b > len then len else b
  }

  /** Python's `s[a:b]` for arbitrary integer bounds. */
  function PySlice<T>(s: seq<T>, a: int, b: int): (r: seq<T>)
    ensures var lo, hi := SliceBound(|s|, a), SliceBound(|s|, b);
      r == if lo <= hi then s[lo..hi] else []
  {
    var lo, hi := SliceBound(|s|, a), SliceBound(|s|, b);
    if lo <= hi then s[lo..hi] else []
  }

  /** `s[:b]` keeps `SliceBound(|s|, b)` leading elements, all drawn from `s`. */
  lemma {:induction false} PyPrefix<T>(s: seq<T>, b: int)
    ensures |PySlice(s, 0, b)| == SliceBound(|s|, b)
    ensures multiset(PySlice(s, 0, b)) <= multiset(s)
  {
    var hi := SliceBound(|s|, b);
    assert s == s[..hi] + s[hi..];
  }

  /** Python's `sep.join(parts)`. */
  function Join(parts: seq<string>, sep: string): string
  {
    if |parts| == 0 then ""
    else if |parts| == 1 then parts[0]
    else parts[0] + sep + Join(parts[1..], sep)
  }

  /** A word of `str.split()`: non-empty, without whitespace. */
  /** Python's `s.split(c)` for a one-character separator: the pieces between the separators. */
  function Split(s: string, c: char): (parts: seq<string>)
    ensures |parts| > 0
  {
    if |s| == 0 then [""]
    else
      var rest := Split(s[1..], c);
      if s[0] == c then [""] + rest else [[s[0]] + rest[0]] + rest[1..]
  }

  /** Splitting a text that starts with a separator-free piece: that piece heads the first part. */
  lemma {:induction false} SplitPrefix(w: string, t: string, c: char)
    requires c !in w
    ensures Split(w + t, c) == [w + Split(t, c)[0]] + Split(t, c)[1..]
  {
    if |w| > 0 {
      assert (w + t)[1..] == w[1..] + t;
      assert w[0] != c;
      SplitPrefix(w[1..], t, c);
      assert [w[0]] + (w[1..] + Split(t, c)[0]) == w + Split(t, c)[0];
    } else {
      var p := Split(t, c);
      assert w + t == t && w + p[0] == p[0];
      assert [p[0]] + p[1..] == p;
    }
  }

  /** Joining separator-free pieces with `c` and splitting on `c` gives the pieces back. */
  lemma {:induction false} SplitJoin(ws: seq<string>, c: char)
    requires |ws| > 0
    requires forall i :: 0 <= i < |ws| ==> c !in ws[i]
    ensures Split(Join(ws, [c]), c) == ws
  {
    if |ws| == 1 {
      SplitPrefix(ws[0], "", c);
      assert ws[0] + "" == ws[0];
    } else {
      var rest := Join(ws[1..], [c]);
      SplitJoin(ws[1..], c);
      assert Join(ws, [c]) == ws[0] + ([c] + rest);
      SplitPrefix(ws[0], [c] + rest, c);
      assert ([c] + rest)[1..] == rest;
      assert Split([c] + rest, c) == [""] + ws[1..];
      assert ws[0] + "" == ws[0];
      assert ws == [ws[0]] + ws[1..];
    }
  }

  predicate IsWord(w: string)
  {
    |w| > 0 && forall i :: 0 <= i < |w| ==> !IsSpace(w[i])
  }

  /** Python's `s.split()` with no separator: the maximal runs of non-whitespace characters, in order. */
  function Words(s: string): (ws: seq<string>)
    ensures forall i :: 0 <= i < |ws| ==> IsWord(ws[i])
  {
    WordsFrom(s, "")
  }

  /** Splitting the rest of a string when the word `cur` has been read so far. */
  function WordsFrom(s: string, cur: string): (ws: seq<string>)
    requires cur == "" || IsWord(cur)
    ensures forall i :: 0 <= i < |ws| ==> IsWord(ws[i])
    decreases |s|
  {
    if |s| == 0 then (if cur == "" then [] else [cur])
    else if IsSpace(s[0]) then (if cur == "" then [] else [cur]) + WordsFrom(s[1..], "")
    else WordsFrom(s[1..], cur + [s[0]])
  }

  /** Reading a run of non-whitespace extends the current word. */
  lemma {:induction false} WordsFromRun(w: string, rest: string, cur: string)
    requires cur == "" || IsWord(cur)
    requires forall i :: 0 <= i < |w| ==> !IsSpace(w[i])
    ensures WordsFrom(w + rest, cur) == WordsFrom(rest, cur + w)
    decreases |w|
  {
    if |w| > 0 {
      assert (w + rest)[0] == w[0] && (w + rest)[1..] == w[1..] + rest;
      WordsFromRun(w[1..], rest, cur + [w[0]]);
      assert cur + [w[0]] + w[1..] == cur + w;
    } else {
      assert w + rest == rest && cur + w == cur;
    }
  }

  /** Splitting words joined by single spaces gives the words back. */
  lemma {:induction false} WordsOfJoin(ws: seq<string>)
    requires forall i :: 0 <= i < |ws| ==> IsWord(ws[i])
    ensures Words(Join(ws, " ")) == ws
  {
    if |ws| == 1 {
      WordsFromRun(ws[0], "", "");
      assert ws[0] + "" == ws[0] && "" + ws[0] == ws[0];
    } else if |ws| > 1 {
      var rest := Join(ws[1..], " ");
      assert Join(ws, " ") == ws[0] + (" " + rest);
      WordsFromRun(ws[0], " " + rest, "");
      assert "" + ws[0] == ws[0];
      assert (" " + rest)[0] == ' ' && (" " + rest)[1..] == rest;
      WordsOfJoin(ws[1..]);
      assert ws == [ws[0]] + ws[1..];
    }
  }

  /** Python's `any(w in text for w in words)`. */
  predicate ContainsAny(text: string, words: seq<string>)
  {
    exists w :: w in words && Contains(text, w)
  }

  /** The number of `words` that occur in `text` (Python's `sum(1 for w in words if w in text)`). */
  function CountContained(text: string, words: seq<string>): (n: nat)
    ensures n <= |words|
    ensures n == 0 <==> !ContainsAny(text, words)
  {
    if |words| == 0 then 0
    else (if Contains(text, words[0]) then 1 else 0) + CountContained(text, words[1..])
  }

  /** The first occurrence of each element, in order of first appearance. */
  function Dedup(s: seq<string>): (r: seq<string>)
    ensures forall x :: x in r <==> x in s
    ensures forall i, j :: 0 <= i < j < |r| ==> r[i] != r[j]
    ensures |r| <= |s|
  {
    DedupAfter(s, [])
  }

  function DedupAfter(s: seq<string>, seen: seq<string>): (r: seq<string>)
    requires forall i, j :: 0 <= i < j < |seen| ==> seen[i] != seen[j]
    ensures forall x :: x in r <==> x in s || x in seen
    ensures forall i, j :: 0 <= i < j < |r| ==> r[i] != r[j]
    ensures |r| <= |s| + |seen|
    ensures seen <= r
    decreases |s|
  {
    if |s| == 0 then seen
    else if s[0] in seen then DedupAfter(s[1..], seen)
    else DedupAfter(s[1..], seen + [s[0]])
  }
}
