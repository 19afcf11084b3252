/**
 * A counting dictionary `{name: count}` in insertion order, updated the way the program does it:
 * `d[k] = d.get(k, 0) + c`.
 */
module Tallies {

  type Tally = seq<(string, nat)>

  /** `d.get(k, 0)`. */
  function CountOf(t: Tally, k: string): nat
  {
    if |t| == 0 then 0 else if t[0].0 == k then t[0].1 else CountOf(t[1..], k)
  }

  /** `sum(d.values())`. */
  function TallyTotal(t: Tally): nat
  {
    if |t| == 0 then 0 else t[0].1 + TallyTotal(t[1..])
  }

  /** `d[k] = d.get(k, 0) + c`: in place when `k` is present, appended otherwise. */
  function AddTo(t: Tally, k: string, c: nat): (r: Tally)
    ensures |t| <= |r| <= |t| + 1
    ensures forall i :: 0 <= i < |t| ==> r[i].0 == t[i].0
  {
    if |t| == 0 then [(k, c)]
    else if t[0].0 == k then [(k, t[0].1 + c)] + t[1..]
    else [t[0]] + AddTo(t[1..], k, c)
  }

  /** Adding `c` under `k` raises exactly `k`'s count by `c`, and the total by `c`. */
  lemma {:induction false} AddToCounts(t: Tally, k: string, c: nat, m: string)
    ensures CountOf(AddTo(t, k, c), m) == CountOf(t, m) + (if m == k then c else 0)
    ensures TallyTotal(AddTo(t, k, c)) == TallyTotal(t) + c
  {
    if |t| > 0 && t[0].0 != k {
      AddToCounts(t[1..], k, c, m);
      assert AddTo(t, k, c)[1..] == AddTo(t[1..], k, c);
    }
  }

  /** The keys of a dictionary kept as `(key, value)` pairs, in order: `list(d.keys())`. */
  function Names<V>(t: seq<(string, V)>): (ns: seq<string>)
    ensures |ns| == |t| && forall i :: 0 <= i < |t| ==> ns[i] == t[i].0
  {
    if |t| == 0 then [] else [t[0].0] + Names(t[1..])
  }

  predicate DistinctNames(t: Tally)
  {
    forall i, j :: 0 <= i < j < |t| ==> t[i].0 != t[j].0
  }

  /** A name is listed after the addition exactly when it is the added one or was listed before; names stay distinct. */
  lemma {:induction false} AddToNames(t: Tally, k: string, c: nat, m: string)
    ensures m in Names(AddTo(t, k, c)) <==> m == k || m in Names(t)
    ensures DistinctNames(t) ==> DistinctNames(AddTo(t, k, c))
  {
    if |t| > 0 {
      var r := AddTo(t, k, c);
      assert Names(t) == [t[0].0] + Names(t[1..]);
      if t[0].0 != k {
        AddToNames(t[1..], k, c, m);
        AddToNames(t[1..], k, c, t[0].0);
        assert Names(r) == [t[0].0] + Names(AddTo(t[1..], k, c));
        if DistinctNames(t) {
          assert t[0].0 !in Names(t[1..]);
          forall i, j | 0 <= i < j < |r|
            ensures r[i].0 != r[j].0
          {
            if i == 0 {
              assert r[j].0 == Names(AddTo(t[1..], k, c))[j - 1];
            } else {
              assert r[i] == AddTo(t[1..], k, c)[i - 1] && r[j] == AddTo(t[1..], k, c)[j - 1];
            }
          }
        }
      } else {
        assert Names(r) == [k] + Names(t[1..]);
      }
    }
  }
}
