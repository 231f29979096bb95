/** GROUP BY with SUM and COUNT(*), as a reference model over row lists:
    a grouping is a list of distinct keys, and each rollup column is the
    per-key sum of a (key, weight) list. The properties here are what
    make a rollup neither lose nor double-count a row. */
module Grouping {

  predicate NoDups<K(==)>(s: seq<K>) {
    forall i, j :: 0 <= i < j < |s| ==> s[i] != s[j]
  }

  /** The keys of `s`, each once, in order of first occurrence. */
  function Distinct<K(==)>(s: seq<K>): (r: seq<K>)
    ensures NoDups(r)
    ensures forall i :: 0 <= i < |s| ==> s[i] in r
    ensures forall i :: 0 <= i < |r| ==> r[i] in s
    ensures |r| <= |s|
  {
    if s == [] then []
    else
      var t := s[..|s| - 1];
      var p := Distinct(t);
      var x := s[|s| - 1];
      assert forall i :: 0 <= i < |s| - 1 ==> s[i] == t[i];
      if x in p then p else p + [x]
  }

  function Sum(xs: seq<int>): int {
    if xs == [] then 0 else xs[0] + Sum(xs[1..])
  }

  function Weights<K>(ps: seq<(K, int)>): (ws: seq<int>)
    ensures |ws| == |ps|
  {
    seq(|ps|, i requires 0 <= i < |ps| => ps[i].1)
  }

  /** Total weight of the entries whose key is `k`: a SUM over one group. */
  function SumFor<K(==)>(ps: seq<(K, int)>, k: K): int {
    if ps == [] then 0
    else (if ps[0].0 == k then ps[0].1 else 0) + SumFor(ps[1..], k)
  }

  /** Each key of `ks` with its group's total, in the order of `ks`. */
  function PerKey<K(==)>(ks: seq<K>, ps: seq<(K, int)>): (r: seq<int>)
    ensures |r| == |ks|
  {
    seq(|ks|, i requires 0 <= i < |ks| => SumFor(ps, ks[i]))
  }

  /** Each key paired with weight 1, for COUNT(*). */
  function Ones<K>(ks: seq<K>): (ps: seq<(K, int)>)
    ensures |ps| == |ks|
  {
    seq(|ks|, i requires 0 <= i < |ks| => (ks[i], 1))
  }

  /** COUNT(*) of a group is the number of rows with that key. */
  lemma {:induction false} OnesCount<K>(ks: seq<K>, k: K)
    ensures SumFor(Ones(ks), k) == multiset(ks)[k]
  {
    if ks != [] {
      assert Ones(ks)[1..] == Ones(ks[1..]);
      assert ks == [ks[0]] + ks[1..];
      assert multiset(ks) == multiset{ks[0]} + multiset(ks[1..]);
      OnesCount(ks[1..], k);
    }
  }

  lemma {:induction false} OnesWeigh<K>(ks: seq<K>)
    ensures Sum(Weights(Ones(ks))) == |ks|
  {
    if ks != [] {
      assert Weights(Ones(ks))[1..] == Weights(Ones(ks[1..]));
      OnesWeigh(ks[1..]);
    }
  }

  /** Peeling the first entry off the input adds its weight to exactly the
      one group it belongs to, when the keys are distinct. */
  lemma {:induction false} PerKeyCons<K>(ks: seq<K>, ps: seq<(K, int)>)
    requires NoDups(ks) && ps != []
    ensures Sum(PerKey(ks, ps)) == (if ps[0].0 in ks then ps[0].1 else 0) + Sum(PerKey(ks, ps[1..]))
  {
    if ks != [] {
      assert PerKey(ks, ps)[1..] == PerKey(ks[1..], ps);
      assert PerKey(ks, ps[1..])[1..] == PerKey(ks[1..], ps[1..]);
      assert NoDups(ks[1..]) by {
        forall i, j | 0 <= i < j < |ks[1..]| ensures ks[1..][i] != ks[1..][j] {
          assert ks[1..][i] == ks[i + 1] && ks[1..][j] == ks[j + 1];
        }
      }
      PerKeyCons(ks[1..], ps);
      assert ps[0].0 == ks[0] ==> ps[0].0 !in ks[1..];
      assert ps[0].0 in ks <==> ps[0].0 == ks[0] || ps[0].0 in ks[1..];
    }
  }

  /** Conservation: when the keys are distinct and every entry's key is
      among them, the group totals add up to the total of the input. No
      entry is lost and none counted twice. */
  lemma {:induction false} Conservation<K>(ks: seq<K>, ps: seq<(K, int)>)
    requires NoDups(ks)
    requires forall i :: 0 <= i < |ps| ==> ps[i].0 in ks
    ensures Sum(PerKey(ks, ps)) == Sum(Weights(ps))
  {
    if ps == [] {
      assert forall i :: 0 <= i < |ks| ==> PerKey(ks, ps)[i] == 0;
      ZeroSum(PerKey(ks, ps));
    } else {
      PerKeyCons(ks, ps);
      assert Weights(ps)[1..] == Weights(ps[1..]);
      Conservation(ks, ps[1..]);
    }
  }

  lemma {:induction false} ZeroSum(xs: seq<int>)
    requires forall i :: 0 <= i < |xs| ==> xs[i] == 0
    ensures Sum(xs) == 0
  {
    if xs != [] {
      ZeroSum(xs[1..]);
    }
  }

  /** A list without repetitions has as many elements as its set. */
  lemma {:induction false} NoDupsCard<K>(s: seq<K>)
    requires NoDups(s)
    ensures |set x | x in s| == |s|
  {
    if s != [] {
      var t := s[..|s| - 1];
      var x := s[|s| - 1];
      assert NoDups(t);
      NoDupsCard(t);
      assert s == t + [x];
      assert (set y | y in s) == (set y | y in t) + {x};
      assert x !in t;
    }
  }
}
