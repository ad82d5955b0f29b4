/** The pairwise force pass of the N-body update: the order in which the nested
    loops visit the unordered pairs (i, j), i < j, and the force vector each body
    accumulates. */
module Pairs {
  import opened Bodies

  type Pair = (nat, nat)

  /** The inner loop's visits of row `i` before column `j`: (i, i+1) ... (i, j-1). */
  function Row(i: nat, j: nat): seq<Pair>
    decreases j
  {
    if j <= i + 1 then [] else Row(i, j - 1) + [(i, j - 1)]
  }

  /** The visits of the rows before `i`, for `n` bodies, in loop order. */
  function PairsBelow(i: nat, n: nat): seq<Pair>
  {
    if i == 0 then [] else PairsBelow(i - 1, n) + Row(i - 1, n)
  }

  /** Every visit of the nested loops over `n` bodies, in order. */
  function AllPairs(n: nat): seq<Pair>
  {
    PairsBelow(n, n)
  }

  /** No element occurs twice. */
  predicate Distinct<T(==)>(s: seq<T>)
  {
    forall a, b :: 0 <= a < b < |s| ==> s[a] != s[b]
  }

  lemma DistinctConcat<T>(s: seq<T>, t: seq<T>)
    requires Distinct(s) && Distinct(t)
    requires forall x :: x in s ==> x !in t
    ensures Distinct(s + t)
  {
    forall a, b | 0 <= a < b < |s + t|
      ensures (s + t)[a] != (s + t)[b]
    {
      if a < |s| && b >= |s| {
        assert (s + t)[a] in s;
        assert (s + t)[b] == t[b - |s|];
      }
    }
  }

  /** Row `i` up to `j` holds exactly the pairs (i, k) with i < k < j. */
  lemma {:induction false} RowMembers(i: nat, j: nat)
    ensures forall p :: p in Row(i, j) <==> p.0 == i && i < p.1 < j
    decreases j
  {
    if j > i + 1 {
      RowMembers(i, j - 1);
      assert Row(i, j) == Row(i, j - 1) + [(i, j - 1)];
    }
  }

  /** Row `i` up to `j` holds those pairs once each. */
  lemma {:induction false} RowDistinct(i: nat, j: nat)
    ensures Distinct(Row(i, j))
    decreases j
  {
    if j > i + 1 {
      RowDistinct(i, j - 1);
      RowMembers(i, j - 1);
      DistinctConcat(Row(i, j - 1), [(i, j - 1)]);
    }
  }

  /** The rows before `i` hold exactly the pairs (a, b) with a < i and a < b < n. */
  lemma {:induction false} PairsBelowMembers(i: nat, n: nat)
    ensures forall p :: p in PairsBelow(i, n) <==> p.0 < i && p.0 < p.1 < n
  {
    if i > 0 {
      PairsBelowMembers(i - 1, n);
      RowMembers(i - 1, n);
      forall p
        ensures p in PairsBelow(i, n) <==> p in PairsBelow(i - 1, n) || p in Row(i - 1, n)
      {
      }
    }
  }

  /** Row `i` shares no pair with the rows before it. */
  lemma RowAfterRows(i: nat, n: nat)
    ensures forall x :: x in PairsBelow(i, n) ==> x !in Row(i, n)
  {
    PairsBelowMembers(i, n);
    RowMembers(i, n);
  }

  /** The rows before `i` repeat no pair. */
  lemma {:induction false} PairsBelowDistinct(i: nat, n: nat)
    ensures Distinct(PairsBelow(i, n))
  {
    if i > 0 {
      PairsBelowDistinct(i - 1, n);
      RowDistinct(i - 1, n);
      RowAfterRows(i - 1, n);
      DistinctConcat(PairsBelow(i - 1, n), Row(i - 1, n));
    }
  }

  /** The rows before `i` hold i(2n - i - 1)/2 pairs. */
  lemma {:induction false} PairsBelowLength(i: nat, n: nat)
    requires i <= n
    ensures 2 * |PairsBelow(i, n)| == i * (2 * n - i - 1)
  {
    if i > 0 {
      PairsBelowLength(i - 1, n);
      RowLength(i - 1, n);
      RowCountStep(i, n, |PairsBelow(i - 1, n)|);
    }
  }

  lemma {:induction false} RowLength(i: nat, j: nat)
    ensures |Row(i, j)| == if j <= i + 1 then 0 else j - i - 1
    decreases j
  {
    if j > i + 1 {
      RowLength(i, j - 1);
    }
  }

  /** Adding row i - 1, of n - i pairs, to i - 1 full rows. */
  lemma RowCountStep(i: int, n: int, m: int)
    requires 2 * m == (i - 1) * (2 * n - i)
    ensures 2 * (m + (n - i)) == i * (2 * n - i - 1)
  {
    assert (i - 1) * (2 * n - i) == i * (2 * n - i) - (2 * n - i);
    assert i * (2 * n - i) == i * (2 * n - i - 1) + i;
  }

  /** The force pass visits every unordered pair of distinct bodies exactly once:
      the visits are exactly the pairs (i, j) with i < j < n, none repeated, and
      there are n(n-1)/2 of them. */
  lemma AllPairsExactlyOnce(n: nat)
    ensures forall p :: p in AllPairs(n) <==> p.0 < p.1 < n
    ensures Distinct(AllPairs(n))
    ensures |AllPairs(n)| == n * (n - 1) / 2
  {
    PairsBelowMembers(n, n);
    PairsBelowDistinct(n, n);
    PairsBelowLength(n, n);
  }

  /** The pull of gravity that body `a` exerts on body `b`, given the gravitational
      constant: the unit vector from b to a scaled by G m_a m_b / r^2. Its
      floating-point computation (a square root, divisions) is not modelled; the
      update receives it as a parameter. */
  type PairForce = (real, Body, Body) -> Vec

  function Zeros(n: nat): (r: seq<Vec>)
    ensures |r| == n && forall k :: 0 <= k < n ==> r[k] == Zero
  {
    seq(n, _ => Zero)
  }

  /** One visit of the force pass: body i is pushed by -f and then body j by +f. */
  function AddPair(forces: seq<Vec>, i: nat, j: nat, f: Vec): (r: seq<Vec>)
    requires i < |forces| && j < |forces|
  {
    var pushed := forces[i := forces[i].Minus(f)];
    pushed[j := pushed[j].Plus(f)]
  }

  /** The force vectors after the visits `pairs`, starting from zero. A visit of a
      pair outside the bodies changes nothing. */
  function Accumulate(es: seq<Body>, g: real, pull: PairForce, pairs: seq<Pair>): (r: seq<Vec>)
    ensures |r| == |es|
  {
    if pairs == [] then Zeros(|es|)
    else
      var prior := Accumulate(es, g, pull, pairs[..|pairs| - 1]);
      var (i, j) := pairs[|pairs| - 1];
      if i < |es| && j < |es| then AddPair(prior, i, j, pull(g, es[i], es[j])) else prior
  }

  lemma AccumulateSnoc(es: seq<Body>, g: real, pull: PairForce, pairs: seq<Pair>, p: Pair)
    requires p.0 < |es| && p.1 < |es|
    ensures Accumulate(es, g, pull, pairs + [p])
         == AddPair(Accumulate(es, g, pull, pairs), p.0, p.1, pull(g, es[p.0], es[p.1]))
  {
    assert (pairs + [p])[..|pairs|] == pairs;
  }

  /** The forces after visiting the pairs of row `i` below `j`, starting from `prior`. */
  function RowAccumulate(es: seq<Body>, g: real, pull: PairForce, prior: seq<Vec>, i: nat, j: nat): (r: seq<Vec>)
    requires |prior| == |es| && j <= |es|
    ensures |r| == |es|
    decreases j
  {
    if j <= i + 1 then prior
    else AddPair(RowAccumulate(es, g, pull, prior, i, j - 1), i, j - 1, pull(g, es[i], es[j - 1]))
  }

  /** Row `i` visited after any earlier visits, pair by pair. */
  lemma {:induction false} RowAccumulateVisits(es: seq<Body>, g: real, pull: PairForce, visited: seq<Pair>, i: nat, j: nat)
    requires j <= |es|
    ensures Accumulate(es, g, pull, visited + Row(i, j))
         == RowAccumulate(es, g, pull, Accumulate(es, g, pull, visited), i, j)
    decreases j
  {
    if j <= i + 1 {
      assert visited + Row(i, j) == visited;
    } else {
      var before := visited + Row(i, j - 1);
      RowAccumulateVisits(es, g, pull, visited, i, j - 1);
      assert visited + Row(i, j) == before + [(i, j - 1)];
      AccumulateSnoc(es, g, pull, before, (i, j - 1));
    }
  }

  /** The net force on each body after the full pairwise pass. */
  function Forces(es: seq<Body>, g: real, pull: PairForce): seq<Vec>
  {
    Accumulate(es, g, pull, AllPairs(|es|))
  }

  /** The componentwise sum of a sequence of vectors. */
  function Total(vs: seq<Vec>): Vec
  {
    if vs == [] then Zero else Total(vs[..|vs| - 1]).Plus(vs[|vs| - 1])
  }

  lemma {:induction false} TotalUpdate(vs: seq<Vec>, k: nat, v: Vec)
    requires k < |vs|
    ensures Total(vs[k := v]) == Total(vs).Minus(vs[k]).Plus(v)
  {
    var ws := vs[k := v];
    if k < |vs| - 1 {
      assert ws[..|ws| - 1] == vs[..|vs| - 1][k := v];
      TotalUpdate(vs[..|vs| - 1], k, v);
    } else {
      assert ws[..|ws| - 1] == vs[..|vs| - 1];
    }
  }

  lemma {:induction false} TotalZeros(n: nat)
    ensures Total(Zeros(n)) == Zero
  {
    if n > 0 {
      assert Zeros(n)[..n - 1] == Zeros(n - 1);
      TotalZeros(n - 1);
    }
  }

  /** One visit takes f from one body and gives it to another: the total stays. */
  lemma AddPairBalanced(forces: seq<Vec>, i: nat, j: nat, f: Vec)
    requires i < |forces| && j < |forces|
    ensures Total(AddPair(forces, i, j, f)) == Total(forces)
  {
    var pushed := forces[i := forces[i].Minus(f)];
    TotalUpdate(forces, i, forces[i].Minus(f));
    TotalUpdate(pushed, j, pushed[j].Plus(f));
  }

  /** Newton's third law for the pass: whatever pull each pair exerts, the
      contributions cancel in pairs, so the forces on all bodies sum to zero. */
  lemma {:induction false} AccumulateBalanced(es: seq<Body>, g: real, pull: PairForce, pairs: seq<Pair>)
    ensures Total(Accumulate(es, g, pull, pairs)) == Zero
  {
    if pairs == [] {
      TotalZeros(|es|);
    } else {
      var prior := Accumulate(es, g, pull, pairs[..|pairs| - 1]);
      AccumulateBalanced(es, g, pull, pairs[..|pairs| - 1]);
      var (i, j) := pairs[|pairs| - 1];
      if i < |es| && j < |es| {
        AddPairBalanced(prior, i, j, pull(g, es[i], es[j]));
      }
    }
  }

  /** The net forces of the full pass sum to zero. */
  lemma ForcesBalanced(es: seq<Body>, g: real, pull: PairForce)
    ensures |Forces(es, g, pull)| == |es|
    ensures Total(Forces(es, g, pull)) == Zero
  {
    AccumulateBalanced(es, g, pull, AllPairs(|es|));
  }
}
