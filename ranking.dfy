/** Ordering rows by "Criteria Met", highest first. The scripts call
    `sort_values(by='Criteria Met', ascending=False)` with its default,
    non-stable algorithm, so a ranking is specified only as a permutation in
    non-increasing order of score; equal scores may appear in any order. */
module Ranking {
  import opened Startups
  import opened Evaluator

  /** The "Criteria Met" column, top to bottom. */
  function Scores(rows: seq<Evaluated>): (r: seq<real>)
    ensures |r| == |rows|
  {
    seq(|rows|, i requires 0 <= i < |rows| => rows[i].score)
  }

  /** No row scores higher than a row above it. */
  ghost predicate NonIncreasing(rows: seq<Evaluated>)
  {
    forall i, j :: 0 <= i < j < |rows| ==> rows[i].score >= rows[j].score
  }

  /** `rows` is `of` reordered, highest score first. */
  ghost predicate Ranked(rows: seq<Evaluated>, of: seq<Evaluated>)
  {
    multiset(rows) == multiset(of) && NonIncreasing(rows)
  }

  /** Puts `x` in front of the first row that does not score more than it. */
  function InsertByScore(x: Evaluated, rows: seq<Evaluated>): (r: seq<Evaluated>)
    ensures multiset(r) == multiset(rows) + multiset{x}
  {
    if rows == [] || x.score >= rows[0].score then
      [x] + rows
    else
      assert rows == [rows[0]] + rows[1..];
      [rows[0]] + InsertByScore(x, rows[1..])
  }

  /** Inserting into a ranked sequence leaves it ranked. */
  lemma {:induction false} InsertKeepsOrder(x: Evaluated, rows: seq<Evaluated>)
    requires NonIncreasing(rows)
    ensures NonIncreasing(InsertByScore(x, rows))
  {
    var r := InsertByScore(x, rows);
    if rows == [] || x.score >= rows[0].score {
      forall p, q | 0 <= p < q < |r| ensures r[p].score >= r[q].score {
        assert r[q] == rows[q - 1];
        if p > 0 {
          assert r[p] == rows[p - 1];
        }
      }
    } else {
      var tail := rows[1..];
      InsertKeepsOrder(x, tail);
      InsertBelow(x, tail, rows[0].score);
      var t := InsertByScore(x, tail);
      forall p, q | 0 <= p < q < |r| ensures r[p].score >= r[q].score {
        assert r[q] == t[q - 1];
        if p > 0 {
          assert r[p] == t[p - 1];
        }
      }
    }
  }

  /** Inserting a row that scores at most `top` among rows that score at most
      `top` gives rows that score at most `top`. */
  lemma {:induction false} InsertBelow(x: Evaluated, rows: seq<Evaluated>, top: real)
    requires x.score <= top
    requires forall i :: 0 <= i < |rows| ==> rows[i].score <= top
    ensures forall i :: 0 <= i < |InsertByScore(x, rows)| ==> InsertByScore(x, rows)[i].score <= top
  {
    if rows != [] && x.score < rows[0].score {
      InsertBelow(x, rows[1..], top);
    }
  }

  /** One way of ranking: insertion sort on the score. */
  function SortByScore(rows: seq<Evaluated>): (r: seq<Evaluated>)
    ensures Ranked(r, rows)
  {
    if rows == [] then []
    else
      assert rows == [rows[0]] + rows[1..];
      var sorted := SortByScore(rows[1..]);
      InsertKeepsOrder(rows[0], sorted);
      InsertByScore(rows[0], sorted)
  }

  /** Rankings are unique up to ties: two rankings of the same rows show the
      same score at every position. In particular ranking an unchanged table
      again shows the same "Criteria Met" column. */
  lemma {:induction false} RankingScoresUnique(a: seq<Evaluated>, b: seq<Evaluated>)
    requires NonIncreasing(a) && NonIncreasing(b)
    requires multiset(a) == multiset(b)
    ensures Scores(a) == Scores(b)
  {
    if a == [] {
      assert |b| == |multiset(b)| == 0;
    } else {
      var x := a[0];
      assert x in multiset(b);
      var k :| 0 <= k < |b| && b[k] == x;
      assert b[0] in multiset(a);
      var j :| 0 <= j < |a| && a[j] == b[0];
      assert j == 0 || a[0].score >= a[j].score;
      var a', b' := Without(a, 0), Without(b, k);
      assert a' == a[1..];
      assert multiset(b') == multiset(a');
      DeleteKeepsOrder(b, k);
      DeleteKeepsOrder(a, 0);
      RankingScoresUnique(a', b');
      MoveToFront(b, k);
      MoveToFront(a, 0);
    }
  }

  /** `rows` with the row at position `k` taken out. */
  function Without<T>(rows: seq<T>, k: nat): (r: seq<T>)
    requires k < |rows|
    ensures |r| == |rows| - 1
    ensures multiset(r) == multiset(rows) - multiset{rows[k]}
  {
    assert rows == rows[..k] + [rows[k]] + rows[k + 1..];
    rows[..k] + rows[k + 1..]
  }

  lemma DeleteKeepsOrder(rows: seq<Evaluated>, k: nat)
    requires k < |rows| && NonIncreasing(rows)
    ensures NonIncreasing(Without(rows, k))
  {
    var r := Without(rows, k);
    forall p, q | 0 <= p < q < |r| ensures r[p].score >= r[q].score {
      var p' := if p < k then p else p + 1;
      var q' := if q < k then q else q + 1;
      assert r[p] == rows[p'] && r[q] == rows[q'];
    }
  }

  /** When the row at `k` scores as much as the first row, moving it to the
      front leaves the score column unchanged. */
  lemma MoveToFront(rows: seq<Evaluated>, k: nat)
    requires k < |rows| && NonIncreasing(rows)
    requires rows[k].score >= rows[0].score
    ensures Scores(rows) == [rows[k].score] + Scores(Without(rows, k))
  {
    var r := Without(rows, k);
    forall i | 0 <= i < |rows| ensures Scores(rows)[i] == ([rows[k].score] + Scores(r))[i] {
      if 0 < i <= k {
        assert r[i - 1] == rows[i - 1];
        assert rows[0].score >= rows[i - 1].score >= rows[k].score;
        assert rows[0].score >= rows[i].score >= rows[k].score;
      } else if k < i {
        assert r[i - 1] == rows[i];
      }
    }
  }

  /** A ranking of the evaluations of `bases` consists of rows evaluated
      under the same criteria and weights, and holds the records of `bases`. */
  lemma RankedIsEvaluated(r: seq<Evaluated>, bases: seq<Startup>, c: Criteria, w: Weights)
    requires Ranked(r, Evaluations(bases, c, w))
    ensures forall i :: 0 <= i < |r| ==> r[i] == Evaluation(r[i].base, c, w)
    ensures multiset(Bases(r)) == multiset(bases)
    ensures |r| == |bases|
  {
    var ev := Evaluations(bases, c, w);
    forall i | 0 <= i < |r| ensures r[i] == Evaluation(r[i].base, c, w) {
      assert r[i] in multiset(ev);
    }
    BasesOfPermutation(r, ev);
    EvaluationsKeepBases(bases, c, w);
    assert |r| == |multiset(r)| == |multiset(ev)| == |bases|;
  }

  /** Reordering rows reorders their records the same way. */
  lemma BasesOfPermutation(a: seq<Evaluated>, b: seq<Evaluated>)
    requires multiset(a) == multiset(b)
    ensures multiset(Bases(a)) == multiset(Bases(b))
  {
    var f := (e: Evaluated) => e.base;
    assert Bases(a) == Apply(f, a);
    assert Bases(b) == Apply(f, b);
    ApplyOfPermutation(f, a, b);
  }

  /** `f` applied to every element. */
  function Apply<A, B>(f: A -> B, xs: seq<A>): (r: seq<B>)
    ensures |r| == |xs|
  {
    seq(|xs|, i requires 0 <= i < |xs| => f(xs[i]))
  }

  lemma ApplyAppend<A, B>(f: A -> B, xs: seq<A>, ys: seq<A>)
    ensures Apply(f, xs + ys) == Apply(f, xs) + Apply(f, ys)
  {
    var l, r := Apply(f, xs + ys), Apply(f, xs) + Apply(f, ys);
    forall i | 0 <= i < |l| ensures l[i] == r[i] {
      if i < |xs| {
        assert (xs + ys)[i] == xs[i];
      } else {
        assert (xs + ys)[i] == ys[i - |xs|];
      }
    }
  }

  /** Applying `f` to a reordering gives a reordering of the results. */
  lemma {:induction false} ApplyOfPermutation<A, B>(f: A -> B, xs: seq<A>, ys: seq<A>)
    requires multiset(xs) == multiset(ys)
    ensures multiset(Apply(f, xs)) == multiset(Apply(f, ys))
    decreases |xs|
  {
    if xs == [] {
      assert |ys| == |multiset(ys)| == 0;
    } else {
      var x := xs[0];
      assert x in multiset(ys);
      var k :| 0 <= k < |ys| && ys[k] == x;
      var xs', ys' := Without(xs, 0), Without(ys, k);
      assert xs' == xs[1..];
      ApplyOfPermutation(f, xs', ys');
      ApplyWithout(f, xs, 0);
      ApplyWithout(f, ys, k);
    }
  }

  /** Taking an element out of `xs` takes its image out of `Apply(f, xs)`. */
  lemma ApplyWithout<A, B>(f: A -> B, xs: seq<A>, k: nat)
    requires k < |xs|
    ensures multiset(Apply(f, xs)) == multiset(Apply(f, Without(xs, k))) + multiset{f(xs[k])}
  {
    var l, m, r := xs[..k], [xs[k]], xs[k + 1..];
    assert xs == l + m + r;
    assert Without(xs, k) == l + r;
    ApplyAppend(f, l, r);
    ApplyAppend(f, l, m);
    ApplyAppend(f, l + m, r);
    assert Apply(f, m) == [f(xs[k])];
  }

  /** Evaluating a reordered table gives the reordered evaluations. */
  lemma EvaluationsOfPermutation(a: seq<Startup>, b: seq<Startup>, c: Criteria, w: Weights)
    requires multiset(a) == multiset(b)
    ensures multiset(Evaluations(a, c, w)) == multiset(Evaluations(b, c, w))
  {
    var f := (s: Startup) => Evaluation(s, c, w);
    assert Evaluations(a, c, w) == Apply(f, a);
    assert Evaluations(b, c, w) == Apply(f, b);
    ApplyOfPermutation(f, a, b);
  }

  /** `evaluate_and_update` followed by `sort_values`. */
  method EvaluateAndSort(rows: seq<Startup>, c: Criteria, w: Weights) returns (ranked: seq<Evaluated>)
    ensures Ranked(ranked, Evaluations(rows, c, w))
    ensures forall i :: 0 <= i < |ranked| ==> ranked[i] == Evaluation(ranked[i].base, c, w)
    ensures multiset(Bases(ranked)) == multiset(rows)
    ensures |ranked| == |rows|
  {
    var evaluated := EvaluateAndUpdate(rows, c, w);
    assert evaluated == Evaluations(rows, c, w);
    ranked := SortByScore(evaluated);
    RankedIsEvaluated(ranked, rows, c, w);
  }
}
