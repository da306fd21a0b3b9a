/** The criteria predicates and the weighted evaluation of one row and of a
    whole table. */
module Evaluator {
  import opened Startups

  /** Industry is met when the industry is one of the selected ones, compared
      as exact strings. */
  function MeetsIndustryCriteria(industry: string, c: Criteria): (met: bool)
    ensures met <==> exists i :: 0 <= i < |c.industries| && c.industries[i] == industry
  {
    industry in c.industries
  }

  function MeetsStageCriteria(stage: string, c: Criteria): (met: bool)
    ensures met <==> exists i :: 0 <= i < |c.stages| && c.stages[i] == stage
  {
    stage in c.stages
  }

  function MeetsLocationCriteria(location: string, c: Criteria): (met: bool)
    ensures met <==> exists i :: 0 <= i < |c.locations| && c.locations[i] == location
  {
    location in c.locations
  }

  /** The `try: int(v) ... except ValueError: return False` range test shared by
      ARR and employee count. */
  function InRange(v: Num, lo: int, hi: int): bool
  {
    match v
    case IntVal(n) => lo <= n <= hi
    case NotInt => false
  }

  /** ARR is met exactly when it is an integer within [minArr, maxArr], both
      ends included; a value `int()` rejects with `ValueError` is not met. */
  function MeetsArrCriteria(arr: Num, c: Criteria): (met: bool)
    ensures met <==> arr.IntVal? && c.minArr <= arr.n <= c.maxArr
  {
    InRange(arr, c.minArr, c.maxArr)
  }

  function MeetsEmployeesCriteria(employees: Num, c: Criteria): (met: bool)
    ensures met <==> employees.IntVal? && c.minEmployees <= employees.n <= c.maxEmployees
  {
    InRange(employees, c.minEmployees, c.maxEmployees)
  }

  /** Whether record `s` meets criterion `k`. */
  function Meets(s: Startup, c: Criteria, k: Criterion): bool
  {
    match k
    case Industry => MeetsIndustryCriteria(s.industry, c)
    case Stage => MeetsStageCriteria(s.stage, c)
    case Arr => MeetsArrCriteria(s.arr, c)
    case Employees => MeetsEmployeesCriteria(s.employees, c)
    case Location => MeetsLocationCriteria(s.location, c)
  }

  /** The criteria of `ks` that `s` meets, in the order of `ks`. */
  function Matching(s: Startup, c: Criteria, ks: seq<Criterion>): seq<Criterion>
  {
    if ks == [] then []
    else (if Meets(s, c, ks[0]) then [ks[0]] else []) + Matching(s, c, ks[1..])
  }

  /** The criteria a score is summed over are exactly the met ones. */
  lemma {:induction false} MatchingIsExactlyMet(s: Startup, c: Criteria, ks: seq<Criterion>)
    ensures forall k :: k in Matching(s, c, ks) <==> k in ks && Meets(s, c, k)
  {
    if ks != [] {
      MatchingIsExactlyMet(s, c, ks[1..]);
      assert ks == [ks[0]] + ks[1..];
    }
  }

  /** The sum of the weights of the criteria in `ks`. */
  function TotalWeight(w: Weights, ks: seq<Criterion>): real
  {
    if ks == [] then 0.0 else Weight(w, ks[0]) + TotalWeight(w, ks[1..])
  }

  /** The evaluation of one row: the five flags, and as score the sum of the
      weights of exactly the criteria the row meets. */
  function Evaluation(s: Startup, c: Criteria, w: Weights): Evaluated
  {
    Evaluated(s,
      Meets(s, c, Industry), Meets(s, c, Stage), Meets(s, c, Arr),
      Meets(s, c, Employees), Meets(s, c, Location),
      TotalWeight(w, Matching(s, c, AllCriteria)))
  }

  /** The weights dictionary as the sliders produce it: no negative weight. */
  predicate NonNegative(w: Weights)
  {
    w.industry >= 0.0 && w.stage >= 0.0 && w.arr >= 0.0 && w.employees >= 0.0 && w.location >= 0.0
  }

  /** Score, criterion by criterion: a met criterion adds its weight, an unmet
      one adds exactly zero. */
  lemma {:induction false} ScoreByCriterion(s: Startup, c: Criteria, w: Weights)
    ensures Evaluation(s, c, w).score ==
      (if Meets(s, c, Industry) then w.industry else 0.0) +
      (if Meets(s, c, Stage) then w.stage else 0.0) +
      (if Meets(s, c, Arr) then w.arr else 0.0) +
      (if Meets(s, c, Employees) then w.employees else 0.0) +
      (if Meets(s, c, Location) then w.location else 0.0)
  {
    var ks := AllCriteria;
    MatchingWeight(s, c, w, ks);
    assert GuardedWeight(s, c, w, ks[4..]) == (if Meets(s, c, Location) then w.location else 0.0);
    assert GuardedWeight(s, c, w, ks[3..]) == (if Meets(s, c, Employees) then w.employees else 0.0) + GuardedWeight(s, c, w, ks[4..]);
    assert GuardedWeight(s, c, w, ks[2..]) == (if Meets(s, c, Arr) then w.arr else 0.0) + GuardedWeight(s, c, w, ks[3..]);
    assert GuardedWeight(s, c, w, ks[1..]) == (if Meets(s, c, Stage) then w.stage else 0.0) + GuardedWeight(s, c, w, ks[2..]);
  }

  /** Sum over `ks` of "weight if met, else 0". */
  function GuardedWeight(s: Startup, c: Criteria, w: Weights, ks: seq<Criterion>): real
  {
    if ks == [] then 0.0
    else (if Meets(s, c, ks[0]) then Weight(w, ks[0]) else 0.0) + GuardedWeight(s, c, w, ks[1..])
  }

  lemma {:induction false} MatchingWeight(s: Startup, c: Criteria, w: Weights, ks: seq<Criterion>)
    ensures TotalWeight(w, Matching(s, c, ks)) == GuardedWeight(s, c, w, ks)
  {
    if ks != [] {
      MatchingWeight(s, c, w, ks[1..]);
      TotalWeightAppend(w, if Meets(s, c, ks[0]) then [ks[0]] else [], Matching(s, c, ks[1..]));
    }
  }

  lemma {:induction false} TotalWeightAppend(w: Weights, a: seq<Criterion>, b: seq<Criterion>)
    ensures TotalWeight(w, a + b) == TotalWeight(w, a) + TotalWeight(w, b)
  {
    if a == [] {
      assert a + b == b;
    } else {
      assert (a + b)[0] == a[0] && (a + b)[1..] == a[1..] + b;
      TotalWeightAppend(w, a[1..], b);
    }
  }

  /** With non-negative weights the score lies between 0 and the sum of all
      five weights. */
  lemma {:induction false} ScoreBounds(s: Startup, c: Criteria, w: Weights)
    requires NonNegative(w)
    ensures 0.0 <= Evaluation(s, c, w).score <= TotalWeight(w, AllCriteria)
    ensures TotalWeight(w, AllCriteria) == w.industry + w.stage + w.arr + w.employees + w.location
  {
    var ks := AllCriteria;
    MatchingWeight(s, c, w, ks);
    GuardedWeightBounds(s, c, w, ks);
    assert TotalWeight(w, ks[4..]) == w.location;
    assert TotalWeight(w, ks[3..]) == w.employees + TotalWeight(w, ks[4..]);
    assert TotalWeight(w, ks[2..]) == w.arr + TotalWeight(w, ks[3..]);
    assert TotalWeight(w, ks[1..]) == w.stage + TotalWeight(w, ks[2..]);
  }

  lemma {:induction false} GuardedWeightBounds(s: Startup, c: Criteria, w: Weights, ks: seq<Criterion>)
    requires NonNegative(w)
    ensures 0.0 <= GuardedWeight(s, c, w, ks) <= TotalWeight(w, ks)
  {
    if ks != [] {
      GuardedWeightBounds(s, c, w, ks[1..]);
    }
  }

  /** If every weight is at most `cap`, no score exceeds five times `cap`. */
  lemma ScoreAtMostFiveCaps(s: Startup, c: Criteria, w: Weights, cap: real)
    requires NonNegative(w)
    requires w.industry <= cap && w.stage <= cap && w.arr <= cap && w.employees <= cap && w.location <= cap
    ensures 0.0 <= Evaluation(s, c, w).score <= 5.0 * cap
  {
    ScoreBounds(s, c, w);
  }

  /** Accepting more never lowers a score: when every list of `c2` includes
      the one of `c1` and every range of `c2` contains the one of `c1`, a row
      scores at least as much under `c2` as under `c1`. */
  lemma WiderCriteriaScoreHigher(s: Startup, c1: Criteria, c2: Criteria, w: Weights)
    requires NonNegative(w)
    requires forall x :: x in c1.industries ==> x in c2.industries
    requires forall x :: x in c1.stages ==> x in c2.stages
    requires forall x :: x in c1.locations ==> x in c2.locations
    requires c2.minArr <= c1.minArr && c1.maxArr <= c2.maxArr
    requires c2.minEmployees <= c1.minEmployees && c1.maxEmployees <= c2.maxEmployees
    ensures Evaluation(s, c1, w).score <= Evaluation(s, c2, w).score
  {
    ScoreByCriterion(s, c1, w);
    ScoreByCriterion(s, c2, w);
  }

  /** `evaluate_row`: the flags are assigned and the score is accumulated one
      criterion at a time, as the script does. */
  method EvaluateRow(row: Startup, c: Criteria, w: Weights) returns (e: Evaluated)
    ensures e == Evaluation(row, c, w)
    ensures e.industryMet <==> row.industry in c.industries
    ensures e.stageMet <==> row.stage in c.stages
    ensures e.arrMet <==> row.arr.IntVal? && c.minArr <= row.arr.n <= c.maxArr
    ensures e.employeesMet <==> row.employees.IntVal? && c.minEmployees <= row.employees.n <= c.maxEmployees
    ensures e.locationMet <==> row.location in c.locations
  {
    var criteriaMet := 0.0;

    var industryMet := MeetsIndustryCriteria(row.industry, c);
    criteriaMet := criteriaMet + if industryMet then w.industry else 0.0;

    var stageMet := MeetsStageCriteria(row.stage, c);
    criteriaMet := criteriaMet + if stageMet then w.stage else 0.0;

    var arrMet := MeetsArrCriteria(row.arr, c);
    criteriaMet := criteriaMet + if arrMet then w.arr else 0.0;

    var employeesMet := MeetsEmployeesCriteria(row.employees, c);
    criteriaMet := criteriaMet + if employeesMet then w.employees else 0.0;

    var locationMet := MeetsLocationCriteria(row.location, c);
    criteriaMet := criteriaMet + if locationMet then w.location else 0.0;

    ScoreByCriterion(row, c, w);
    e := Evaluated(row, industryMet, stageMet, arrMet, employeesMet, locationMet, criteriaMet);
  }

  /** The seven base columns of every row. */
  function Bases(rows: seq<Evaluated>): (r: seq<Startup>)
    ensures |r| == |rows|
  {
    seq(|rows|, i requires 0 <= i < |rows| => rows[i].base)
  }

  /** Every row evaluated, in table order. */
  function Evaluations(rows: seq<Startup>, c: Criteria, w: Weights): (r: seq<Evaluated>)
    ensures |r| == |rows|
  {
    seq(|rows|, i requires 0 <= i < |rows| => Evaluation(rows[i], c, w))
  }

  /** Evaluation only adds the derived columns: the base columns of every
      row, and the number of rows, are those of the input. */
  lemma EvaluationsKeepBases(rows: seq<Startup>, c: Criteria, w: Weights)
    ensures Bases(Evaluations(rows, c, w)) == rows
  {
  }

  /** `evaluate_and_update`: `evaluate_row` applied to every row. */
  method EvaluateAndUpdate(rows: seq<Startup>, c: Criteria, w: Weights) returns (out: seq<Evaluated>)
    ensures |out| == |rows|
    ensures forall i :: 0 <= i < |rows| ==> out[i] == Evaluation(rows[i], c, w)
  {
    out := [];
    var i := 0;
    while i < |rows|
      invariant 0 <= i <= |rows|
      invariant |out| == i
      invariant forall j :: 0 <= j < i ==> out[j] == Evaluation(rows[j], c, w)
    {
      var e := EvaluateRow(rows[i], c, w);
      out := out + [e];
      i := i + 1;
    }
  }
}
