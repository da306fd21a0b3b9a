/** The earlier dashboard: the same evaluator with hard-coded criteria, the
    seven built-in startups, and weight sliders limited to [0, 2]. */
module StackRankV2 {
  import opened Startups
  import opened Evaluator
  import opened Ranking

  /** The hard-coded rule set: it coincides with the sidebar defaults of the
      later dashboard. */
  const FixedCriteria: Criteria := DefaultCriteria

  function MeetsIndustryCriteria(industry: string): (met: bool)
    ensures met <==> industry == "Fintech" || industry == "Healthcare" || industry == "AI"
  {
    Evaluator.MeetsIndustryCriteria(industry, FixedCriteria)
  }

  function MeetsStageCriteria(stage: string): (met: bool)
    ensures met <==> stage == "Seed" || stage == "Series A" || stage == "Series B"
  {
    Evaluator.MeetsStageCriteria(stage, FixedCriteria)
  }

  function MeetsArrCriteria(arr: Num): (met: bool)
    ensures met <==> exists n :: arr == IntVal(n) && 20000 <= n <= 10000000
  {
    Evaluator.MeetsArrCriteria(arr, FixedCriteria)
  }

  function MeetsEmployeesCriteria(employees: Num): (met: bool)
    ensures met <==> exists n :: employees == IntVal(n) && 2 <= n <= 25
  {
    Evaluator.MeetsEmployeesCriteria(employees, FixedCriteria)
  }

  function MeetsLocationCriteria(location: string): (met: bool)
    ensures met <==> location == "USA" || location == "Canada"
  {
    Evaluator.MeetsLocationCriteria(location, FixedCriteria)
  }

  /** A weight slider's range. */
  predicate SliderWeights(w: Weights)
  {
    0.0 <= w.industry <= 2.0 && 0.0 <= w.stage <= 2.0 && 0.0 <= w.arr <= 2.0 &&
    0.0 <= w.employees <= 2.0 && 0.0 <= w.location <= 2.0
  }

  /** With slider weights every score lies in [0, 10]. */
  lemma SliderScoreBound(s: Startup, w: Weights)
    requires SliderWeights(w)
    ensures 0.0 <= Evaluation(s, FixedCriteria, w).score <= 10.0
  {
    ScoreAtMostFiveCaps(s, FixedCriteria, w, 2.0);
  }

  /** ByteBank meets every criterion and scores 0.5 + 1.0 + 1.5 + 1.0 + 0.2. */
  lemma ByteBankScore()
    ensures InitialData[0].name == "ByteBank"
    ensures var e := Evaluation(InitialData[0], FixedCriteria, DefaultWeights);
      e.industryMet && e.stageMet && e.arrMet && e.employeesMet && e.locationMet && e.score == 4.2
  {
    var s := InitialData[0];
    assert s == Startup("ByteBank", "Fintech startup focused on payments", "Fintech", "Seed", IntVal(1200000), IntVal(15), "USA");
    assert Meets(s, FixedCriteria, Industry) by { assert FixedCriteria.industries[0] == s.industry; }
    assert Meets(s, FixedCriteria, Stage) by { assert FixedCriteria.stages[0] == s.stage; }
    assert Meets(s, FixedCriteria, Location) by { assert FixedCriteria.locations[0] == s.location; }
    ScoreByCriterion(s, FixedCriteria, DefaultWeights);
  }

  /** PulsePredict (Pre-Seed, ARR 9000, one employee, China) meets only the
      industry criterion and scores the industry weight alone. */
  lemma PulsePredictScore()
    ensures InitialData[5].name == "PulsePredict"
    ensures var e := Evaluation(InitialData[5], FixedCriteria, DefaultWeights);
      e.industryMet && !e.stageMet && !e.arrMet && !e.employeesMet && !e.locationMet && e.score == 0.5
  {
    var s := InitialData[5];
    assert s == Startup("PulsePredict", "Healthcare startup optimizing telehealth", "Healthcare", "Pre-Seed", IntVal(9000), IntVal(1), "China");
    assert Meets(s, FixedCriteria, Industry) by { assert FixedCriteria.industries[1] == s.industry; }
    assert !Meets(s, FixedCriteria, Stage) by {
      assert s.stage[0] == 'P';
      assert forall i :: 0 <= i < |FixedCriteria.stages| ==> FixedCriteria.stages[i][0] == 'S';
    }
    assert !Meets(s, FixedCriteria, Location) by {
      assert s.location[0] == 'C' && s.location[1] == 'h';
      assert FixedCriteria.locations[1][1] == 'a';
    }
    ScoreByCriterion(s, FixedCriteria, DefaultWeights);
  }

  /** MediMatrix misses the head count (50) and the location (UK). */
  lemma MediMatrixScore()
    ensures Evaluation(InitialData[1], FixedCriteria, DefaultWeights).score == 3.0
  {
    var s, c := InitialData[1], FixedCriteria;
    assert s == Startup("MediMatrix", "Healthcare startup specializing in diagnostics", "Healthcare", "Series A", IntVal(3000000), IntVal(50), "UK");
    assert Meets(s, c, Industry) by { assert c.industries[1] == s.industry; }
    assert Meets(s, c, Stage) by { assert c.stages[1] == s.stage; }
    assert !Meets(s, c, Location) by { assert |s.location| == 2; }
    ScoreByCriterion(s, c, DefaultWeights);
  }

  /** SynthiLogic misses the stage (Series C) and the head count (120); its
      ARR of exactly 10000000 meets the inclusive upper bound. */
  lemma SynthiLogicScore()
    ensures Evaluation(InitialData[2], FixedCriteria, DefaultWeights).score == 2.2
  {
    var s, c := InitialData[2], FixedCriteria;
    assert s == Startup("SynthiLogic", "AI startup with advanced analytics", "AI", "Series C", IntVal(10000000), IntVal(120), "Canada");
    assert Meets(s, c, Industry) by { assert c.industries[2] == s.industry; }
    assert !Meets(s, c, Stage) by {
      assert s.stage[7] == 'C' && |s.stage| == 8;
      assert |c.stages[0]| == 4 && c.stages[1][7] == 'A' && c.stages[2][7] == 'B';
    }
    assert Meets(s, c, Location) by { assert c.locations[1] == s.location; }
    ScoreByCriterion(s, c, DefaultWeights);
  }

  /** GreenSphere misses only the location (Germany). */
  lemma GreenSphereScore()
    ensures Evaluation(InitialData[3], FixedCriteria, DefaultWeights).score == 4.0
  {
    var s, c := InitialData[3], FixedCriteria;
    assert s == Startup("GreenSphere", "Healthcare startup improving patient care", "Healthcare", "Seed", IntVal(200000), IntVal(5), "Germany");
    assert Meets(s, c, Industry) by { assert c.industries[1] == s.industry; }
    assert Meets(s, c, Stage) by { assert c.stages[0] == s.stage; }
    assert !Meets(s, c, Location) by { assert |s.location| == 7; }
    ScoreByCriterion(s, c, DefaultWeights);
  }

  /** AetherAnalytics misses only the head count (90). */
  lemma AetherAnalyticsScore()
    ensures Evaluation(InitialData[4], FixedCriteria, DefaultWeights).score == 3.2
  {
    var s, c := InitialData[4], FixedCriteria;
    assert s == Startup("AetherAnalytics", "Fintech startup offering financial literacy", "Fintech", "Series B", IntVal(5000000), IntVal(90), "USA");
    assert Meets(s, c, Industry) by { assert c.industries[0] == s.industry; }
    assert Meets(s, c, Stage) by { assert c.stages[2] == s.stage; }
    assert Meets(s, c, Location) by { assert c.locations[0] == s.location; }
    ScoreByCriterion(s, c, DefaultWeights);
  }

  /** LumenLoop meets every criterion. */
  lemma LumenLoopScore()
    ensures Evaluation(InitialData[6], FixedCriteria, DefaultWeights).score == 4.2
  {
    var s, c := InitialData[6], FixedCriteria;
    assert s == Startup("LumenLoop", "AI startup disrupting marketing", "AI", "Series A", IntVal(50000), IntVal(5), "Canada");
    assert Meets(s, c, Industry) by { assert c.industries[2] == s.industry; }
    assert Meets(s, c, Stage) by { assert c.stages[1] == s.stage; }
    assert Meets(s, c, Location) by { assert c.locations[1] == s.location; }
    ScoreByCriterion(s, c, DefaultWeights);
  }

  /** The score column the built-in data shows with the default weights,
      whatever order ties are put in. */
  lemma DefaultScores(shown: seq<Evaluated>)
    requires Ranked(shown, Evaluations(InitialData, FixedCriteria, DefaultWeights))
    ensures Scores(shown) == DefaultColumn
  {
    var ev := Evaluations(InitialData, FixedCriteria, DefaultWeights);
    assert |ev| == 7;
    ByteBankScore();
    MediMatrixScore();
    SynthiLogicScore();
    GreenSphereScore();
    AetherAnalyticsScore();
    PulsePredictScore();
    LumenLoopScore();
    ScoresOfSeven(ev, shown);
  }

  /** The "Criteria Met" column of the built-in data under the defaults. */
  const DefaultColumn: seq<real> := [4.2, 4.2, 4.0, 3.2, 3.0, 2.2, 0.5]

  lemma SortedByColumn(e: seq<Evaluated>)
    requires |e| == 7
    requires e[0].score == 4.2 && e[1].score == 4.2 && e[2].score == 4.0 && e[3].score == 3.2
    requires e[4].score == 3.0 && e[5].score == 2.2 && e[6].score == 0.5
    ensures NonIncreasing(e) && Scores(e) == DefaultColumn
  {
  }

  /** `rows` with the rows at `i` and `j` exchanged. */
  function Swap(rows: seq<Evaluated>, i: nat, j: nat): (r: seq<Evaluated>)
    requires i < |rows| && j < |rows|
    ensures |r| == |rows| && multiset(r) == multiset(rows)
    ensures r[i] == rows[j] && r[j] == rows[i]
    ensures forall k :: 0 <= k < |rows| && k != i && k != j ==> r[k] == rows[k]
  {
    rows[i := rows[j]][j := rows[i]]
  }

  /** The built-in rows in the order of the default column. */
  function DefaultOrder(ev: seq<Evaluated>): (r: seq<Evaluated>)
    requires |ev| == 7
    ensures multiset(r) == multiset(ev) && |r| == 7
    ensures r[0] == ev[0] && r[1] == ev[6] && r[2] == ev[3] && r[3] == ev[4]
    ensures r[4] == ev[1] && r[5] == ev[2] && r[6] == ev[5]
  {
    Swap(Swap(Swap(Swap(Swap(ev, 1, 6), 2, 3), 3, 4), 4, 6), 5, 6)
  }

  /** Any ranking of seven rows scoring 4.2, 3.0, 2.2, 4.0, 3.2, 0.5 and 4.2
      shows 4.2, 4.2, 4.0, 3.2, 3.0, 2.2, 0.5. */
  lemma ScoresOfSeven(ev: seq<Evaluated>, shown: seq<Evaluated>)
    requires |ev| == 7 && Ranked(shown, ev)
    requires ev[0].score == 4.2 && ev[1].score == 3.0 && ev[2].score == 2.2 && ev[3].score == 4.0
    requires ev[4].score == 3.2 && ev[5].score == 0.5 && ev[6].score == 4.2
    ensures Scores(shown) == DefaultColumn
  {
    var expected := DefaultOrder(ev);
    SortedByColumn(expected);
    RankingScoresUnique(shown, expected);
  }

  /** The script: evaluate and sort with the default weights, then, once the
      sliders have set the weights, evaluate and sort again; the second table
      is the one displayed. */
  method DisplayedTable(w: Weights) returns (shown: seq<Evaluated>)
    ensures Ranked(shown, Evaluations(InitialData, FixedCriteria, w))
    ensures |shown| == |InitialData|
  {
    var df := EvaluateAndSort(InitialData, FixedCriteria, DefaultWeights);
    shown := EvaluateAndSort(Bases(df), FixedCriteria, w);
    EvaluationsOfPermutation(Bases(df), InitialData, FixedCriteria, w);
  }
}
