/** The dashboard with adjustable criteria: removing startups by name,
    importing them from an already-read CSV table, adding one from the form,
    and the table that is re-evaluated and re-ranked after every change. */
module FinalStackRank {
  import opened Startups
  import opened Evaluator
  import opened Ranking

  /** `remove_startup`: the rows whose name differs from `name`. */
  function RemoveStartup(rows: seq<Startup>, name: string): (r: seq<Startup>)
    ensures forall i :: 0 <= i < |r| ==> r[i].name != name
  {
    if rows == [] then []
    else
      (if rows[0].name == name then [] else [rows[0]]) + RemoveStartup(rows[1..], name)
  }

  /** Every row not named `name` is kept as often as it occurs, every row
      named `name` is dropped, duplicates included. */
  lemma {:induction false} RemoveStartupCounts(rows: seq<Startup>, name: string)
    ensures forall x ::
      multiset(RemoveStartup(rows, name))[x] == if x.name == name then 0 else multiset(rows)[x]
  {
    if rows != [] {
      assert rows == [rows[0]] + rows[1..];
      RemoveStartupCounts(rows[1..], name);
    }
  }

  /** Removal keeps the relative order of the rows it keeps: it works on each
      part of a table separately. */
  lemma {:induction false} RemoveStartupAppend(a: seq<Startup>, b: seq<Startup>, name: string)
    ensures RemoveStartup(a + b, name) == RemoveStartup(a, name) + RemoveStartup(b, name)
  {
    if a == [] {
      assert a + b == b;
    } else {
      var head := if a[0].name == name then [] else [a[0]];
      calc {
        RemoveStartup(a + b, name);
        { assert (a + b)[0] == a[0] && (a + b)[1..] == a[1..] + b; }
        head + RemoveStartup(a[1..] + b, name);
        { RemoveStartupAppend(a[1..], b, name); }
        head + (RemoveStartup(a[1..], name) + RemoveStartup(b, name));
        (head + RemoveStartup(a[1..], name)) + RemoveStartup(b, name);
        RemoveStartup(a, name) + RemoveStartup(b, name);
      }
    }
  }

  /** Removing a name no row carries changes nothing. */
  lemma {:induction false} RemoveAbsentName(rows: seq<Startup>, name: string)
    requires forall i :: 0 <= i < |rows| ==> rows[i].name != name
    ensures RemoveStartup(rows, name) == rows
  {
    if rows != [] {
      RemoveAbsentName(rows[1..], name);
    }
  }

  /** `set(columns)`: the seven canonical column names. */
  const RequiredColumns: set<string> :=
    {"Startup Name", "Description", "Industry", "Stage", "ARR", "Number of Employees", "Location"}

  /** A cell of the CSV file: its text, and what `int()` makes of the value
      read from it. A blank cell is `Cell("", NotInt)`. */
  datatype Cell = Cell(text: string, asInt: Num)

  /** A CSV file as read: its header and its rows, each a map from column
      name to cell. */
  datatype CsvTable = CsvTable(columns: set<string>, rows: seq<map<string, Cell>>)

  /** Every row has a cell in every column of the header. */
  ghost predicate WellFormed(t: CsvTable)
  {
    forall i :: 0 <= i < |t.rows| ==> t.columns <= t.rows[i].Keys
  }

  /** `csv_df[columns]` for one row: the seven canonical cells, in canonical
      order; every other column is dropped. */
  function ProjectRow(row: map<string, Cell>): Startup
    requires RequiredColumns <= row.Keys
  {
    Startup(
      row["Startup Name"].text,
      row["Description"].text,
      row["Industry"].text,
      row["Stage"].text,
      row["ARR"].asInt,
      row["Number of Employees"].asInt,
      row["Location"].text)
  }

  /** The projection reads nothing but the canonical columns: two rows that
      agree on those project to the same record. */
  lemma ProjectRowReadsCanonicalColumns(r1: map<string, Cell>, r2: map<string, Cell>)
    requires RequiredColumns <= r1.Keys && RequiredColumns <= r2.Keys
    requires forall col :: col in RequiredColumns ==> r1[col] == r2[col]
    ensures ProjectRow(r1) == ProjectRow(r2)
  {
    assert "Startup Name" in RequiredColumns;
    assert "Description" in RequiredColumns;
    assert "Industry" in RequiredColumns;
    assert "Stage" in RequiredColumns;
    assert "ARR" in RequiredColumns;
    assert "Number of Employees" in RequiredColumns;
    assert "Location" in RequiredColumns;
  }

  /** `add_startups_from_csv` on a file already read: `None` (the error
      message) when a canonical column is missing, otherwise every row
      projected to the canonical columns, in file order. */
  function AddStartupsFromCsv(t: CsvTable): (r: Option<seq<Startup>>)
    requires WellFormed(t)
    ensures r.Some? <==> RequiredColumns <= t.columns
    ensures r.Some? ==> |r.value| == |t.rows|
    ensures r.Some? ==> forall i :: 0 <= i < |t.rows| ==>
      r.value[i].name == t.rows[i]["Startup Name"].text &&
      r.value[i].description == t.rows[i]["Description"].text &&
      r.value[i].industry == t.rows[i]["Industry"].text &&
      r.value[i].stage == t.rows[i]["Stage"].text &&
      r.value[i].arr == t.rows[i]["ARR"].asInt &&
      r.value[i].employees == t.rows[i]["Number of Employees"].asInt &&
      r.value[i].location == t.rows[i]["Location"].text
  {
    if RequiredColumns <= t.columns then
      Some(seq(|t.rows|, i requires 0 <= i < |t.rows| => ProjectRow(t.rows[i])))
    else
      None
  }

  /** Reading two files with the same header one after the other gives the
      same records as reading their rows as one file. */
  lemma AddStartupsFromCsvAppend(cols: set<string>, rows1: seq<map<string, Cell>>, rows2: seq<map<string, Cell>>)
    requires WellFormed(CsvTable(cols, rows1)) && WellFormed(CsvTable(cols, rows2))
    requires RequiredColumns <= cols
    ensures WellFormed(CsvTable(cols, rows1 + rows2))
    ensures AddStartupsFromCsv(CsvTable(cols, rows1 + rows2)).value ==
      AddStartupsFromCsv(CsvTable(cols, rows1)).value + AddStartupsFromCsv(CsvTable(cols, rows2)).value
  {
    var t := CsvTable(cols, rows1 + rows2);
    forall i | 0 <= i < |t.rows| ensures cols <= t.rows[i].Keys {
      if i < |rows1| {
        assert t.rows[i] == rows1[i];
      } else {
        assert t.rows[i] == rows2[i - |rows1|];
      }
    }
    var l := AddStartupsFromCsv(t).value;
    var r := AddStartupsFromCsv(CsvTable(cols, rows1)).value + AddStartupsFromCsv(CsvTable(cols, rows2)).value;
    forall i | 0 <= i < |l| ensures l[i] == r[i] {
      if i < |rows1| {
        assert t.rows[i] == rows1[i];
      } else {
        assert t.rows[i] == rows2[i - |rows1|];
      }
    }
  }

  /** A file without a "Location" column is rejected. */
  lemma MissingLocationRejected(t: CsvTable)
    requires WellFormed(t) && "Location" !in t.columns
    ensures AddStartupsFromCsv(t) == None
  {
    assert "Location" in RequiredColumns;
  }

  /** Taking USA off the accepted locations withholds exactly ByteBank's
      location weight. */
  lemma ByteBankWithoutUsa()
    ensures Evaluation(InitialData[0], DefaultCriteria.(locations := ["Canada"]), DefaultWeights).score == 4.0
  {
    var s := InitialData[0];
    var c := DefaultCriteria.(locations := ["Canada"]);
    assert s == Startup("ByteBank", "Fintech startup focused on payments", "Fintech", "Seed", IntVal(1200000), IntVal(15), "USA");
    assert Meets(s, c, Industry) by { assert c.industries[0] == s.industry; }
    assert Meets(s, c, Stage) by { assert c.stages[0] == s.stage; }
    assert !Meets(s, c, Location) by { assert |c.locations[0]| != |s.location|; }
    ScoreByCriterion(s, c, DefaultWeights);
  }

  /** The add form's guard: every field truthy, so no empty string and no
      zero ARR or head count. */
  predicate Submittable(name: string, description: string, industry: string, stage: string,
                        arr: nat, employees: nat, location: string)
  {
    name != "" && description != "" && industry != "" && stage != "" &&
    arr != 0 && employees != 0 && location != ""
  }

  /** A weight slider's range in the sidebar. */
  predicate SliderWeights(w: Weights)
  {
    0.0 <= w.industry <= 10.0 && 0.0 <= w.stage <= 10.0 && 0.0 <= w.arr <= 10.0 &&
    0.0 <= w.employees <= 10.0 && 0.0 <= w.location <= 10.0
  }

  /** With slider weights every score lies between 0 and the sum of the five
      weights, hence in [0, 50]. */
  lemma SliderScoreBound(s: Startup, c: Criteria, w: Weights)
    requires SliderWeights(w)
    ensures 0.0 <= Evaluation(s, c, w).score <= w.industry + w.stage + w.arr + w.employees + w.location
    ensures Evaluation(s, c, w).score <= 50.0
  {
    ScoreBounds(s, c, w);
  }

  /** `st.session_state.df`: the table kept across reruns. Each change is
      followed by re-evaluation with the current criteria and weights and by
      a sort on "Criteria Met", highest first. */
  class StartupTable {
    var rows: seq<Evaluated>
    /** The criteria and weights of the last evaluation. */
    ghost var criteria: Criteria
    ghost var weights: Weights

    /** Every row carries the evaluation of its base columns under the last
        criteria and weights, and the rows are ranked. */
    ghost predicate Valid()
      reads this
    {
      NonIncreasing(rows) &&
      forall i :: 0 <= i < |rows| ==> rows[i] == Evaluation(rows[i].base, criteria, weights)
    }

    /** The table's records, without the derived columns. */
    function Records(): (r: seq<Startup>)
      reads this
      ensures |r| == |rows|
    {
      Bases(rows)
    }

    /** A permutation of rows none of which is named `name` has no row named
        `name` either. */
    static lemma NoneNamed(r: seq<Startup>, kept: seq<Startup>, name: string)
      requires multiset(r) == multiset(kept)
      requires forall i :: 0 <= i < |kept| ==> kept[i].name != name
      ensures forall i :: 0 <= i < |r| ==> r[i].name != name
    {
      forall i | 0 <= i < |r| ensures r[i].name != name {
        assert r[i] in multiset(kept);
      }
    }

    /** Evaluate `bases` with `c` and `w`, then sort on the score. */
    method Rerank(bases: seq<Startup>, c: Criteria, w: Weights)
      modifies this
      ensures Valid() && criteria == c && weights == w
      ensures Ranked(rows, Evaluations(bases, c, w))
      ensures multiset(Records()) == multiset(bases)
      ensures |rows| == |bases|
    {
      rows := EvaluateAndSort(bases, c, w);
      criteria, weights := c, w;
    }

    /** The first run: the initial data, evaluated and ranked. */
    constructor (initial: seq<Startup>, c: Criteria, w: Weights)
      ensures Valid() && criteria == c && weights == w
      ensures Ranked(rows, Evaluations(initial, c, w))
      ensures multiset(Records()) == multiset(initial)
    {
      var ranked := EvaluateAndSort(initial, c, w);
      rows := ranked;
      criteria, weights := c, w;
    }

    /** The add form: a submission with every field truthy is appended and the
        table re-ranked; any other submission is dropped silently. */
    method Add(name: string, description: string, industry: string, stage: string,
               arr: nat, employees: nat, location: string, c: Criteria, w: Weights)
      returns (added: bool)
      requires Valid()
      modifies this
      ensures Valid()
      ensures added <==> Submittable(name, description, industry, stage, arr, employees, location)
      ensures added ==> Ranked(rows, Evaluations(old(Records()) +
        [Startup(name, description, industry, stage, IntVal(arr), IntVal(employees), location)], c, w))
      ensures added ==> |rows| == old(|rows|) + 1 && criteria == c && weights == w
      ensures !added ==> rows == old(rows) && criteria == old(criteria) && weights == old(weights)
    {
      added := Submittable(name, description, industry, stage, arr, employees, location);
      if added {
        var s := Startup(name, description, industry, stage, IntVal(arr), IntVal(employees), location);
        Rerank(Records() + [s], c, w);
      }
    }

    /** The CSV upload: a file with every canonical column has its rows,
        projected to those columns, appended and the table re-ranked; a file
        missing one is rejected and, like an empty file, changes nothing. */
    method Import(t: CsvTable, c: Criteria, w: Weights) returns (ok: bool)
      requires Valid() && WellFormed(t)
      modifies this
      ensures Valid()
      ensures ok <==> RequiredColumns <= t.columns
      ensures ok && t.rows != [] ==>
        Ranked(rows, Evaluations(old(Records()) + AddStartupsFromCsv(t).value, c, w))
      ensures ok ==> |rows| == old(|rows|) + |t.rows|
      ensures ok && t.rows != [] ==> criteria == c && weights == w
      ensures !ok || t.rows == [] ==>
        rows == old(rows) && criteria == old(criteria) && weights == old(weights)
    {
      var imported := AddStartupsFromCsv(t);
      ok := imported.Some?;
      if ok && imported.value != [] {
        Rerank(Records() + imported.value, c, w);
      }
    }

    /** The remove form: every row named `name` is dropped and the table
        re-ranked; an empty selection does nothing. */
    method Remove(name: string, c: Criteria, w: Weights)
      requires Valid()
      modifies this
      ensures Valid()
      ensures name != "" ==> Ranked(rows, Evaluations(RemoveStartup(old(Records()), name), c, w))
      ensures name != "" ==> forall i :: 0 <= i < |rows| ==> rows[i].base.name != name
      ensures name != "" ==> criteria == c && weights == w
      ensures name == "" ==> rows == old(rows) && criteria == old(criteria) && weights == old(weights)
    {
      if name != "" {
        var kept := RemoveStartup(Records(), name);
        Rerank(kept, c, w);
        NoneNamed(Records(), kept, name);
        assert forall i :: 0 <= i < |rows| ==> Records()[i] == rows[i].base;
      }
    }

    /** The end of every run: re-evaluate with the current criteria and
        weights, then sort. When neither changed since the last evaluation,
        the "Criteria Met" column shown is the same as before. */
    method Refresh(c: Criteria, w: Weights)
      modifies this
      ensures Valid() && criteria == c && weights == w
      ensures Ranked(rows, Evaluations(old(Records()), c, w))
      ensures old(Valid()) && old(criteria) == c && old(weights) == w ==>
        Scores(rows) == old(Scores(rows))
    {
      ghost var before := rows;
      ghost var wasValid := Valid() && criteria == c && weights == w;
      Rerank(Records(), c, w);
      if wasValid {
        assert Evaluations(Bases(before), c, w) == before;
        RankingScoresUnique(rows, before);
      }
    }
  }
}
