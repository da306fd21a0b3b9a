/** The data model of the stack-ranking dashboard: a startup record, the
    investment criteria chosen in the sidebar, the per-criterion weights, and
    a record together with the columns the evaluator derives from it. */
module Startups {

  datatype Option<T> = None | Some(value: T)

  /** What Python's `int()` makes of an ARR or employee-count cell: either an
      integer, or a value it refuses with a `ValueError`. */
  datatype Num = IntVal(n: int) | NotInt

  /** One row of the table, restricted to the seven canonical columns
      ('Startup Name', 'Description', 'Industry', 'Stage', 'ARR',
      'Number of Employees', 'Location'). */
  datatype Startup = Startup(
    name: string,
    description: string,
    industry: string,
    stage: string,
    arr: Num,
    employees: Num,
    location: string)

  /** The acceptance rules: three selected lists and two inclusive ranges. */
  datatype Criteria = Criteria(
    industries: seq<string>,
    stages: seq<string>,
    minArr: int,
    maxArr: int,
    minEmployees: int,
    maxEmployees: int,
    locations: seq<string>)

  /** The weights dictionary, one entry per criterion. */
  datatype Weights = Weights(
    industry: real,
    stage: real,
    arr: real,
    employees: real,
    location: real)

  /** A row after evaluation: the base record plus the five "Met" columns and
      the "Criteria Met" score. */
  datatype Evaluated = Evaluated(
    base: Startup,
    industryMet: bool,
    stageMet: bool,
    arrMet: bool,
    employeesMet: bool,
    locationMet: bool,
    score: real)

  /** The five criteria, in the order the evaluator visits them. */
  datatype Criterion = Industry | Stage | Arr | Employees | Location

  const AllCriteria: seq<Criterion> := [Industry, Stage, Arr, Employees, Location]

  /** The weight the dictionary gives criterion `k`. */
  function Weight(w: Weights, k: Criterion): real
  {
    match k
    case Industry => w.industry
    case Stage => w.stage
    case Arr => w.arr
    case Employees => w.employees
    case Location => w.location
  }

  /** The default weights both scripts start from. */
  const DefaultWeights: Weights := Weights(0.5, 1.0, 1.5, 1.0, 0.2)

  /** The sidebar's default selection, which is also the fixed rule set of
      the second script. */
  const DefaultCriteria: Criteria := Criteria(
    ["Fintech", "Healthcare", "AI"],
    ["Seed", "Series A", "Series B"],
    20000, 10000000,
    2, 25,
    ["USA", "Canada"])

  /** The seven startups both scripts start with. */
  const InitialData: seq<Startup> := [
    Startup("ByteBank", "Fintech startup focused on payments", "Fintech", "Seed", IntVal(1200000), IntVal(15), "USA"),
    Startup("MediMatrix", "Healthcare startup specializing in diagnostics", "Healthcare", "Series A", IntVal(3000000), IntVal(50), "UK"),
    Startup("SynthiLogic", "AI startup with advanced analytics", "AI", "Series C", IntVal(10000000), IntVal(120), "Canada"),
    Startup("GreenSphere", "Healthcare startup improving patient care", "Healthcare", "Seed", IntVal(200000), IntVal(5), "Germany"),
    Startup("AetherAnalytics", "Fintech startup offering financial literacy", "Fintech", "Series B", IntVal(5000000), IntVal(90), "USA"),
    Startup("PulsePredict", "Healthcare startup optimizing telehealth", "Healthcare", "Pre-Seed", IntVal(9000), IntVal(1), "China"),
    Startup("LumenLoop", "AI startup disrupting marketing", "AI", "Series A", IntVal(50000), IntVal(5), "Canada")
  ]
}
