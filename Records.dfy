/** The values that flow between the stages of one improvement iteration.
    The Python code passes these around as dictionaries; each dictionary
    shape the core produces or reads is one datatype here. */
module Records {

  datatype Option<T> = None | Some(value: T) {
    /** Python's `d.get(key, default)` when the key may be absent. */
    function GetOr(default: T): T {
      match this
      case Some(v) => v
      case None => default
    }
  }

  /** The status strings the core writes and compares. `Unknown` is the
      `"unknown"` default used when a status could not be fetched. */
  datatype Status = Pending | Running | Completed | Failed | Passed | Error | Unknown

  /** A test case as the design side writes it and the execution side
      uploads it. Every other missing string field reads as "" and every
      missing list as []. `id` and `name` are optional, and None means
      different things on the two sides:
      - in the design app and the integration, a test-case dict without
        the key, for which each reader supplies its own default;
      - in the execution app's upload, a cell that is None because the
        CSV row is shorter than its header (a missing column reads as "").
        `create_execution` then writes that None into the execution id as
        the text "None" (`PyStr`). */
  datatype TestCase = TestCase(
    id: Option<string>,
    requirementId: string,
    name: Option<string>,
    objective: string,
    preconditions: seq<string>,
    steps: seq<string>,
    expected: seq<string>,
    testData: string,
    environment: string)

  /** One step as reported by the execution integration. */
  datatype StepOutcome = StepOutcome(
    stepIndex: nat,
    description: string,
    status: Status,
    result: Option<string>,
    error: Option<string>)

  /** One entry of `execution_results`. */
  datatype CaseResult = CaseResult(
    testCaseId: string,
    testName: string,
    status: Status,
    failureReason: Option<string>,
    executionId: Option<string>,
    stepResults: seq<StepOutcome>,
    exportPath: Option<string>)

  /** Where an execution report came from. */
  datatype ExecOrigin =
    | Simulated                        // the LoopController's built-in stand-in
    | Delegated                        // the execution app ran the cases
    | DelegationFailed(error: string)  // upload to the execution app failed
    | FallbackRun                      // local pseudo-random substitute

  datatype ExecutionReport = ExecutionReport(
    results: seq<CaseResult>,
    totalTests: nat,
    passedTests: nat,
    failedTests: int,
    origin: ExecOrigin,
    testCases: seq<TestCase>)
  {
    predicate FallbackUsed() { origin.FallbackRun? }
  }

  datatype FailedTest = FailedTest(
    testCaseId: string,
    testName: string,
    failureReason: string)

  /** A member of a JSON object as Python sees it after `json.loads`: a
      missing key, a key whose value is null (Python's None), or a value. */
  datatype JsonMember<T> = Absent | Null | Present(value: T)

  type JsonText = JsonMember<string>

  /** `f"{d.get(key, default)}"` for a string member: the default when the
      key is missing, the text "None" when its value is null. */
  function Render(m: JsonText, default: string): string {
    match m
    case Absent => default
    case Null => "None"
    case Present(s) => s
  }

  /** An improvement suggestion as the LLM's JSON gives it: each member may
      be missing or null. */
  datatype Suggestion = Suggestion(
    category: JsonText,
    priority: JsonText,
    description: JsonText,
    implementation: JsonText,
    testStrategy: JsonText)

  /** The next iteration's plan. Its focus areas and strategy updates copy
      members that are present, so they may hold `Null` but never `Absent`. */
  datatype LoopPlan = LoopPlan(
    focusAreas: seq<JsonText>,
    priorityImprovements: seq<Suggestion>,
    testStrategyUpdates: seq<JsonText>,
    estimatedEffort: Option<string>)

  /** The improvement analysis of one iteration (evidence is not modelled). */
  datatype Analysis = Analysis(
    failedTests: seq<FailedTest>,
    suggestions: seq<Suggestion>,
    plan: LoopPlan,
    timestamp: string)

  datatype Feature = Feature(name: string, description: string, category: string, priority: string, evidence: string)
  datatype Scenario = Scenario(scenario: string, steps: seq<string>, expectedOutcome: string)
  datatype Features = Features(mainFeatures: seq<Feature>, scenarios: seq<Scenario>)

  /** The specification artifact of one iteration. */
  datatype Spec = Spec(
    targetUrl: string,
    html: string,
    uiComponents: seq<string>,
    features: Features,
    document: string,
    timestamp: string)

  datatype Requirement = Requirement(id: string, description: string)
  datatype Risk = Risk(area: string, description: string, mitigation: string)

  /** What the design app's `create_test_design_document` returns. */
  datatype DesignDocument = DesignDocument(
    requirements: seq<Requirement>,
    risks: seq<Risk>,
    testCases: seq<TestCase>,
    createdAt: string)

  /** The four shapes a test-design result takes. */
  datatype DesignResult =
    | SimulatedDesign(cases: seq<TestCase>)
    | DelegatedDesign(document: DesignDocument, requirementsCount: nat, testCasesCount: nat)
    | DelegatedDesignFailed(error: string)
    | FallbackDesign(cases: seq<TestCase>)
  {
    predicate Success() { DelegatedDesign? || FallbackDesign? }
    predicate FallbackUsed() { DelegatedDesignFailed? || FallbackDesign? }

    /** `result.get("test_cases", [])`: only the simulated and the fallback
        shapes carry a top-level test case list. */
    function TestCasesKey(): seq<TestCase> {
      match this
      case SimulatedDesign(cs) => cs
      case FallbackDesign(cs) => cs
      case _ => []
    }
  }

  /** One completed iteration, appended to the history and never changed. */
  datatype LoopRecord = LoopRecord(
    loopNumber: nat,
    directory: string,
    spec: Spec,
    design: DesignResult,
    execution: ExecutionReport,
    analysis: Analysis,
    timestamp: string)

  /** The four stages of an iteration and the wall clock, as oracles. A stage
      yields None when it raised an exception (including one raised while
      persisting its artifact). `clock(k)` is the timestamp text used by
      iteration k. */
  datatype Stages = Stages(
    extract: (string, nat) -> Option<Spec>,
    design: (Spec, nat) -> Option<DesignResult>,
    execute: (DesignResult, nat) -> Option<ExecutionReport>,
    analyze: (ExecutionReport, Option<LoopRecord>, nat) -> Option<Analysis>,
    clock: nat -> string)

  /** What an LLM call gives back once its text has been looked at: a value
      of the expected shape, text that is not valid JSON, or an exception. */
  datatype LlmReply<T> = Parsed(value: T) | Unparseable | Raised

  /** What a route of one of the two web applications answers: a body, or
      the error status it returns instead. */
  datatype Response<T> = Served(body: T) | BadRequest | NotFound | ServerError {
    function Code(): int {
      match this
      case Served(_) => 200
      case BadRequest => 400
      case NotFound => 404
      case ServerError => 500
    }
  }

  function Last<T>(s: seq<T>): Option<T> {
    if s == [] then None else Some(s[|s| - 1])
  }
}
