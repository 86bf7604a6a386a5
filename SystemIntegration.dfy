/** The integration layer between the loop and the two web applications:
    service availability checks, delegation of test design and execution
    to the applications, the local fallbacks used when an application is
    down, and the choice between the two. HTTP replies are inputs: each
    call the source makes becomes a `Reply` (success value or error text)
    or an oracle function of the call's arguments. */
module SystemIntegration {
  import opened Records
  import opened Text
  import LoopSystem

  /** What a call to one of the applications gave back: the payload of a
      reply with `success` true, or the error text of a failed reply or of
      an exception raised while calling. */
  datatype Reply<T> = Ok(value: T) | Err(error: string)

  // ---------------------------------------------------------------------
  // WebAppChecker

  /** The outcome of `requests.get(url)`: a response, or an exception. */
  datatype Probe = Responded(statusCode: int, contentLength: nat) | ProbeRaised(error: string)

  /** The dictionary `check_app_availability` returns (without the response
      time, a float). */
  datatype Availability = Availability(
    available: bool,
    statusCode: Option<int>,
    contentLength: Option<nat>,
    error: Option<string>)

  /** `check_app_availability`: never raises; an exception becomes an
      unavailable result carrying the error. */
  function CheckAppAvailability(p: Probe): (r: Availability)
    ensures r.available <==> p.Responded? && p.statusCode == 200
    ensures r.statusCode.Some? <==> p.Responded?
    ensures p.Responded? ==> r.statusCode == Some(p.statusCode) && r.contentLength == Some(p.contentLength)
    ensures r.error.Some? <==> p.ProbeRaised?
  {
    match p
    case Responded(code, length) => Availability(code == 200, Some(code), Some(length), None)
    case ProbeRaised(e) => Availability(false, None, None, Some(e))
  }

  const DesignAppName: string := "test_design_app"
  const ExecutionAppName: string := "test_execution_app"
  const DesignAppUrl: string := "http://localhost:5003"
  const ExecutionAppUrl: string := "http://localhost:5001"

  /** The services `check_all_services` probes, in order. */
  const Services: seq<(string, string)> := [(DesignAppName, DesignAppUrl), (ExecutionAppName, ExecutionAppUrl)]

  /** `check_all_services`: one availability entry per service, keyed by
      its name. `probe(url)` is what `requests.get(url)` does. */
  method CheckAllServices(probe: string -> Probe) returns (status: map<string, Availability>)
    ensures status.Keys == {DesignAppName, ExecutionAppName}
    ensures status[DesignAppName] == CheckAppAvailability(probe(DesignAppUrl))
    ensures status[ExecutionAppName] == CheckAppAvailability(probe(ExecutionAppUrl))
  {
    status := map[];
    for i := 0 to |Services|
      invariant status.Keys == set j | 0 <= j < i :: Services[j].0
      invariant forall j :: 0 <= j < i ==> status[Services[j].0] == CheckAppAvailability(probe(Services[j].1))
    {
      var (name, url) := Services[i];
      status := status[name := CheckAppAvailability(probe(url))];
    }
    assert Services[0].0 == DesignAppName && Services[1].0 == ExecutionAppName;
  }

  // ---------------------------------------------------------------------
  // TestDesignIntegration

  /** The test design application as seen from the loop: the reply to
      uploading a specification (the stored file name), the reply to
      starting the design, and the CSV text downloaded for a file name
      ("" when the download failed). */
  datatype DesignService = DesignService(
    upload: string -> Reply<string>,
    design: Reply<DesignDocument>,
    download: string -> string)

  /** A design result together with the content of `test_cases.csv` in the
      iteration's directory (None: the file was not written). */
  datatype DesignOutcome = DesignOutcome(result: DesignResult, csv: Option<string>)

  const UploadSpecFailed: string := "仕様書アップロード失敗: "
  const DesignFailed: string := "テスト設計実行失敗: "

  /** `create_test_design_from_spec`: uploads the specification, starts the
      design and downloads the test case CSV. Any failure gives a failed
      result that reports the fallback as used but carries no test cases. */
  function CreateTestDesignFromSpec(specContent: string, app: DesignService): (r: DesignOutcome)
    ensures r.result.DelegatedDesign? <==> app.upload(specContent).Ok? && app.design.Ok?
    ensures r.result.DelegatedDesign? ==>
      r.result.document == app.design.value &&
      r.result.requirementsCount == |app.design.value.requirements| &&
      r.result.testCasesCount == |app.design.value.testCases| &&
      r.csv == Some(app.download(app.upload(specContent).value))
    ensures !r.result.DelegatedDesign? ==>
      r.result.DelegatedDesignFailed? && r.result.FallbackUsed() && r.result.TestCasesKey() == [] && r.csv == None
    ensures app.upload(specContent).Err? ==> r.result == DelegatedDesignFailed(UploadSpecFailed + app.upload(specContent).error)
  {
    match app.upload(specContent)
    case Err(e) => DesignOutcome(DelegatedDesignFailed(UploadSpecFailed + e), None)
    case Ok(filename) =>
      match app.design
      case Err(e) => DesignOutcome(DelegatedDesignFailed(DesignFailed + e), None)
      case Ok(doc) =>
        DesignOutcome(DelegatedDesign(doc, |doc.requirements|, |doc.testCases|), Some(app.download(filename)))
  }

  // ---------------------------------------------------------------------
  // TestExecutionIntegration

  /** The test execution application as seen from the loop: the parsed
      test cases its upload returns, the execution id `create_execution`
      returns for a case, whether `complete_step` raised for a step (the
      error text), the step's pass/fail coin (`random.random() > 0.2`), the
      status field of `get_execution` (None when absent or the call failed)
      and the file path `export_results` returns on success. */
  datatype ExecutionService = ExecutionService(
    upload: Reply<seq<TestCase>>,
    create: TestCase -> Reply<string>,
    stepError: (string, nat) -> Option<string>,
    stepCoin: (string, nat) -> bool,
    status: string -> Option<Status>,
    exported: string -> Option<string>)

  const UploadCasesFailed: string := "テストケースアップロード失敗: "
  const CreateFailed: string := "実行作成失敗: "
  const UnknownText: string := "unknown"

  /** `_execute_step`: the step's own outcome; a step whose report raised
      is failed and carries the error instead of a result. */
  function StepOutcomeOf(app: ExecutionService, executionId: string, i: nat, description: string): (r: StepOutcome)
    ensures r.stepIndex == i && r.description == description
    ensures r.status == Passed <==> app.stepError(executionId, i).None? && app.stepCoin(executionId, i)
    ensures r.status == Passed || r.status == Failed
    ensures r.error.Some? <==> r.result.None?
    ensures r.error == app.stepError(executionId, i)
  {
    match app.stepError(executionId, i)
    case Some(e) => StepOutcome(i, description, Failed, None, Some(e))
    case None =>
      StepOutcome(i, description, if app.stepCoin(executionId, i) then Passed else Failed,
                  Some("ステップ" + NatToString(i + 1) + "実行結果"), None)
  }

  /** What `_execute_single_test_case` returns for one uploaded case. */
  function CaseOutcome(tc: TestCase, app: ExecutionService): (r: CaseResult)
    ensures r.testCaseId == tc.id.GetOr(UnknownText) && r.testName == tc.name.GetOr(UnknownText)
    ensures app.create(tc).Err? ==>
      r.status == Failed && r.failureReason == Some(CreateFailed + app.create(tc).error) &&
      r.executionId == None && r.stepResults == []
    ensures app.create(tc).Ok? ==> var id := app.create(tc).value;
      r.executionId == Some(id) && r.failureReason == None &&
      r.status == app.status(id).GetOr(Unknown) && r.exportPath == app.exported(id) &&
      |r.stepResults| == |tc.steps| &&
      forall i :: 0 <= i < |tc.steps| ==>
        r.stepResults[i].stepIndex == i && r.stepResults[i].description == tc.steps[i] &&
        r.stepResults[i] == StepOutcomeOf(app, id, i, tc.steps[i])
  {
    var caseId, name := tc.id.GetOr(UnknownText), tc.name.GetOr(UnknownText);
    match app.create(tc)
    case Err(e) => CaseResult(caseId, name, Failed, Some(CreateFailed + e), None, [], None)
    case Ok(id) =>
      var steps := seq(|tc.steps|, i requires 0 <= i < |tc.steps| => StepOutcomeOf(app, id, i, tc.steps[i]));
      CaseResult(caseId, name, app.status(id).GetOr(Unknown), None, Some(id), steps, app.exported(id))
  }

  /** `_execute_single_test_case`: creates an execution, starts it (its
      reply is ignored), reports each step in turn, then reads the status
      and exports the results. */
  method ExecuteSingleTestCase(tc: TestCase, app: ExecutionService) returns (r: CaseResult)
    ensures r == CaseOutcome(tc, app)
  {
    var caseId, name := tc.id.GetOr(UnknownText), tc.name.GetOr(UnknownText);
    var created := app.create(tc);
    if created.Err? {
      return CaseResult(caseId, name, Failed, Some(CreateFailed + created.error), None, [], None);
    }
    var executionId := created.value;
    var stepResults: seq<StepOutcome> := [];
    for i := 0 to |tc.steps|
      invariant |stepResults| == i
      invariant forall j :: 0 <= j < i ==> stepResults[j] == StepOutcomeOf(app, executionId, j, tc.steps[j])
    {
      stepResults := stepResults + [StepOutcomeOf(app, executionId, i, tc.steps[i])];
    }
    var status := app.status(executionId).GetOr(Unknown);
    r := CaseResult(caseId, name, status, None, Some(executionId), stepResults, app.exported(executionId));
  }

  /** How many results have the given status. */
  function CountStatus(rs: seq<CaseResult>, s: Status): (n: nat)
    ensures n <= |rs|
  {
    if rs == [] then 0 else CountStatus(rs[..|rs| - 1], s) + (if rs[|rs| - 1].status == s then 1 else 0)
  }

  /** How many results have any status other than the given one. */
  function CountOtherStatus(rs: seq<CaseResult>, s: Status): nat {
    if rs == [] then 0 else CountOtherStatus(rs[..|rs| - 1], s) + (if rs[|rs| - 1].status != s then 1 else 0)
  }

  /** Every result has the status or another one. */
  lemma {:induction false} CountComplement(rs: seq<CaseResult>, s: Status)
    ensures CountStatus(rs, s) + CountOtherStatus(rs, s) == |rs|
  {
    if rs != [] {
      CountComplement(rs[..|rs| - 1], s);
    }
  }

  /** A status no result has is counted zero times. */
  lemma {:induction false} CountAbsent(rs: seq<CaseResult>, s: Status)
    requires forall i :: 0 <= i < |rs| ==> rs[i].status != s
    ensures CountStatus(rs, s) == 0
  {
    if rs != [] {
      CountAbsent(rs[..|rs| - 1], s);
    }
  }

  /** What `execute_test_cases` returns: one result per uploaded case in
      order; passed counts the results whose status is literally passed
      and every other result counts as failed. A failed upload gives no
      results and zero counts. */
  function DelegatedExecution(app: ExecutionService): (r: ExecutionReport)
    ensures app.upload.Err? ==>
      r.results == [] && r.totalTests == 0 && r.passedTests == 0 && r.failedTests == 0 &&
      r.origin == DelegationFailed(UploadCasesFailed + app.upload.error)
    ensures app.upload.Ok? ==> var cases := app.upload.value;
      r.origin == Delegated && r.testCases == cases &&
      |r.results| == r.totalTests == |cases| &&
      (forall i :: 0 <= i < |cases| ==> r.results[i] == CaseOutcome(cases[i], app)) &&
      r.passedTests == CountStatus(r.results, Passed) &&
      r.failedTests == CountOtherStatus(r.results, Passed) &&
      r.passedTests + r.failedTests == r.totalTests
  {
    match app.upload
    case Err(e) => ExecutionReport([], 0, 0, 0, DelegationFailed(UploadCasesFailed + e), [])
    case Ok(cases) =>
      var results := seq(|cases|, i requires 0 <= i < |cases| => CaseOutcome(cases[i], app));
      var passed := CountStatus(results, Passed);
      CountComplement(results, Passed);
      ExecutionReport(results, |cases|, passed, |cases| - passed, Delegated, cases)
  }

  /** `execute_test_cases`: uploads the CSV, runs each uploaded case in
      turn, then aggregates. */
  method ExecuteTestCases(app: ExecutionService) returns (r: ExecutionReport)
    ensures r == DelegatedExecution(app)
  {
    if app.upload.Err? {
      return ExecutionReport([], 0, 0, 0, DelegationFailed(UploadCasesFailed + app.upload.error), []);
    }
    var cases := app.upload.value;
    var results: seq<CaseResult> := [];
    for i := 0 to |cases|
      invariant |results| == i
      invariant forall j :: 0 <= j < i ==> results[j] == CaseOutcome(cases[j], app)
    {
      var result := ExecuteSingleTestCase(cases[i], app);
      results := results + [result];
    }
    assert results == seq(|cases|, i requires 0 <= i < |cases| => CaseOutcome(cases[i], app));
    var total := |cases|;
    var passed := CountStatus(results, Passed);
    r := ExecutionReport(results, total, passed, total - passed, Delegated, cases);
  }

  /** When the execution application never reports the status passed (its
      executions end as completed), every delegated test counts as failed. */
  lemma DelegatedNeverPasses(app: ExecutionService)
    requires forall id :: app.status(id) != Some(Passed)
    ensures var r := DelegatedExecution(app);
      r.passedTests == 0 && r.failedTests == r.totalTests
  {
    var r := DelegatedExecution(app);
    if app.upload.Ok? {
      forall i | 0 <= i < |r.results|
        ensures r.results[i].status != Passed
      {
        var tc := app.upload.value[i];
        if app.create(tc).Ok? {
          var id := app.create(tc).value;
          assert app.status(id) != Some(Passed);
        }
      }
      CountAbsent(r.results, Passed);
    }
  }

  // ---------------------------------------------------------------------
  // EnhancedLoopController fallbacks

  /** The two test cases `_fallback_test_design` always produces. */
  function FallbackDesignCases(): (cases: seq<TestCase>)
    ensures |cases| == 2
    ensures cases[0].id == Some("TC-001") && cases[1].id == Some("TC-002")
    ensures forall i :: 0 <= i < 2 ==> cases[i].name.Some? && |cases[i].steps| == 2 && |cases[i].expected| == 1
  {
    [ TestCase(Some("TC-001"), "", Some("基本機能確認テスト"), "", [], ["サイトにアクセス", "基本機能を実行"], ["正常動作"], "", ""),
      TestCase(Some("TC-002"), "", Some("UI操作テスト"), "", [], ["画面表示確認", "UI要素操作"], ["適切な応答"], "", "") ]
  }

  /** The column names of the fallback CSV header. */
  const FallbackColumns: seq<string> :=
    ["Test Case ID", "Test Name", "Test Objective", "Test Steps", "Expected Results", "Test Data", "Test Environment"]

  const FallbackCsvHeader: string :=
    "Test Case ID,Test Name,Test Objective,Test Steps,Expected Results,Test Data,Test Environment\n"

  /** The fields of the line the fallback writes for one case, in the
      order it concatenates them: every step and every expected result is a
      quoted field of its own. The fallback only renders its two fixed
      cases, which have an id, a name, steps and expected results. */
  function FallbackRowFields(tc: TestCase): (fields: seq<string>)
    ensures |fields| == 5 + |tc.steps| + |tc.expected|
    ensures fields[3..3 + |tc.steps|] == tc.steps
  {
    [tc.id.GetOr(""), tc.name.GetOr(""), "基本テスト"] + tc.steps + tc.expected + ["標準", "テスト環境"]
  }

  /** The line the fallback writes for one case. */
  function FallbackCsvRow(tc: TestCase): string {
    QuotedLine(FallbackRowFields(tc))
  }

  /** The fallback CSV text: the header, then one line per case in order. */
  function FallbackCsv(cases: seq<TestCase>): string
    decreases |cases|
  {
    if cases == [] then FallbackCsvHeader else FallbackCsv(cases[..|cases| - 1]) + FallbackCsvRow(cases[|cases| - 1])
  }

  /** `_fallback_test_design`: the two cases, and the CSV text written to
      `test_cases.csv`, built by appending one line per case. */
  method FallbackTestDesign() returns (r: DesignOutcome)
    ensures r.result == FallbackDesign(FallbackDesignCases()) && r.result.Success() && r.result.FallbackUsed()
    ensures r.csv == Some(FallbackCsvHeader + FallbackCsvRow(FallbackDesignCases()[0]) + FallbackCsvRow(FallbackDesignCases()[1]))
  {
    var cases := FallbackDesignCases();
    var csv := FallbackCsvHeader;
    for i := 0 to |cases|
      invariant csv == FallbackCsv(cases[..i])
    {
      assert cases[..i + 1][..i] == cases[..i];
      csv := csv + FallbackCsvRow(cases[i]);
    }
    assert cases[..2] == cases && cases[..1] == [cases[0]] && cases[..2][..1] == cases[..1];
    r := DesignOutcome(FallbackDesign(cases), Some(csv));
  }

  /** How a CSV reader keyed by the header sees a row: column `c` holds
      the field at the column's position. */
  function ReadColumn(columns: seq<string>, fields: seq<string>, c: nat): Option<string> {
    if c < |columns| && c < |fields| then Some(fields[c]) else None
  }

  /** The fallback rows have 8 fields under a 7-column header, so a reader
      keyed by the header finds only the first step under "Test Steps" and
      the second step under "Expected Results". */
  lemma FallbackCsvMisaligned()
    ensures forall i :: 0 <= i < 2 ==> |FallbackRowFields(FallbackDesignCases()[i])| == 8 > |FallbackColumns|
    ensures FallbackColumns[3] == "Test Steps" && FallbackColumns[4] == "Expected Results"
    ensures var fields := FallbackRowFields(FallbackDesignCases()[0]);
      ReadColumn(FallbackColumns, fields, 3) == Some("サイトにアクセス") &&
      ReadColumn(FallbackColumns, fields, 4) == Some("基本機能を実行")
  {
  }

  /** The row the header evidently asks for: steps and expected results
      each comma-joined into one field, seven fields in all. */
  function CorrectedRowFields(tc: TestCase): (fields: seq<string>)
    ensures |fields| == |FallbackColumns|
  {
    [tc.id.GetOr(""), tc.name.GetOr(""), "基本テスト", Join(tc.steps, ","), Join(tc.expected, ","), "標準", "テスト環境"]
  }

  /** Read through the header with the execution application's
      split-strip-drop parsing, the corrected row gives back the case's
      steps and expected results. */
  lemma CorrectedRowRoundTrip(tc: TestCase)
    requires forall i :: 0 <= i < |tc.steps| ==> CleanItem(tc.steps[i])
    requires forall i :: 0 <= i < |tc.expected| ==> CleanItem(tc.expected[i])
    ensures ReadColumn(FallbackColumns, CorrectedRowFields(tc), 3).Some?
    ensures SplitList(ReadColumn(FallbackColumns, CorrectedRowFields(tc), 3).value) == tc.steps
    ensures SplitList(ReadColumn(FallbackColumns, CorrectedRowFields(tc), 4).value) == tc.expected
  {
    var fields := CorrectedRowFields(tc);
    assert |FallbackColumns| == 7;
    assert ReadColumn(FallbackColumns, fields, 3) == Some(Join(tc.steps, ","));
    assert ReadColumn(FallbackColumns, fields, 4) == Some(Join(tc.expected, ","));
    SplitListJoin(tc.steps);
    SplitListJoin(tc.expected);
  }

  /** One fallback execution result: `pass` is the coin `random() > 0.3`;
      missing ids and names get numbered defaults. */
  function FallbackCase(tc: TestCase, i: nat, pass: bool): (r: CaseResult)
    ensures r.testCaseId == tc.id.GetOr("TC-" + Pad3(i + 1))
    ensures r.status == (if pass then Passed else Failed)
    ensures r.failureReason.Some? <==> !pass
  {
    CaseResult(tc.id.GetOr("TC-" + Pad3(i + 1)), tc.name.GetOr("テストケース" + NatToString(i + 1)),
               if pass then Passed else Failed, if pass then None else Some(LoopSystem.UnexpectedResult),
               None, [], None)
  }

  /** The per-case results of the fallback execution, in case order. */
  function FallbackResults(cases: seq<TestCase>, coin: nat -> bool): (rs: seq<CaseResult>)
    ensures |rs| == |cases|
    ensures forall i :: 0 <= i < |cases| ==>
      rs[i].testCaseId == cases[i].id.GetOr("TC-" + Pad3(i + 1)) &&
      (rs[i].status == Passed <==> coin(i)) &&
      (rs[i].status == Failed <==> !coin(i)) &&
      (rs[i].failureReason.Some? <==> rs[i].status == Failed)
  {
    var rs := seq(|cases|, i requires 0 <= i < |cases| => FallbackCase(cases[i], i, coin(i)));
    assert forall i :: 0 <= i < |cases| ==> rs[i] == FallbackCase(cases[i], i, coin(i));
    rs
  }

  /** What `_fallback_test_execution` returns for the design's
      `test_cases` list; `coin(i)` is the draw for case i. Every result is
      passed or failed, so the two counts add up to the total. */
  function FallbackExecution(cases: seq<TestCase>, coin: nat -> bool): (r: ExecutionReport)
    ensures r.results == FallbackResults(cases, coin) && r.totalTests == |cases|
    ensures r.passedTests == CountStatus(r.results, Passed) && r.failedTests == CountStatus(r.results, Failed)
    ensures r.passedTests + r.failedTests == r.totalTests
    ensures r.FallbackUsed() && r.testCases == []
  {
    var results := FallbackResults(cases, coin);
    PassedOrFailed(results);
    ExecutionReport(results, |cases|, CountStatus(results, Passed), CountStatus(results, Failed), FallbackRun, [])
  }

  /** Results that are all passed or failed split into the two counts. */
  lemma {:induction false} PassedOrFailed(rs: seq<CaseResult>)
    requires forall i :: 0 <= i < |rs| ==> rs[i].status == Passed || rs[i].status == Failed
    ensures CountStatus(rs, Passed) + CountStatus(rs, Failed) == |rs|
  {
    if rs != [] {
      PassedOrFailed(rs[..|rs| - 1]);
    }
  }

  /** `_fallback_test_execution`: one simulated result per case, in order. */
  method FallbackTestExecution(design: DesignResult, coin: nat -> bool) returns (r: ExecutionReport)
    ensures r == FallbackExecution(design.TestCasesKey(), coin)
  {
    var cases := design.TestCasesKey();
    var results: seq<CaseResult> := [];
    for i := 0 to |cases|
      invariant |results| == i
      invariant forall j :: 0 <= j < i ==> results[j] == FallbackCase(cases[j], j, coin(j))
    {
      var status := if coin(i) then Passed else Failed;
      results := results + [CaseResult(cases[i].id.GetOr("TC-" + Pad3(i + 1)),
                                       cases[i].name.GetOr("テストケース" + NatToString(i + 1)),
                                       status, if status == Failed then Some(LoopSystem.UnexpectedResult) else None,
                                       None, [], None)];
    }
    assert results == FallbackResults(cases, coin);
    r := ExecutionReport(results, |cases|, CountStatus(results, Passed), CountStatus(results, Failed), FallbackRun, []);
  }

  // ---------------------------------------------------------------------
  // EnhancedLoopController branches

  /** `run_integrated_test_design`: delegate when the design application
      answers, otherwise use the fallback. */
  method RunIntegratedTestDesign(probe: string -> Probe, spec: Spec, app: DesignService) returns (r: DesignOutcome)
    ensures CheckAppAvailability(probe(DesignAppUrl)).available ==> r == CreateTestDesignFromSpec(spec.document, app)
    ensures !CheckAppAvailability(probe(DesignAppUrl)).available ==>
      r.result == FallbackDesign(FallbackDesignCases()) && r.csv.Some?
    ensures r.csv.Some? <==> r.result.Success()
  {
    var status := CheckAllServices(probe);
    if status[DesignAppName].available {
      r := CreateTestDesignFromSpec(spec.document, app);
    } else {
      r := FallbackTestDesign();
    }
  }

  /** `run_integrated_test_execution`: delegate when the execution
      application answers and the iteration's `test_cases.csv` exists,
      otherwise use the fallback on the design's `test_cases`. */
  method RunIntegratedTestExecution(probe: string -> Probe, design: DesignOutcome, app: ExecutionService, coin: nat -> bool)
    returns (r: ExecutionReport)
    ensures var delegate := CheckAppAvailability(probe(ExecutionAppUrl)).available && design.csv.Some?;
      (delegate ==> r == DelegatedExecution(app)) &&
      (!delegate ==> r == FallbackExecution(design.result.TestCasesKey(), coin))
    ensures r.FallbackUsed() <==> !(CheckAppAvailability(probe(ExecutionAppUrl)).available && design.csv.Some?)
  {
    var status := CheckAllServices(probe);
    if status[ExecutionAppName].available && design.csv.Some? {
      r := ExecuteTestCases(app);
    } else {
      r := FallbackTestExecution(design.result, coin);
    }
  }

  /** A delegated design carries no top-level test case list, so when the
      execution falls back after it, no test runs. */
  lemma DelegatedDesignStarvesFallback(d: DesignOutcome, coin: nat -> bool)
    requires d.result.DelegatedDesign? || d.result.DelegatedDesignFailed?
    ensures FallbackExecution(d.result.TestCasesKey(), coin).totalTests == 0
  {
  }

  /** A failed delegated design writes no CSV, so the execution always
      falls back and runs no test. */
  lemma FailedDesignRunsNothing(specContent: string, app: DesignService)
    requires !CreateTestDesignFromSpec(specContent, app).result.DelegatedDesign?
    ensures var d := CreateTestDesignFromSpec(specContent, app);
      d.csv.None? && d.result.TestCasesKey() == []
  {
  }
}
