/** The test execution application: executions of uploaded test cases that
    a person steps through, the registry that holds them, the CSV export of
    one execution, and the routes that upload test cases and create an
    execution. Wall-clock readings are passed in as opaque text. */
module ExecutionApp {
  import opened Records
  import opened Text

  /** The text the application stores and exports for a status. */
  function StatusName(s: Status): string {
    match s
    case Pending => "pending"
    case Running => "running"
    case Completed => "completed"
    case Failed => "failed"
    case Passed => "passed"
    case Error => "error"
    case Unknown => "unknown"
  }

  /** `str(x)` of a value that may be None. */
  function PyStr(o: Option<string>): string {
    match o
    case Some(s) => s
    case None => "None"
  }

  /** A step result dictionary handed to `complete_step`; a key the caller
      left out is None. */
  datatype StepRecord = StepRecord(result: Option<string>, status: Option<string>, timestamp: Option<string>, notes: Option<string>)

  /** One entry of the human-intervention log. */
  datatype Intervention = Intervention(kind: string, description: string, result: string, timestamp: string)

  /** The state of one execution, field for field (`to_dict`). */
  datatype ExecutionView = ExecutionView(
    testCaseId: Option<string>,
    testName: Option<string>,
    testSteps: seq<string>,
    expectedResults: seq<string>,
    status: Status,
    currentStep: nat,
    results: seq<StepRecord>,
    interventions: seq<Intervention>,
    startTime: Option<string>,
    endTime: Option<string>,
    executionStyle: string)

  /** What every execution satisfies: its status is pending, running or
      completed (nothing ever sets "failed"); the cursor never passes the
      number of recorded results; a pending execution was never started and
      has a result for every step it counted; a completed one has an end
      time and a cursor at or past its last step. */
  predicate Consistent(v: ExecutionView) {
    (v.status == Pending || v.status == Running || v.status == Completed) &&
    v.currentStep <= |v.results| &&
    (v.status == Pending ==> v.startTime == None && v.currentStep == |v.results|) &&
    (v.status == Completed ==> v.endTime.Some? && v.currentStep >= |v.testSteps|)
  }

  /** A new execution of a test case. */
  function NewExecution(caseId: Option<string>, name: Option<string>, steps: seq<string>, expected: seq<string>): (v: ExecutionView)
    ensures Consistent(v) && v.status == Pending && v.results == [] && v.interventions == []
  {
    ExecutionView(caseId, name, steps, expected, Pending, 0, [], [], None, None, "manual")
  }

  /** `start_execution`: the status becomes running and the cursor returns
      to 0, while results recorded by an earlier run are kept. */
  function Started(v: ExecutionView, now: string): (r: ExecutionView)
    ensures Consistent(r)
    ensures r.status == Running && r.currentStep == 0 && r.startTime == Some(now)
    ensures r.results == v.results && r.interventions == v.interventions && r.testSteps == v.testSteps
  {
    v.(status := Running, currentStep := 0, startTime := Some(now))
  }

  /** `complete_step`: one result is appended and the cursor advances by
      one, whatever the status; the execution becomes completed, with an end
      time, once the cursor reaches the number of steps. */
  function StepCompleted(v: ExecutionView, step: StepRecord, now: string): (r: ExecutionView)
    ensures r.results == v.results + [step] && r.currentStep == v.currentStep + 1
    ensures r.status == (if v.currentStep + 1 >= |v.testSteps| then Completed else v.status)
    ensures r.testSteps == v.testSteps && r.interventions == v.interventions && r.startTime == v.startTime
    ensures Consistent(v) ==> Consistent(r)
  {
    var w := v.(results := v.results + [step], currentStep := v.currentStep + 1);
    if w.currentStep >= |v.testSteps| then w.(status := Completed, endTime := Some(now)) else w
  }

  /** `add_human_intervention`: the entry is appended to the log and
      nothing else changes. */
  function Intervened(v: ExecutionView, entry: Intervention): (r: ExecutionView)
    ensures r.interventions == v.interventions + [entry]
    ensures r.(interventions := v.interventions) == v
    ensures Consistent(r) <==> Consistent(v)
  {
    v.(interventions := v.interventions + [entry])
  }

  /** Completing the steps of `rs` one after another. */
  function StepsCompleted(v: ExecutionView, rs: seq<StepRecord>, now: string): ExecutionView
    decreases |rs|
  {
    if rs == [] then v else StepsCompleted(StepCompleted(v, rs[0], now), rs[1..], now)
  }

  /** After a run of step completions the results grew by exactly those
      records, the cursor by their number, and the execution is completed
      exactly when it was already, or when some completion brought the
      cursor to the number of steps. */
  lemma {:induction false} StepsCompletedState(v: ExecutionView, rs: seq<StepRecord>, now: string)
    ensures var r := StepsCompleted(v, rs, now);
      r.results == v.results + rs && r.currentStep == v.currentStep + |rs| && r.testSteps == v.testSteps &&
      r.status == (if v.status == Completed || (rs != [] && v.currentStep + |rs| >= |v.testSteps|) then Completed else v.status)
    decreases |rs|
  {
    if rs != [] {
      var v1 := StepCompleted(v, rs[0], now);
      StepsCompletedState(v1, rs[1..], now);
      assert v.results + [rs[0]] + rs[1..] == v.results + rs;
    }
  }

  /** Started and then stepped through, an execution is running until one
      result per step has been recorded and completed from then on; an
      execution with no steps stays running until its first result. */
  lemma StartedThenStepped(v: ExecutionView, started: string, rs: seq<StepRecord>, now: string)
    ensures var r := StepsCompleted(Started(v, started), rs, now);
      r.currentStep == |rs| && r.results == v.results + rs &&
      (r.status == Completed <==> rs != [] && |rs| >= |v.testSteps|) &&
      (r.status != Completed ==> r.status == Running)
  {
    StepsCompletedState(Started(v, started), rs, now);
  }

  /** One execution, updated in place by the routes. */
  class TestExecution {
    const testCaseId: Option<string>
    const testName: Option<string>
    const testSteps: seq<string>
    const expectedResults: seq<string>
    var status: Status
    var currentStep: nat
    var results: seq<StepRecord>
    var humanInterventions: seq<Intervention>
    var startTime: Option<string>
    var endTime: Option<string>
    var executionStyle: string

    function View(): ExecutionView
      reads this
    {
      ExecutionView(testCaseId, testName, testSteps, expectedResults, status, currentStep, results,
                    humanInterventions, startTime, endTime, executionStyle)
    }

    predicate Valid()
      reads this
    {
      Consistent(View())
    }

    constructor (caseId: Option<string>, name: Option<string>, steps: seq<string>, expected: seq<string>)
      ensures View() == NewExecution(caseId, name, steps, expected)
      ensures Valid()
    {
      testCaseId := caseId;
      testName := name;
      testSteps := steps;
      expectedResults := expected;
      status := Pending;
      currentStep := 0;
      results := [];
      humanInterventions := [];
      startTime := None;
      endTime := None;
      executionStyle := "manual";
    }

    method StartExecution(now: string)
      modifies this
      ensures View() == Started(old(View()), now)
      ensures Valid()
    {
      startTime := Some(now);
      status := Running;
      currentStep := 0;
    }

    method CompleteStep(step: StepRecord, now: string)
      requires Valid()
      modifies this
      ensures View() == StepCompleted(old(View()), step, now)
      ensures Valid()
    {
      results := results + [step];
      currentStep := currentStep + 1;
      if currentStep >= |testSteps| {
        status := Completed;
        endTime := Some(now);
      }
    }

    method AddHumanIntervention(kind: string, description: string, result: string, now: string)
      requires Valid()
      modifies this
      ensures View() == Intervened(old(View()), Intervention(kind, description, result, now))
      ensures Valid()
    {
      humanInterventions := humanInterventions + [Intervention(kind, description, result, now)];
    }
  }

  /** The id of an execution created at `stamp` (`%Y%m%d_%H%M%S`). */
  function ExecutionId(stamp: string, caseId: Option<string>): string {
    "exec_" + stamp + "_" + PyStr(caseId)
  }

  /** The file an export is written to. */
  function ExportPath(id: string, stamp: string): string {
    "test_results/test_execution_" + id + "_" + stamp + ".csv"
  }

  /** An export: the file's path and its rows, each a list of fields. */
  datatype Export = Export(filepath: string, rows: seq<seq<string>>)

  const SummaryHeader: seq<string> :=
    ["Test Case ID", "Test Name", "Status", "Execution Style", "Start Time", "End Time", "Total Steps", "Completed Steps"]
  const StepHeader: seq<string> := ["Step", "Result", "Status", "Timestamp"]
  const InterventionHeader: seq<string> := ["Type", "Description", "Result", "Timestamp"]

  /** The summary row; a None cell is written as an empty field. */
  function SummaryRow(v: ExecutionView): seq<string> {
    [v.testCaseId.GetOr(""), v.testName.GetOr(""), StatusName(v.status), v.executionStyle,
     v.startTime.GetOr(""), v.endTime.GetOr(""), NatToString(|v.testSteps|), NatToString(v.currentStep)]
  }

  function StepRow(n: nat, r: StepRecord): seq<string> {
    [NatToString(n), r.result.GetOr(""), r.status.GetOr(""), r.timestamp.GetOr("")]
  }

  function InterventionRow(e: Intervention): seq<string> {
    [e.kind, e.description, e.result, e.timestamp]
  }

  /** The rows of the first `n` step results, numbered from 1. */
  function StepRows(rs: seq<StepRecord>, n: nat): seq<seq<string>>
    requires n <= |rs|
  {
    seq(n, i requires 0 <= i < n => StepRow(i + 1, rs[i]))
  }

  /** The rows of the first `n` log entries. */
  function InterventionRows(es: seq<Intervention>, n: nat): seq<seq<string>>
    requires n <= |es|
  {
    seq(n, i requires 0 <= i < n => InterventionRow(es[i]))
  }

  /** The rows written before the step results. */
  function ExportHead(v: ExecutionView): seq<seq<string>> {
    [SummaryHeader, SummaryRow(v), [], StepHeader]
  }

  /** The intervention section: present only when the log is non-empty. */
  function InterventionSection(es: seq<Intervention>): seq<seq<string>> {
    if es == [] then [] else [[], ["Human Interventions"], InterventionHeader] + InterventionRows(es, |es|)
  }

  /** The rows `export_results` writes: the summary header and row, an
      empty row, the step header, one numbered row per recorded result, and
      the intervention section when the log is non-empty. */
  function ExportRows(v: ExecutionView): (rows: seq<seq<string>>)
    ensures |rows| == 4 + |v.results| + (if v.interventions == [] then 0 else 3 + |v.interventions|)
    ensures |rows[0]| == |rows[1]| == 8
    ensures rows[0][6] == "Total Steps" && rows[1][6] == NatToString(|v.testSteps|)
    ensures rows[0][7] == "Completed Steps" && rows[1][7] == NatToString(v.currentStep)
    ensures rows[1][2] == StatusName(v.status)
    ensures forall i :: 4 <= i < 4 + |v.results| ==> |rows[i]| == 4 && rows[i][1] == v.results[i - 4].result.GetOr("")
    ensures v.interventions != [] ==> rows[5 + |v.results|] == ["Human Interventions"]
    ensures forall j :: 0 <= j < |v.interventions| ==> rows[7 + |v.results| + j] == InterventionRow(v.interventions[j])
  {
    var rows := ExportHead(v) + StepRows(v.results, |v.results|) + InterventionSection(v.interventions);
    assert forall i :: 4 <= i < 4 + |v.results| ==> rows[i] == StepRow(i - 3, v.results[i - 4]);
    rows
  }

  /** Read back, the export gives the number of steps, the cursor, and the
      numbers 1..n of the step rows. */
  lemma ExportReadBack(v: ExecutionView)
    ensures var rows := ExportRows(v);
      DigitsValue(rows[1][6]) == |v.testSteps| && DigitsValue(rows[1][7]) == v.currentStep &&
      forall i :: 4 <= i < 4 + |v.results| ==> DigitsValue(rows[i][0]) == i - 3
  {
    var rows := ExportRows(v);
    NatToStringValue(|v.testSteps|);
    NatToStringValue(v.currentStep);
    forall i | 4 <= i < 4 + |v.results|
      ensures DigitsValue(rows[i][0]) == i - 3
    {
      assert rows[i] == StepRow(i - 3, v.results[i - 4]);
      NatToStringValue(i - 3);
    }
  }

  /** The registry of executions, keyed by execution id. */
  class TestExecutionManager {
    var executions: map<string, TestExecution>

    predicate Valid()
      reads this, executions.Values
    {
      forall id | id in executions :: executions[id].Valid()
    }

    constructor ()
      ensures executions == map[] && Valid()
    {
      executions := map[];
    }

    /** `create_execution`: a fresh execution of the case under an id made
        of the creation time and the case id; an execution already held
        under that id is replaced. */
    method CreateExecution(tc: TestCase, style: string, stamp: string) returns (id: string)
      requires Valid()
      modifies this
      ensures id == ExecutionId(stamp, tc.id)
      ensures id in executions && fresh(executions[id])
      ensures executions == old(executions)[id := executions[id]]
      ensures executions[id].View() == NewExecution(tc.id, tc.name, tc.steps, tc.expected).(executionStyle := style)
      ensures Valid()
    {
      id := ExecutionId(stamp, tc.id);
      var e := new TestExecution(tc.id, tc.name, tc.steps, tc.expected);
      e.executionStyle := style;
      executions := executions[id := e];
    }

    /** `start_execution`; an unknown id changes nothing. */
    method StartExecution(id: string, now: string)
      requires Valid()
      modifies if id in executions then {executions[id]} else {}
      ensures id in executions ==> executions[id].View() == Started(old(executions[id].View()), now)
      ensures id !in executions ==> unchanged(executions.Values)
      ensures Valid()
    {
      if id in executions {
        executions[id].StartExecution(now);
      }
    }

    /** `complete_step`; an unknown id changes nothing. */
    method CompleteStep(id: string, step: StepRecord, now: string)
      requires Valid()
      modifies if id in executions then {executions[id]} else {}
      ensures id in executions ==> executions[id].View() == StepCompleted(old(executions[id].View()), step, now)
      ensures id !in executions ==> unchanged(executions.Values)
      ensures Valid()
    {
      if id in executions {
        executions[id].CompleteStep(step, now);
      }
    }

    /** `add_human_intervention`; an unknown id changes nothing. */
    method AddHumanIntervention(id: string, kind: string, description: string, result: string, now: string)
      requires Valid()
      modifies if id in executions then {executions[id]} else {}
      ensures id in executions ==>
        executions[id].View() == Intervened(old(executions[id].View()), Intervention(kind, description, result, now))
      ensures id !in executions ==> unchanged(executions.Values)
      ensures Valid()
    {
      if id in executions {
        executions[id].AddHumanIntervention(kind, description, result, now);
      }
    }

    /** `export_results`: None for an unknown id, otherwise the rows of the
        execution's CSV file, written one after another. */
    method ExportResults(id: string, stamp: string) returns (r: Option<Export>)
      ensures id !in executions ==> r == None
      ensures id in executions ==> r == Some(Export(ExportPath(id, stamp), ExportRows(executions[id].View())))
    {
      if id !in executions {
        return None;
      }
      var e := executions[id];
      var v := e.View();
      var rows := ExportHead(v);
      for i := 0 to |v.results|
        invariant rows == ExportHead(v) + StepRows(v.results, i)
      {
        assert StepRows(v.results, i + 1) == StepRows(v.results, i) + [StepRow(i + 1, v.results[i])];
        rows := rows + [StepRow(i + 1, v.results[i])];
      }
      if v.interventions != [] {
        var head := ExportHead(v) + StepRows(v.results, |v.results|) + [[], ["Human Interventions"], InterventionHeader];
        rows := rows + [[], ["Human Interventions"], InterventionHeader];
        for j := 0 to |v.interventions|
          invariant rows == head + InterventionRows(v.interventions, j)
        {
          assert InterventionRows(v.interventions, j + 1) ==
                 InterventionRows(v.interventions, j) + [InterventionRow(v.interventions[j])];
          rows := rows + [InterventionRow(v.interventions[j])];
        }
        assert InterventionSection(v.interventions) ==
               [[], ["Human Interventions"], InterventionHeader] + InterventionRows(v.interventions, |v.interventions|);
      } else {
        assert rows == rows + InterventionSection(v.interventions);
      }
      assert rows == ExportHead(v) + StepRows(v.results, |v.results|) + InterventionSection(v.interventions);
      assert rows == ExportRows(v);
      r := Some(Export(ExportPath(id, stamp), rows));
    }
  }

  // ---------------------------------------------------------------------
  // Upload of a test case file

  /** `csv.DictReader`'s view of a row: each header name maps to the field
      at its position, or to None (the reader's `restval`) when the row is
      shorter than the header; a repeated name keeps its last position. */
  function RowDict(header: seq<string>, fields: seq<string>): (d: map<string, Option<string>>)
    ensures forall k :: k in d <==> k in header
    decreases |header|
  {
    if header == [] then map[]
    else
      var n := |header| - 1;
      RowDict(header[..n], fields)[header[n] := if n < |fields| then Some(fields[n]) else None]
  }

  /** A name that does not occur again later in the header is read from
      its own position. */
  lemma {:induction false} RowDictAt(header: seq<string>, fields: seq<string>, i: nat)
    requires i < |header|
    requires forall j :: i < j < |header| ==> header[j] != header[i]
    ensures RowDict(header, fields)[header[i]] == if i < |fields| then Some(fields[i]) else None
    decreases |header|
  {
    var n := |header| - 1;
    if i < n {
      RowDictAt(header[..n], fields, i);
    }
  }

  /** `row.get(key, "")`. */
  function Field(d: map<string, Option<string>>, key: string): Option<string> {
    if key in d then d[key] else Some("")
  }

  /** The test case built from one row. The step and expected-result lists
      are split on commas, stripped and emptied items dropped; a None there
      makes `.split` raise (None). Other None cells are read as "". */
  function ParseRow(d: map<string, Option<string>>): (r: Option<TestCase>)
    ensures r.Some? <==> Field(d, "Test Steps").Some? && Field(d, "Expected Results").Some?
    ensures r.Some? ==> r.value.steps == SplitList(Field(d, "Test Steps").value) &&
                        r.value.expected == SplitList(Field(d, "Expected Results").value) &&
                        r.value.id == Field(d, "Test Case ID") && r.value.name == Field(d, "Test Name")
    ensures r.Some? ==> r.value.objective == Field(d, "Test Objective").GetOr("") &&
                        r.value.testData == Field(d, "Test Data").GetOr("") &&
                        r.value.environment == Field(d, "Test Environment").GetOr("")
  {
    var steps := Field(d, "Test Steps");
    var expected := Field(d, "Expected Results");
    if steps.None? || expected.None? then None
    else
      Some(TestCase(Field(d, "Test Case ID"), "", Field(d, "Test Name"), Field(d, "Test Objective").GetOr(""), [],
                    SplitList(steps.value), SplitList(expected.value),
                    Field(d, "Test Data").GetOr(""), Field(d, "Test Environment").GetOr("")))
  }

  /** The cases read before the first row that raised, and whether no row
      raised. */
  datatype UploadParse = UploadParse(cases: seq<TestCase>, ok: bool)

  /** Reading the data rows in order; blank rows are skipped. */
  function ParseRows(read: seq<string> -> Option<TestCase>, rows: seq<seq<string>>): (p: UploadParse)
    ensures |p.cases| <= |rows|
    decreases |rows|
  {
    if rows == [] then UploadParse([], true)
    else if rows[0] == [] then ParseRows(read, rows[1..])
    else
      match read(rows[0])
      case None => UploadParse([], false)
      case Some(tc) =>
        var rest := ParseRows(read, rows[1..]);
        UploadParse([tc] + rest.cases, rest.ok)
  }

  /** The reading succeeds exactly when no non-blank row raises (for an
      upload: has a None step or expected-result cell). */
  lemma {:induction false} ParseRowsOk(read: seq<string> -> Option<TestCase>, rows: seq<seq<string>>)
    ensures var p := ParseRows(read, rows);
      p.ok <==> forall i :: 0 <= i < |rows| && rows[i] != [] ==> read(rows[i]).Some?
    decreases |rows|
  {
    if rows != [] {
      ParseRowsOk(read, rows[1..]);
      assert forall i :: 1 <= i < |rows| ==> rows[i] == rows[1..][i - 1];
    }
  }

  /** The rows that are not blank, in order. */
  function NonBlank(rows: seq<seq<string>>): (r: seq<seq<string>>)
    ensures |r| <= |rows| && forall k :: 0 <= k < |r| ==> r[k] != []
  {
    if rows == [] then [] else (if rows[0] == [] then [] else [rows[0]]) + NonBlank(rows[1..])
  }

  /** With `n` the position of the first non-blank row that raises (or the
      number of rows when none does), the cases read are the parses of the
      non-blank rows before `n`, in order, and the reading succeeds exactly
      when no row raised. */
  lemma {:induction false} ParseRowsCases(read: seq<string> -> Option<TestCase>, rows: seq<seq<string>>, n: nat)
    requires n <= |rows|
    requires forall i :: 0 <= i < n && rows[i] != [] ==> read(rows[i]).Some?
    requires n < |rows| ==> rows[n] != [] && read(rows[n]).None?
    ensures var p, nb := ParseRows(read, rows), NonBlank(rows[..n]);
      (p.ok <==> n == |rows|) && |p.cases| == |nb| &&
      forall k :: 0 <= k < |nb| ==> read(nb[k]) == Some(p.cases[k])
    decreases |rows|
  {
    if rows != [] && n > 0 {
      var tail := rows[1..];
      assert rows[..n][0] == rows[0] && rows[..n][1..] == tail[..n - 1];
      assert forall i :: 0 <= i < n - 1 ==> tail[i] == rows[i + 1];
      ParseRowsCases(read, tail, n - 1);
      var nb, rest := NonBlank(tail[..n - 1]), ParseRows(read, tail);
      if rows[0] == [] {
        assert NonBlank(rows[..n]) == nb;
        assert ParseRows(read, rows) == rest;
      } else {
        assert NonBlank(rows[..n]) == [rows[0]] + nb;
        assert ParseRows(read, rows) == UploadParse([read(rows[0]).value] + rest.cases, rest.ok);
      }
    } else if rows != [] {
      assert rows[..n] == [];
    }
  }

  /** How a data row is read under `header`. */
  function RowReader(header: seq<string>): seq<string> -> Option<TestCase> {
    row => ParseRow(RowDict(header, row))
  }

  /** The whole file: the first record is the header. */
  function ReadUpload(records: seq<seq<string>>): UploadParse {
    if records == [] then UploadParse([], true) else ParseRows(RowReader(records[0]), records[1..])
  }

  /** One row of the reading: skipped, raised, or read. */
  lemma ParseRowsCons(read: seq<string> -> Option<TestCase>, rows: seq<seq<string>>)
    requires rows != []
    ensures rows[0] == [] ==> ParseRows(read, rows) == ParseRows(read, rows[1..])
    ensures rows[0] != [] && read(rows[0]).None? ==> ParseRows(read, rows) == UploadParse([], false)
    ensures rows[0] != [] && read(rows[0]).Some? ==>
      var rest := ParseRows(read, rows[1..]);
      ParseRows(read, rows) == UploadParse([read(rows[0]).value] + rest.cases, rest.ok)
  {
  }

  /** The row loop of `upload_test_cases`: cases are appended in order and
      the first row that raises ends the loop. */
  method ReadRows(read: seq<string> -> Option<TestCase>, rows: seq<seq<string>>) returns (p: UploadParse)
    ensures p == ParseRows(read, rows)
  {
    var cases: seq<TestCase> := [];
    var i := 0;
    while i < |rows|
      invariant 0 <= i <= |rows|
      invariant var rest := ParseRows(read, rows[i..]);
        ParseRows(read, rows) == UploadParse(cases + rest.cases, rest.ok)
    {
      var here := rows[i..];
      assert here[0] == rows[i] && here[1..] == rows[i + 1..];
      ParseRowsCons(read, here);
      if rows[i] != [] {
        var tc := read(rows[i]);
        if tc.None? {
          assert cases + [] == cases;
          return UploadParse(cases, false);
        }
        var rest := ParseRows(read, rows[i + 1..]);
        assert cases + ([tc.value] + rest.cases) == (cases + [tc.value]) + rest.cases;
        cases := cases + [tc.value];
      }
      i := i + 1;
    }
    assert rows[i..] == [];
    assert cases + [] == cases;
    p := UploadParse(cases, true);
  }

  /** An upload request: no file part, or a file with its name and its
      records (None: the content is not UTF-8 text). */
  datatype Upload = NoFile | File(filename: string, records: Option<seq<seq<string>>>)

  /** The index of the first case with the requested id (`tc['test_case_id']
      == test_case_id` then `break`). */
  function FirstMatch(cases: seq<TestCase>, wanted: Option<string>): (r: Option<nat>)
    ensures r.Some? ==> r.value < |cases| && cases[r.value].id == wanted &&
                        forall j :: 0 <= j < r.value ==> cases[j].id != wanted
    ensures r.None? ==> forall j :: 0 <= j < |cases| ==> cases[j].id != wanted
    decreases |cases|
  {
    if cases == [] then None
    else if cases[0].id == wanted then Some(0)
    else
      match FirstMatch(cases[1..], wanted)
      case None => None
      case Some(j) => Some(j + 1)
  }

  /** The linear search of `create_execution`. */
  method FindTestCase(cases: seq<TestCase>, wanted: Option<string>) returns (found: Option<TestCase>)
    ensures found.None? <==> FirstMatch(cases, wanted).None?
    ensures found.Some? ==> found.value == cases[FirstMatch(cases, wanted).value]
  {
    found := None;
    var i := 0;
    while i < |cases|
      invariant 0 <= i <= |cases|
      invariant found.None? && forall j :: 0 <= j < i ==> cases[j].id != wanted
    {
      if cases[i].id == wanted {
        found := Some(cases[i]);
        break;
      }
      i := i + 1;
    }
    if found.Some? {
      assert cases[i].id == wanted && forall j :: 0 <= j < i ==> cases[j].id != wanted;
      assert FirstMatch(cases, wanted) == Some(i) by {
        var m := FirstMatch(cases, wanted);
        assert m.Some?;
        assert !(m.value < i) && !(i < m.value);
      }
    }
  }

  /** What `create_execution` answers: the new execution's id and the case. */
  datatype Created = Created(executionId: string, testCase: TestCase)

  const DefaultExecutionStyle: string := "Manual Trigger Driven"

  /** The application's global state: the uploaded cases and the registry. */
  class ExecutionServer {
    var testCases: seq<TestCase>
    const manager: TestExecutionManager

    constructor ()
      ensures testCases == [] && fresh(manager) && manager.executions == map[] && manager.Valid()
    {
      testCases := [];
      manager := new TestExecutionManager();
    }

    /** `upload_test_cases`: 400 without a file or with an empty file name,
        500 when the content is not text; otherwise the cases replace the
        uploaded list one row at a time, and a row whose step or
        expected-result cell is None stops the upload with 500, keeping the
        cases read before it. */
    method UploadTestCases(req: Upload) returns (resp: Response<seq<TestCase>>)
      modifies this
      ensures (req.NoFile? || req.filename == "") ==> resp == BadRequest && testCases == old(testCases)
      ensures req.File? && req.filename != "" && req.records.None? ==>
        resp == ServerError && testCases == old(testCases)
      ensures req.File? && req.filename != "" && req.records.Some? ==>
        var p := ReadUpload(req.records.value);
        testCases == p.cases && resp == (if p.ok then Served(p.cases) else ServerError)
    {
      if req.NoFile? || req.filename == "" {
        return BadRequest;
      }
      if req.records.None? {
        return ServerError;
      }
      var records := req.records.value;
      if records == [] {
        testCases := [];
        return Served(testCases);
      }
      var p := ReadRows(RowReader(records[0]), records[1..]);
      testCases := p.cases;
      resp := if p.ok then Served(p.cases) else ServerError;
    }

    /** `create_execution`: 404 when no uploaded case has the requested id;
        otherwise an execution of the first such case is created. */
    method CreateExecution(wanted: Option<string>, style: Option<string>, stamp: string) returns (resp: Response<Created>)
      requires manager.Valid()
      modifies manager
      ensures FirstMatch(testCases, wanted).None? ==>
        resp == NotFound && manager.executions == old(manager.executions)
      ensures FirstMatch(testCases, wanted).Some? ==>
        var tc := testCases[FirstMatch(testCases, wanted).value];
        var id := ExecutionId(stamp, tc.id);
        resp == Served(Created(id, tc)) && id in manager.executions &&
        manager.executions == old(manager.executions)[id := manager.executions[id]] &&
        manager.executions[id].View() ==
          NewExecution(tc.id, tc.name, tc.steps, tc.expected).(executionStyle := style.GetOr(DefaultExecutionStyle))
      ensures manager.Valid()
    {
      var found := FindTestCase(testCases, wanted);
      if found.None? {
        return NotFound;
      }
      var id := manager.CreateExecution(found.value, style.GetOr(DefaultExecutionStyle), stamp);
      resp := Served(Created(id, found.value));
    }
  }
}
