/** The test design application: specialised agents turn a specification
    into requirements, risks and test cases, their answers are merged into
    one design document, and the test cases are offered as CSV text that the
    execution application can upload. LLM calls are oracles. */
module DesignApp {
  import opened Records
  import opened Text
  import ExecutionApp

  datatype Agent = Agent(name: string, role: string, model: string)

  /** The four agents the design system is configured with, in order. */
  const ConfiguredAgents: seq<Agent> := [
    Agent("Requirements_Analyst", "要求分析エキスパート", "llama3.2"),
    Agent("Test_Designer", "テスト設計エキスパート", "llama3.2"),
    Agent("Quality_Assurance", "品質保証エキスパート", "llama3.2"),
    Agent("Risk_Analyst", "リスク分析エキスパート", "llama3.2")]

  /** What an agent's requirement analysis holds: `test_requirements` and
      `risk_areas`, each read as [] when the key is missing. */
  datatype AgentAnalysis = AgentAnalysis(requirements: seq<Requirement>, risks: seq<Risk>)

  /** The LLM, as oracles: the reply to an analysis prompt (agent and
      specification) and to a design prompt (agent, merged requirements and
      specification). */
  datatype DesignLlm = DesignLlm(
    analyze: (Agent, string) -> LlmReply<AgentAnalysis>,
    design: (Agent, seq<Requirement>, string) -> LlmReply<seq<TestCase>>)

  /** `analyze_requirements`: text that is not JSON gives empty lists; an
      exception from the LLM call is not caught (None). */
  function AnalyzeRequirements(reply: LlmReply<AgentAnalysis>): (r: Option<AgentAnalysis>)
    ensures r.None? <==> reply.Raised?
    ensures reply.Unparseable? ==> r == Some(AgentAnalysis([], []))
    ensures reply.Parsed? ==> r == Some(reply.value)
  {
    match reply
    case Parsed(v) => Some(v)
    case Unparseable => Some(AgentAnalysis([], []))
    case Raised => None
  }

  /** `create_test_design`: text that is not JSON gives no test cases; an
      exception from the LLM call is not caught (None). */
  function CreateTestDesign(reply: LlmReply<seq<TestCase>>): (r: Option<seq<TestCase>>)
    ensures r.None? <==> reply.Raised?
    ensures reply.Unparseable? ==> r == Some([])
    ensures reply.Parsed? ==> r == Some(reply.value)
  {
    match reply
    case Parsed(v) => Some(v)
    case Unparseable => Some([])
    case Raised => None
  }

  predicate IsRequirementsAgent(a: Agent) {
    Contains(a.name, "Requirements") || Contains(a.name, "Risk")
  }

  predicate IsDesignAgent(a: Agent) {
    Contains(a.name, "Design") || Contains(a.name, "Quality")
  }

  /** The agents a step consults, in their configured order. */
  function Picked(agents: seq<Agent>, pick: Agent -> bool): (r: seq<Agent>)
    ensures |r| <= |agents|
    ensures forall i :: 0 <= i < |r| ==> pick(r[i]) && r[i] in agents
    decreases |agents|
  {
    if agents == [] then []
    else
      var prev := Picked(agents[..|agents| - 1], pick);
      var a := agents[|agents| - 1];
      if pick(a) then prev + [a] else prev
  }

  /** Every agent of the step's kind is consulted, and no other. */
  lemma {:induction false} PickedMembers(agents: seq<Agent>, pick: Agent -> bool)
    ensures forall a :: a in Picked(agents, pick) <==> a in agents && pick(a)
    decreases |agents|
  {
    if agents != [] {
      var prefix, last := agents[..|agents| - 1], agents[|agents| - 1];
      PickedMembers(prefix, pick);
      assert agents == prefix + [last];
    }
  }

  /** Consulting keeps the configured order: the agents picked from a
      concatenation are those picked from each part, one part after the
      other. */
  lemma {:induction false} PickedAppend(xs: seq<Agent>, ys: seq<Agent>, pick: Agent -> bool)
    ensures Picked(xs + ys, pick) == Picked(xs, pick) + Picked(ys, pick)
    decreases |ys|
  {
    if ys == [] {
      assert xs + ys == xs;
    } else {
      var prefix, last := ys[..|ys| - 1], ys[|ys| - 1];
      PickedAppend(xs, prefix, pick);
      assert (xs + ys)[..|xs + ys| - 1] == xs + prefix;
    }
  }

  /** The results of calling each picked agent in order; None as soon as a
      call raises. */
  function Collect<R>(agents: seq<Agent>, pick: Agent -> bool, call: Agent -> Option<R>): Option<seq<R>>
    decreases |agents|
  {
    if agents == [] then Some([])
    else
      var a := agents[|agents| - 1];
      match Collect(agents[..|agents| - 1], pick, call)
      case None => None
      case Some(prev) =>
        if !pick(a) then Some(prev)
        else
          match call(a)
          case None => None
          case Some(r) => Some(prev + [r])
  }

  /** `rs` holds, in order, what each agent of `ps` answered. */
  ghost predicate Answered<R>(call: Agent -> Option<R>, ps: seq<Agent>, rs: seq<R>) {
    |rs| == |ps| && forall i :: 0 <= i < |ps| ==> call(ps[i]) == Some(rs[i])
  }

  lemma {:induction false} CollectAnswers<R>(agents: seq<Agent>, pick: Agent -> bool, call: Agent -> Option<R>)
    requires Collect(agents, pick, call).Some?
    ensures Answered(call, Picked(agents, pick), Collect(agents, pick, call).value)
    decreases |agents|
  {
    if agents != [] {
      var prefix, a := agents[..|agents| - 1], agents[|agents| - 1];
      CollectAnswers(prefix, pick, call);
      if pick(a) {
        var ps, prev := Picked(prefix, pick), Collect(prefix, pick, call).value;
        var qs, all := ps + [a], prev + [call(a).value];
        assert Collect(agents, pick, call).value == all;
        assert forall i :: 0 <= i < |ps| ==> qs[i] == ps[i] && all[i] == prev[i];
      }
    }
  }

  lemma {:induction false} CollectRaises<R>(agents: seq<Agent>, pick: Agent -> bool, call: Agent -> Option<R>)
    requires Collect(agents, pick, call).None?
    ensures exists i :: 0 <= i < |Picked(agents, pick)| && call(Picked(agents, pick)[i]).None?
    decreases |agents|
  {
    var prefix, a := agents[..|agents| - 1], agents[|agents| - 1];
    var ps := Picked(prefix, pick);
    if Collect(prefix, pick, call).None? {
      CollectRaises(prefix, pick, call);
      var i :| 0 <= i < |ps| && call(ps[i]).None?;
      assert Picked(agents, pick)[i] == ps[i];
    } else {
      assert Picked(agents, pick) == ps + [a];
      assert Picked(agents, pick)[|ps|] == a;
    }
  }

  /** A step yields one result per picked agent, in order, exactly when no
      picked agent's call raises. */
  lemma CollectPicked<R>(agents: seq<Agent>, pick: Agent -> bool, call: Agent -> Option<R>)
    ensures var ps := Picked(agents, pick);
      (Collect(agents, pick, call).Some? <==> forall i :: 0 <= i < |ps| ==> call(ps[i]).Some?) &&
      (Collect(agents, pick, call).Some? ==> Answered(call, ps, Collect(agents, pick, call).value))
  {
    if Collect(agents, pick, call).Some? {
      CollectAnswers(agents, pick, call);
    } else {
      CollectRaises(agents, pick, call);
    }
  }

  /** Python's repeated `list.extend`: the lists one after another. */
  function Flatten<T>(xss: seq<seq<T>>): (r: seq<T>)
    ensures |r| == TotalLength(xss)
    decreases |xss|
  {
    if xss == [] then [] else Flatten(xss[..|xss| - 1]) + xss[|xss| - 1]
  }

  function TotalLength<T>(xss: seq<seq<T>>): nat
    decreases |xss|
  {
    if xss == [] then 0 else TotalLength(xss[..|xss| - 1]) + |xss[|xss| - 1]|
  }

  /** Lists that are all empty flatten to nothing. */
  lemma {:induction false} FlattenEmpty<T>(xss: seq<seq<T>>)
    requires forall i :: 0 <= i < |xss| ==> xss[i] == []
    ensures Flatten(xss) == []
    decreases |xss|
  {
    if xss != [] {
      FlattenEmpty(xss[..|xss| - 1]);
    }
  }

  function RequirementLists(rs: seq<AgentAnalysis>): seq<seq<Requirement>> {
    seq(|rs|, i requires 0 <= i < |rs| => rs[i].requirements)
  }

  function RiskLists(rs: seq<AgentAnalysis>): seq<seq<Risk>> {
    seq(|rs|, i requires 0 <= i < |rs| => rs[i].risks)
  }

  function AnalysisCall(llm: DesignLlm, spec: string): Agent -> Option<AgentAnalysis> {
    a => AnalyzeRequirements(llm.analyze(a, spec))
  }

  function DesignCall(llm: DesignLlm, reqs: seq<Requirement>, spec: string): Agent -> Option<seq<TestCase>> {
    a => CreateTestDesign(llm.design(a, reqs, spec))
  }

  /** `create_test_design_document`: the requirement and risk lists of the
      requirements and risk agents, each concatenated in agent order; the
      design agents, each given all requirements; their test cases
      concatenated in agent order, without removing repeated ids. None: an
      LLM call raised. */
  function DesignDocumentOf(agents: seq<Agent>, spec: string, llm: DesignLlm, now: string): Option<DesignDocument> {
    match Collect(agents, IsRequirementsAgent, AnalysisCall(llm, spec))
    case None => None
    case Some(analyses) =>
      var reqs := Flatten(RequirementLists(analyses));
      var risks := Flatten(RiskLists(analyses));
      match Collect(agents, IsDesignAgent, DesignCall(llm, reqs, spec))
      case None => None
      case Some(designs) => Some(DesignDocument(reqs, risks, Flatten(designs), now))
  }

  /** Which of the configured agents take part in which step. */
  lemma ConfiguredKinds()
    ensures IsRequirementsAgent(ConfiguredAgents[0]) && !IsDesignAgent(ConfiguredAgents[0])
    ensures !IsRequirementsAgent(ConfiguredAgents[1]) && IsDesignAgent(ConfiguredAgents[1])
    ensures !IsRequirementsAgent(ConfiguredAgents[2]) && IsDesignAgent(ConfiguredAgents[2])
    ensures IsRequirementsAgent(ConfiguredAgents[3]) && !IsDesignAgent(ConfiguredAgents[3])
  {
    assert OccursAt("Requirements_Analyst", "Requirements", 0);
    Lacks("Requirements_Analyst", "Design");
    Lacks("Requirements_Analyst", "Quality");
    assert OccursAt("Test_Designer", "Design", 5);
    Lacks("Test_Designer", "Requirements");
    Lacks("Test_Designer", "Risk");
    assert OccursAt("Quality_Assurance", "Quality", 0);
    Lacks("Quality_Assurance", "Requirements");
    Lacks("Quality_Assurance", "Risk");
    assert OccursAt("Risk_Analyst", "Risk", 0);
    Lacks("Risk_Analyst", "Design");
    Lacks("Risk_Analyst", "Quality");
  }

  /** With the configured agents, requirements and risks come from
      Requirements_Analyst then Risk_Analyst, and test cases from
      Test_Designer then Quality_Assurance. */
  lemma ConfiguredRoles()
    ensures Picked(ConfiguredAgents, IsRequirementsAgent) == [ConfiguredAgents[0], ConfiguredAgents[3]]
    ensures Picked(ConfiguredAgents, IsDesignAgent) == [ConfiguredAgents[1], ConfiguredAgents[2]]
  {
    ConfiguredKinds();
    var ca := ConfiguredAgents;
    assert ca[..3][..2][..1][..0] == [];
    assert ca[..3][..2][..1] == ca[..1] && ca[..3][..2] == ca[..2] && ca[..4] == ca;
    assert Picked(ca[..1], IsRequirementsAgent) == [ca[0]];
    assert Picked(ca[..2], IsRequirementsAgent) == [ca[0]];
    assert Picked(ca[..3], IsRequirementsAgent) == [ca[0]];
    assert Picked(ca[..1], IsDesignAgent) == [];
    assert Picked(ca[..2], IsDesignAgent) == [ca[1]];
    assert Picked(ca[..3], IsDesignAgent) == [ca[1], ca[2]];
  }

  /** When every LLM answer is text that is not JSON, the document is
      produced with no requirements, risks or test cases. */
  lemma UnparseableGivesEmpty(agents: seq<Agent>, spec: string, llm: DesignLlm, now: string)
    requires forall a: Agent, s: string :: llm.analyze(a, s) == Unparseable
    requires forall a: Agent, rs: seq<Requirement>, s: string :: llm.design(a, rs, s) == Unparseable
    ensures DesignDocumentOf(agents, spec, llm, now) == Some(DesignDocument([], [], [], now))
  {
    var call := AnalysisCall(llm, spec);
    CollectPicked(agents, IsRequirementsAgent, call);
    var analyses := Collect(agents, IsRequirementsAgent, call).value;
    assert forall i :: 0 <= i < |analyses| ==> analyses[i] == AgentAnalysis([], []) by {
      forall i | 0 <= i < |analyses|
        ensures analyses[i] == AgentAnalysis([], [])
      {
        var ps := Picked(agents, IsRequirementsAgent);
        assert call(ps[i]) == Some(analyses[i]);
      }
    }
    FlattenEmpty(RequirementLists(analyses));
    FlattenEmpty(RiskLists(analyses));
    var dcall := DesignCall(llm, [], spec);
    CollectPicked(agents, IsDesignAgent, dcall);
    var designs := Collect(agents, IsDesignAgent, dcall).value;
    forall i | 0 <= i < |designs|
      ensures designs[i] == []
    {
      var ps := Picked(agents, IsDesignAgent);
      assert dcall(ps[i]) == Some(designs[i]);
    }
    FlattenEmpty(designs);
  }

  /** The loop that asks each picked agent in turn. */
  method CollectResults<R>(agents: seq<Agent>, pick: Agent -> bool, call: Agent -> Option<R>) returns (r: Option<seq<R>>)
    ensures r == Collect(agents, pick, call)
  {
    var results: seq<R> := [];
    for i := 0 to |agents|
      invariant Collect(agents[..i], pick, call) == Some(results)
    {
      assert agents[..i + 1][..i] == agents[..i];
      if pick(agents[i]) {
        var res := call(agents[i]);
        if res.None? {
          CollectRaisedPrefix(agents, pick, call, i + 1);
          return None;
        }
        results := results + [res.value];
      }
    }
    assert agents[..|agents|] == agents;
    r := Some(results);
  }

  /** Once a call has raised, the whole step has raised. */
  lemma {:induction false} CollectRaisedPrefix<R>(agents: seq<Agent>, pick: Agent -> bool, call: Agent -> Option<R>, n: nat)
    requires n <= |agents| && Collect(agents[..n], pick, call).None?
    ensures Collect(agents, pick, call).None?
    decreases |agents| - n
  {
    if n < |agents| {
      assert agents[..n + 1][..n] == agents[..n];
      CollectRaisedPrefix(agents, pick, call, n + 1);
    } else {
      assert agents[..n] == agents;
    }
  }

  /** The loop that extends one list with each list in turn. */
  method ExtendAll<T>(xss: seq<seq<T>>) returns (all: seq<T>)
    ensures all == Flatten(xss)
  {
    all := [];
    for i := 0 to |xss|
      invariant all == Flatten(xss[..i])
    {
      assert xss[..i + 1][..i] == xss[..i];
      all := all + xss[i];
    }
    assert xss[..|xss|] == xss;
  }

  /** `create_test_design_document`, step by step. */
  method CreateTestDesignDocument(agents: seq<Agent>, spec: string, llm: DesignLlm, now: string)
    returns (r: Option<DesignDocument>)
    ensures r == DesignDocumentOf(agents, spec, llm, now)
  {
    var analyses := CollectResults(agents, IsRequirementsAgent, AnalysisCall(llm, spec));
    if analyses.None? {
      return None;
    }
    var reqs: seq<Requirement> := [];
    var risks: seq<Risk> := [];
    for i := 0 to |analyses.value|
      invariant reqs == Flatten(RequirementLists(analyses.value[..i]))
      invariant risks == Flatten(RiskLists(analyses.value[..i]))
    {
      var done := analyses.value[..i + 1];
      assert RequirementLists(done)[..i] == RequirementLists(analyses.value[..i]);
      assert RiskLists(done)[..i] == RiskLists(analyses.value[..i]);
      reqs := reqs + analyses.value[i].requirements;
      risks := risks + analyses.value[i].risks;
    }
    assert analyses.value[..|analyses.value|] == analyses.value;
    var designs := CollectResults(agents, IsDesignAgent, DesignCall(llm, reqs, spec));
    if designs.None? {
      return None;
    }
    var cases := ExtendAll(designs.value);
    r := Some(DesignDocument(reqs, risks, cases, now));
  }

  // ---------------------------------------------------------------------
  // Results and the CSV download

  /** `get_results`: the stored document, or not found. */
  function GetResults(results: map<string, DesignDocument>, filename: string): (r: Response<DesignDocument>)
    ensures r.Served? <==> filename in results
    ensures r.Served? ==> r.body == results[filename]
    ensures !r.Served? ==> r == NotFound
  {
    if filename in results then Served(results[filename]) else NotFound
  }

  const DownloadColumns: seq<string> :=
    ["Test Case ID", "Requirement ID", "Test Name", "Test Objective", "Preconditions",
     "Test Steps", "Expected Results", "Test Data", "Test Environment"]

  const DownloadHeader: string :=
    "Test Case ID,Requirement ID,Test Name,Test Objective,Preconditions,Test Steps,Expected Results,Test Data,Test Environment\n"

  /** The fields of one test case's line: missing keys are empty, and each
      list is comma-joined into a single field. */
  function DownloadFields(tc: TestCase): (fields: seq<string>)
    ensures |fields| == |DownloadColumns|
  {
    [tc.id.GetOr(""), tc.requirementId, tc.name.GetOr(""), tc.objective, Join(tc.preconditions, ","),
     Join(tc.steps, ","), Join(tc.expected, ","), tc.testData, tc.environment]
  }

  function DownloadLine(tc: TestCase): string {
    QuotedLine(DownloadFields(tc))
  }

  /** The CSV text: the header, then one line per test case in order. */
  function DownloadCsv(cases: seq<TestCase>): string
    decreases |cases|
  {
    if cases == [] then DownloadHeader else DownloadCsv(cases[..|cases| - 1]) + DownloadLine(cases[|cases| - 1])
  }

  /** A test case none of whose text holds a line break. */
  predicate SingleLine(tc: TestCase) {
    NoChar(tc.id.GetOr(""), '\n') && NoChar(tc.requirementId, '\n') && NoChar(tc.name.GetOr(""), '\n') &&
    NoChar(tc.objective, '\n') && NoChar(tc.testData, '\n') && NoChar(tc.environment, '\n') &&
    (forall i :: 0 <= i < |tc.preconditions| ==> NoChar(tc.preconditions[i], '\n')) &&
    (forall i :: 0 <= i < |tc.steps| ==> NoChar(tc.steps[i], '\n')) &&
    (forall i :: 0 <= i < |tc.expected| ==> NoChar(tc.expected[i], '\n'))
  }

  /** A single-line test case is written as exactly one line. */
  lemma DownloadLineCount(tc: TestCase)
    requires SingleLine(tc)
    ensures CountChar(DownloadLine(tc), '\n') == 1
  {
    var fields := DownloadFields(tc);
    JoinNoChar(tc.preconditions, ",", '\n');
    JoinNoChar(tc.steps, ",", '\n');
    JoinNoChar(tc.expected, ",", '\n');
    assert forall i :: 0 <= i < |fields| ==> NoChar(fields[i], '\n');
    JoinNoChar(fields, "\",\"", '\n');
    var body := Join(fields, "\",\"");
    NoCharCount(body, '\n');
    CountAppend("\"" + body, "\"\n", '\n');
    CountAppend("\"", body, '\n');
  }

  /** The CSV text of single-line test cases has, after the header, one
      line per test case. */
  lemma {:induction false} DownloadCsvLines(cases: seq<TestCase>)
    requires forall i :: 0 <= i < |cases| ==> SingleLine(cases[i])
    ensures CountChar(DownloadCsv(cases), '\n') == CountChar(DownloadHeader, '\n') + |cases|
    decreases |cases|
  {
    if cases != [] {
      var prefix := cases[..|cases| - 1];
      DownloadCsvLines(prefix);
      DownloadLineCount(cases[|cases| - 1]);
      CountAppend(DownloadCsv(prefix), DownloadLine(cases[|cases| - 1]), '\n');
    }
  }

  /** What `download_test_cases` sends: the CSV text and the attachment's
      file name. */
  datatype Download = Download(content: string, attachmentName: string)

  /** `download_test_cases`: not found for an unknown file name; otherwise
      the CSV text is grown by one line per test case. */
  method DownloadTestCases(results: map<string, DesignDocument>, filename: string) returns (r: Response<Download>)
    ensures filename !in results ==> r == NotFound
    ensures filename in results ==>
      r == Served(Download(DownloadCsv(results[filename].testCases), "test_cases_" + filename + ".csv"))
  {
    if filename !in results {
      return NotFound;
    }
    var cases := results[filename].testCases;
    var csv := DownloadHeader;
    for i := 0 to |cases|
      invariant csv == DownloadCsv(cases[..i])
    {
      assert cases[..i + 1][..i] == cases[..i];
      csv := csv + DownloadLine(cases[i]);
    }
    assert cases[..|cases|] == cases;
    r := Served(Download(csv, "test_cases_" + filename + ".csv"));
  }

  /** A test case downloaded from the design application and uploaded to the
      execution application keeps its id, name, objective, data,
      environment, steps and expected results, provided every step and
      expected result is non-empty, trimmed and free of commas. */
  lemma DownloadUploadRoundTrip(tc: TestCase)
    requires forall i :: 0 <= i < |tc.steps| ==> CleanItem(tc.steps[i])
    requires forall i :: 0 <= i < |tc.expected| ==> CleanItem(tc.expected[i])
    ensures var r := ExecutionApp.ParseRow(ExecutionApp.RowDict(DownloadColumns, DownloadFields(tc)));
      r.Some? && r.value.steps == tc.steps && r.value.expected == tc.expected &&
      r.value.id == Some(tc.id.GetOr("")) && r.value.name == Some(tc.name.GetOr("")) &&
      r.value.objective == tc.objective && r.value.testData == tc.testData && r.value.environment == tc.environment
  {
    var d := ExecutionApp.RowDict(DownloadColumns, DownloadFields(tc));
    DownloadRowFields(tc);
    var r := ExecutionApp.ParseRow(d);
    assert r.Some?;
    SplitListJoin(tc.steps);
    SplitListJoin(tc.expected);
  }

  /** The execution application's reader finds each downloaded field under
      its own column. */
  lemma DownloadRowFields(tc: TestCase)
    ensures var d := ExecutionApp.RowDict(DownloadColumns, DownloadFields(tc));
      ExecutionApp.Field(d, "Test Case ID") == Some(tc.id.GetOr("")) &&
      ExecutionApp.Field(d, "Requirement ID") == Some(tc.requirementId) &&
      ExecutionApp.Field(d, "Test Name") == Some(tc.name.GetOr("")) &&
      ExecutionApp.Field(d, "Test Objective") == Some(tc.objective) &&
      ExecutionApp.Field(d, "Preconditions") == Some(Join(tc.preconditions, ",")) &&
      ExecutionApp.Field(d, "Test Steps") == Some(Join(tc.steps, ",")) &&
      ExecutionApp.Field(d, "Expected Results") == Some(Join(tc.expected, ",")) &&
      ExecutionApp.Field(d, "Test Data") == Some(tc.testData) &&
      ExecutionApp.Field(d, "Test Environment") == Some(tc.environment)
  {
    var cols, fields := DownloadColumns, DownloadFields(tc);
    var d := ExecutionApp.RowDict(cols, fields);
    assert |cols| == 9;
    ColumnsDistinct();
    ExecutionApp.RowDictAt(cols, fields, 0);
    ExecutionApp.RowDictAt(cols, fields, 1);
    ExecutionApp.RowDictAt(cols, fields, 2);
    ExecutionApp.RowDictAt(cols, fields, 3);
    ExecutionApp.RowDictAt(cols, fields, 4);
    ExecutionApp.RowDictAt(cols, fields, 5);
    ExecutionApp.RowDictAt(cols, fields, 6);
    ExecutionApp.RowDictAt(cols, fields, 7);
    ExecutionApp.RowDictAt(cols, fields, 8);
  }

  lemma ColumnsDistinct()
    ensures forall i, j :: 0 <= i < j < |DownloadColumns| ==> DownloadColumns[i] != DownloadColumns[j]
  {
  }
}
