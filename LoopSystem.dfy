/** loop_system.py: the specification extractor's fallbacks, the improvement
    analyzer's pure helpers, and the LoopController that runs up to
    `max_loops` iterations of extract, design, execute and analyze. */
module LoopSystem {
  import opened Records
  import opened Text
  import LoopRun

  /** `LoopSystemConfig.max_loops` unless the command line overrides it. */
  const DefaultMaxLoops: nat := 5

  // ---------------------------------------------------------------------
  // WebSpecExtractor: fallbacks

  datatype Section = Section(heading: string, lines: seq<string>)

  /** The six section headings of a specification document. */
  const SpecHeadings: seq<string> := [
    "1. システム概要", "2. 主要機能", "3. ユーザーシナリオ",
    "4. UI/UX要件", "5. 技術要件", "6. 品質要件"]

  /** The sections of the fallback specification document, whose first
      section names the target URL and the extraction time. */
  function FallbackSections(url: string, now: string): (r: seq<Section>)
    ensures |r| == |SpecHeadings| == 6
    ensures forall i :: 0 <= i < 6 ==> r[i].heading == SpecHeadings[i] && r[i].lines != []
    ensures r[0].lines[0] == "対象URL: " + url
  {
    [ Section(SpecHeadings[0], ["対象URL: " + url, "抽出日時: " + now]),
      Section(SpecHeadings[1], ["- 基本的なWEBアプリケーション機能"]),
      Section(SpecHeadings[2], ["- ユーザーがサイトにアクセスする", "- 基本的な操作を行う"]),
      Section(SpecHeadings[3], ["- 標準的なWEBユーザーインターフェース"]),
      Section(SpecHeadings[4], ["- WEBブラウザ対応"]),
      Section(SpecHeadings[5], ["- 安定した動作", "- 適切なレスポンス時間"]) ]
  }

  function RenderLines(lines: seq<string>): string {
    if lines == [] then [] else lines[0] + "\n" + RenderLines(lines[1..])
  }

  function RenderSections(sections: seq<Section>): string {
    if sections == [] then []
    else "\n## " + sections[0].heading + "\n" + RenderLines(sections[0].lines) + RenderSections(sections[1..])
  }

  /** A Markdown document: a title line, then each section as a level-2
      heading followed by its lines. */
  function RenderDocument(sections: seq<Section>): string {
    "# 機能仕様書\n" + RenderSections(sections)
  }

  /** `_create_fallback_spec_document` */
  function FallbackSpecDocument(url: string, now: string): string {
    RenderDocument(FallbackSections(url, now))
  }

  /** `_create_fallback_features`: one default feature and one scenario. */
  function FallbackFeatures(): (f: Features)
    ensures |f.mainFeatures| == 1 && |f.scenarios| == 1
    ensures |f.scenarios[0].steps| == 2
  {
    Features(
      [Feature("基本機能", "WEBアプリケーションの基本的な動作", "その他", "高", "デフォルト機能")],
      [Scenario("基本操作シナリオ", ["サイトにアクセス", "基本操作を実行"], "正常に動作すること")])
  }

  const FallbackHtml: string := "<!-- 取得できませんでした -->"

  /** `_create_fallback_spec` */
  function FallbackSpec(url: string, now: string): Spec {
    Spec(url, FallbackHtml, [], FallbackFeatures(), FallbackSpecDocument(url, now), now)
  }

  /** `_estimate_features`: the LLM's parsed reply, or the fallback features
      when there is no client, the reply is not JSON, or the call raised. */
  function EstimateFeatures(hasClient: bool, reply: LlmReply<Features>): (f: Features)
    ensures f == FallbackFeatures() || (hasClient && reply.Parsed? && f == reply.value)
    ensures hasClient && reply.Parsed? ==> f == reply.value
    ensures !(hasClient && reply.Parsed?) ==> f == FallbackFeatures()
  {
    if !hasClient then FallbackFeatures()
    else match reply
      case Parsed(v) => v
      case _ => FallbackFeatures()
  }

  /** `_generate_specification_document`: the LLM's text (None: the call
      raised), or the fallback document. */
  function GenerateSpecificationDocument(hasClient: bool, url: string, reply: Option<string>, now: string): (d: string)
    ensures d == FallbackSpecDocument(url, now) || (hasClient && reply == Some(d))
    ensures hasClient && reply.Some? ==> d == reply.value
    ensures !(hasClient && reply.Some?) ==> d == FallbackSpecDocument(url, now)
  {
    if !hasClient then FallbackSpecDocument(url, now)
    else match reply
      case Some(text) => text
      case None => FallbackSpecDocument(url, now)
  }

  /** `extract_specifications`. `components` is None when the HTML analysis
      raised, which sends the whole extraction to the fallback spec. The
      HTML text is whatever `_fetch_html_content` returned (it never raises). */
  function ExtractSpecifications(url: string, hasClient: bool, html: string, components: Option<seq<string>>,
                                 featureReply: LlmReply<Features>, docReply: Option<string>, now: string): (s: Spec)
    ensures s.targetUrl == url
    ensures components.None? ==> s == FallbackSpec(url, now)
    ensures components.Some? ==> s.html == html && s.uiComponents == components.value
    ensures components.Some? ==>
              s.features == EstimateFeatures(hasClient, featureReply) &&
              s.document == GenerateSpecificationDocument(hasClient, url, docReply, now) &&
              s.timestamp == now
  {
    match components
    case None => FallbackSpec(url, now)
    case Some(comps) =>
      Spec(url, html, comps, EstimateFeatures(hasClient, featureReply),
           GenerateSpecificationDocument(hasClient, url, docReply, now), now)
  }

  /** When extraction fails, the orchestrator still gets a usable spec: one
      default feature and a document of the six fixed sections. */
  lemma FallbackSpecUsable(url: string, now: string)
    ensures var s := FallbackSpec(url, now);
      |s.features.mainFeatures| >= 1 &&
      exists sections: seq<Section> ::
        s.document == RenderDocument(sections) && |sections| == 6 &&
        (forall i :: 0 <= i < 6 ==> sections[i].heading == SpecHeadings[i])
  {
    var sections := FallbackSections(url, now);
    assert FallbackSpec(url, now).document == RenderDocument(sections);
  }

  // ---------------------------------------------------------------------
  // ImprovementAnalyzer

  predicate IsFailureStatus(s: Status) { s == Failed || s == Error }

  const UnknownReason: string := "不明"

  function ToFailedTest(r: CaseResult): FailedTest {
    FailedTest(r.testCaseId, r.testName, r.failureReason.GetOr(UnknownReason))
  }

  /** The failed tests of a result list: the entries whose status is failed
      or error, in order. */
  function FailedOf(rs: seq<CaseResult>): seq<FailedTest>
  {
    if rs == [] then []
    else
      var last := rs[|rs| - 1];
      FailedOf(rs[..|rs| - 1]) + (if IsFailureStatus(last.status) then [ToFailedTest(last)] else [])
  }

  /** `_extract_failed_tests` */
  method ExtractFailedTests(report: ExecutionReport) returns (failed: seq<FailedTest>)
    ensures failed == FailedOf(report.results)
  {
    failed := [];
    var rs := report.results;
    for i := 0 to |rs|
      invariant failed == FailedOf(rs[..i])
    {
      assert rs[..i + 1][..i] == rs[..i];
      if IsFailureStatus(rs[i].status) {
        failed := failed + [ToFailedTest(rs[i])];
      }
    }
    assert rs[..|rs|] == rs;
  }

  /** Filtering distributes over concatenation, so input order is kept. */
  lemma {:induction false} FailedOfAppend(a: seq<CaseResult>, b: seq<CaseResult>)
    ensures FailedOf(a + b) == FailedOf(a) + FailedOf(b)
    decreases |b|
  {
    if b == [] {
      assert a + b == a;
    } else {
      var b' := b[..|b| - 1];
      assert (a + b)[..|a + b| - 1] == a + b';
      FailedOfAppend(a, b');
    }
  }

  /** Exactly the failed or error entries are kept. */
  lemma {:induction false} FailedOfMembers(rs: seq<CaseResult>)
    ensures forall r :: r in rs && IsFailureStatus(r.status) ==> ToFailedTest(r) in FailedOf(rs)
    ensures forall f :: f in FailedOf(rs) ==> exists r :: r in rs && IsFailureStatus(r.status) && f == ToFailedTest(r)
    ensures |FailedOf(rs)| <= |rs|
  {
    if rs != [] {
      var init := rs[..|rs| - 1];
      FailedOfMembers(init);
      assert rs == init + [rs[|rs| - 1]];
      forall r | r in rs && IsFailureStatus(r.status)
        ensures ToFailedTest(r) in FailedOf(rs)
      {
        if r != rs[|rs| - 1] { assert r in init; }
      }
      forall f | f in FailedOf(rs)
        ensures exists r :: r in rs && IsFailureStatus(r.status) && f == ToFailedTest(r)
      {
        if f in FailedOf(init) {
          var r :| r in init && IsFailureStatus(r.status) && f == ToFailedTest(r);
          assert r in rs;
        } else {
          assert rs[|rs| - 1] in rs;
        }
      }
    }
  }

  const HighPriority: string := "高"

  /** Whether every suggestion has a "category" key; `imp["category"]`
      raises KeyError otherwise. A null category is read without error. */
  predicate AllCategorised(imps: seq<Suggestion>) {
    forall i :: 0 <= i < |imps| ==> !imps[i].category.Absent?
  }

  function Categories(imps: seq<Suggestion>): (r: seq<JsonText>)
    requires AllCategorised(imps)
    ensures |r| == |imps| && forall i :: 0 <= i < |r| ==> r[i] == imps[i].category
  {
    if imps == [] then [] else [imps[0].category] + Categories(imps[1..])
  }

  function HighPriorityOf(imps: seq<Suggestion>): (r: seq<Suggestion>)
    ensures forall x :: x in r <==> x in imps && x.priority == Present(HighPriority)
  {
    if imps == [] then []
    else (if imps[0].priority == Present(HighPriority) then [imps[0]] else []) + HighPriorityOf(imps[1..])
  }

  /** The "test_strategy" members that are present, null ones included. */
  function StrategiesOf(imps: seq<Suggestion>): (r: seq<JsonText>)
    ensures |r| <= |imps|
    ensures forall s :: s in r <==> !s.Absent? && exists x :: x in imps && x.testStrategy == s
  {
    if imps == [] then []
    else
      var rest := StrategiesOf(imps[1..]);
      assert forall x :: x in imps <==> x == imps[0] || x in imps[1..];
      (if !imps[0].testStrategy.Absent? then [imps[0].testStrategy] else []) + rest
  }

  /** `_create_next_loop_plan`; None when a suggestion has no "category"
      key (the KeyError that sends the analysis to its fallback). */
  function CreateNextLoopPlan(imps: seq<Suggestion>): (p: Option<LoopPlan>)
    ensures p.Some? <==> AllCategorised(imps)
    ensures p.Some? ==> |p.value.focusAreas| == |imps|
    ensures p.Some? ==> forall x :: x in p.value.priorityImprovements ==> x in imps && x.priority == Present(HighPriority)
    ensures p.Some? ==> p.value.estimatedEffort == Some(if |imps| <= 3 then "中" else "高")
    ensures p.Some? ==> p.value.focusAreas == Categories(imps) &&
                        p.value.priorityImprovements == HighPriorityOf(imps) &&
                        p.value.testStrategyUpdates == StrategiesOf(imps)
  {
    if !AllCategorised(imps) then None
    else Some(LoopPlan(Categories(imps), HighPriorityOf(imps), StrategiesOf(imps),
                       Some(if |imps| <= 3 then "中" else "高")))
  }

  /** `_create_fallback_improvements`: one generic high-priority suggestion. */
  function FallbackImprovements(failed: seq<FailedTest>): (r: seq<Suggestion>)
    ensures |r| == 1 && r[0].category.Present? && r[0].priority == Present(HighPriority)
  {
    [Suggestion(Present("機能改善"), Present(HighPriority),
                Present(NatToString(|failed|) + "個のテスト失敗に対する基本的な改善"),
                Present("テスト失敗の詳細を確認し、該当機能の修正を行う"),
                Present("失敗したテストケースを重点的に再テスト"))]
  }

  /** `_create_fallback_improvement`: an empty but well-formed analysis. */
  function FallbackAnalysis(now: string): Analysis {
    Analysis([], [], LoopPlan([], [], [], None), now)
  }

  /** `_generate_improvements`: `result.get("improvements", [])` of the
      parsed reply, or the fallback suggestion. None is the Python None
      returned when the "improvements" member is null. */
  function GenerateImprovements(hasClient: bool, reply: LlmReply<JsonMember<seq<Suggestion>>>,
                                failed: seq<FailedTest>): (r: Option<seq<Suggestion>>)
    ensures !hasClient || !reply.Parsed? ==> r == Some(FallbackImprovements(failed))
    ensures hasClient && reply.Parsed? && reply.value.Present? ==> r == Some(reply.value.value)
    ensures hasClient && reply.Parsed? && reply.value.Absent? ==> r == Some([])
    ensures r.None? <==> hasClient && reply.Parsed? && reply.value.Null?
  {
    if !hasClient then Some(FallbackImprovements(failed))
    else match reply
      case Parsed(m) =>
        (match m
         case Absent => Some([])
         case Null => None
         case Present(imps) => Some(imps))
      case _ => Some(FallbackImprovements(failed))
  }

  /** `analyze_improvements` with the LLM's reply as input. A None list
      from `_generate_improvements` makes `_create_next_loop_plan` raise a
      TypeError, and so does a missing "category" key; both end in the
      fallback analysis. */
  function AnalyzeImprovements(report: ExecutionReport, hasClient: bool,
                               reply: LlmReply<JsonMember<seq<Suggestion>>>, now: string): (a: Analysis)
    ensures a == FallbackAnalysis(now) ||
            (a.failedTests == FailedOf(report.results) && AllCategorised(a.suggestions))
    ensures var imps := GenerateImprovements(hasClient, reply, FailedOf(report.results));
      (imps.None? ==> a == FallbackAnalysis(now)) &&
      (imps.Some? && CreateNextLoopPlan(imps.value).None? ==> a == FallbackAnalysis(now)) &&
      (imps.Some? && CreateNextLoopPlan(imps.value).Some? ==>
        a == Analysis(FailedOf(report.results), imps.value, CreateNextLoopPlan(imps.value).value, now))
  {
    var failed := FailedOf(report.results);
    match GenerateImprovements(hasClient, reply, failed)
    case None => FallbackAnalysis(now)
    case Some(imps) =>
      match CreateNextLoopPlan(imps)
      case None => FallbackAnalysis(now)
      case Some(plan) => Analysis(failed, imps, plan, now)
  }

  /** Without an LLM client the analysis keeps the real failures and makes
      exactly one suggestion, so the continuation rule stops the loop
      exactly when no test failed. */
  lemma NoClientAnalysis(report: ExecutionReport, reply: LlmReply<JsonMember<seq<Suggestion>>>, now: string, k: nat, maxLoops: nat)
    requires k < maxLoops
    ensures var a := AnalyzeImprovements(report, false, reply, now);
      a.failedTests == FailedOf(report.results) && |a.suggestions| == 1 &&
      (ShouldContinueLoop(a, k, maxLoops) <==> FailedOf(report.results) != [])
  {
    var failed := FailedOf(report.results);
    assert CreateNextLoopPlan(FallbackImprovements(failed)).Some?;
  }

  // ---------------------------------------------------------------------
  // LoopController: the simulated design and execution stages

  /** `_run_test_design`: five fixed cases TC-001 .. TC-005. */
  function RunTestDesign(): (d: DesignResult)
    ensures d.SimulatedDesign? && |d.cases| == 5
    ensures forall i :: 0 <= i < 5 ==> d.cases[i].id == Some("TC-" + Pad3(i + 1)) && d.cases[i].name.Some?
  {
    SimulatedDesign(seq(5, i requires 0 <= i < 5 =>
      TestCase(Some("TC-" + Pad3(i + 1)), "", Some("テストケース" + NatToString(i + 1)), "", [],
               ["ステップ1", "ステップ2"], ["期待結果"], "", "")))
  }

  /** The simulated design's identifiers are pairwise distinct. */
  lemma RunTestDesignDistinctIds(i: nat, j: nat)
    requires i < 5 && j < 5 && i != j
    ensures RunTestDesign().cases[i].id != RunTestDesign().cases[j].id
  {
    if RunTestDesign().cases[i].id == RunTestDesign().cases[j].id {
      var a, b := "TC-" + Pad3(i + 1), "TC-" + Pad3(j + 1);
      assert a[3..] == Pad3(i + 1) && b[3..] == Pad3(j + 1);
      Pad3Injective(i + 1, j + 1);
    }
  }

  const UnexpectedResult: string := "予期しない結果"

  /** Case i (counted from 1) of the simulated run fails iff i % 4 == 0. */
  function SimulatedStatus(i: nat): Status {
    if i % 4 != 0 then Passed else Failed
  }

  /** How many of 1..n the simulated run lets pass (or fail). */
  function CountSimulated(n: nat, failing: bool): nat {
    if n == 0 then 0 else CountSimulated(n - 1, failing) + (if (n % 4 == 0) == failing then 1 else 0)
  }

  lemma {:induction false} CountSimulatedIs(n: nat)
    ensures CountSimulated(n, true) == n / 4
    ensures CountSimulated(n, false) == n - n / 4
  {
    if n > 0 {
      CountSimulatedIs(n - 1);
    }
  }

  predicate Identified(cases: seq<TestCase>) {
    forall i :: 0 <= i < |cases| ==> cases[i].id.Some? && cases[i].name.Some?
  }

  /** `_run_test_execution`: None when a case lacks an id or a name (the
      KeyError that ends the iteration). */
  function RunTestExecution(design: DesignResult): (r: Option<ExecutionReport>)
    ensures r.Some? <==> Identified(design.TestCasesKey())
    ensures r.Some? ==> var cases, e := design.TestCasesKey(), r.value;
      |e.results| == e.totalTests == |cases| &&
      e.passedTests + e.failedTests == e.totalTests &&
      e.failedTests == |cases| / 4 &&
      forall i :: 0 <= i < |cases| ==>
        e.results[i].testCaseId == cases[i].id.value &&
        (e.results[i].status == Failed <==> (i + 1) % 4 == 0) &&
        (e.results[i].status == Passed <==> (i + 1) % 4 != 0) &&
        (e.results[i].failureReason.Some? <==> e.results[i].status == Failed)
  {
    var cases := design.TestCasesKey();
    if !Identified(cases) then None
    else
      var results := seq(|cases|, i requires 0 <= i < |cases| =>
          CaseResult(cases[i].id.value, cases[i].name.value, SimulatedStatus(i + 1),
                     if (i + 1) % 4 == 0 then Some(UnexpectedResult) else None, None, [], None));
      CountSimulatedIs(|cases|);
      FailedOfSimulated(results);
      Some(ExecutionReport(results, |cases|, CountSimulated(|cases|, false), CountSimulated(|cases|, true), Simulated, []))
  }

  /** In the simulated run the analysis finds exactly the cases counted as
      failed. */
  lemma {:induction false} FailedOfSimulated(rs: seq<CaseResult>)
    requires forall i :: 0 <= i < |rs| ==> rs[i].status == SimulatedStatus(i + 1)
    ensures |FailedOf(rs)| == CountSimulated(|rs|, true)
  {
    if rs != [] {
      FailedOfSimulated(rs[..|rs| - 1]);
    }
  }

  /** Every LoopController iteration runs five cases of which exactly one
      fails, and the analysis sees that one failure. */
  lemma ControllerExecutionFixed()
    ensures var r := RunTestExecution(RunTestDesign());
      r.Some? && r.value.totalTests == 5 && r.value.passedTests == 4 && r.value.failedTests == 1 &&
      |FailedOf(r.value.results)| == 1
  {
    var e := RunTestExecution(RunTestDesign()).value;
    FailedOfSimulated(e.results);
    CountSimulatedIs(5);
  }

  // ---------------------------------------------------------------------
  // LoopController: the loop

  /** `loop-{n:03d}_{timestamp}`, relative to the loops directory. */
  function LoopDirName(n: nat, timestamp: string): string {
    "loop-" + Pad3(n) + "_" + timestamp
  }

  /** The longest prefix of decimal digits. */
  function TakeDigits(s: string): (r: string)
    ensures forall i :: 0 <= i < |r| ==> '0' <= r[i] <= '9'
  {
    if s != [] && '0' <= s[0] <= '9' then [s[0]] + TakeDigits(s[1..]) else []
  }

  lemma {:induction false} TakeDigitsOf(p: string, rest: string)
    requires forall i :: 0 <= i < |p| ==> '0' <= p[i] <= '9'
    requires rest != [] && !('0' <= rest[0] <= '9')
    ensures TakeDigits(p + rest) == p
  {
    if p != [] {
      assert (p + rest)[1..] == p[1..] + rest;
      TakeDigitsOf(p[1..], rest);
    } else {
      assert p + rest == rest;
    }
  }

  /** The iteration number written in a loop directory name. */
  function LoopNumberOf(dir: string): nat {
    if |dir| < 5 then 0 else DigitsValue(TakeDigits(dir[5..]))
  }

  /** The directory name gives back its iteration number, whatever the
      timestamp. */
  lemma LoopNumberRoundTrip(n: nat, timestamp: string)
    ensures LoopNumberOf(LoopDirName(n, timestamp)) == n
  {
    var dir := LoopDirName(n, timestamp);
    assert dir[5..] == Pad3(n) + ("_" + timestamp);
    TakeDigitsOf(Pad3(n), "_" + timestamp);
    Pad3Value(n);
  }

  /** Iterations with different numbers get different directories,
      whatever their timestamps. */
  lemma LoopDirNamesDistinct(n: nat, m: nat, t1: string, t2: string)
    requires n != m
    ensures LoopDirName(n, t1) != LoopDirName(m, t2)
  {
    LoopNumberRoundTrip(n, t1);
    LoopNumberRoundTrip(m, t2);
  }

  /** The stages the LoopController does not compute itself: extraction
      (None: raised while extracting or saving), analysis (None: raised
      while saving) and the clock. */
  datatype Oracles = Oracles(
    extract: (string, nat) -> Option<Spec>,
    analyze: (ExecutionReport, Option<LoopRecord>, nat) -> Option<Analysis>,
    clock: nat -> string)

  /** `_should_continue_loop` */
  predicate ShouldContinueLoop(a: Analysis, currentLoop: nat, maxLoops: nat) {
    if |a.failedTests| == 0 && |a.suggestions| <= 1 then false
    else if currentLoop >= maxLoops then false
    else true
  }

  /** The body of one iteration: None when a stage raised. */
  function Iteration(o: Oracles, url: string, k: nat, previous: Option<LoopRecord>): (r: Option<LoopRecord>)
    ensures r.Some? ==> r.value.loopNumber == k && r.value.directory == LoopDirName(k, o.clock(k))
  {
    match o.extract(url, k)
    case None => None
    case Some(spec) =>
      var design := RunTestDesign();
      match RunTestExecution(design)
      case None => None
      case Some(exec) =>
        match o.analyze(exec, previous, k)
        case None => None
        case Some(analysis) =>
          Some(LoopRecord(k, LoopDirName(k, o.clock(k)), spec, design, exec, analysis, o.clock(k)))
  }

  /** What iteration k of the controller records, given the records this
      run has appended so far: the previous record is the last entry of the
      controller's whole history, which is never cleared. */
  function ControllerStep(o: Oracles, url: string, history: seq<LoopRecord>): (nat, seq<LoopRecord>) -> Option<LoopRecord> {
    (k: nat, acc: seq<LoopRecord>) => Iteration(o, url, k, Last(history + acc))
  }

  function ControllerContinue(maxLoops: nat): (LoopRecord, nat) -> bool {
    (rec: LoopRecord, k: nat) => ShouldContinueLoop(rec.analysis, k, maxLoops)
  }

  /** The run `start_loop_process` performs on a controller whose history
      is `history`. */
  function Run(o: Oracles, url: string, maxLoops: nat, history: seq<LoopRecord>): LoopRun.RunState {
    LoopRun.Run(ControllerStep(o, url, history), ControllerContinue(maxLoops), maxLoops)
  }

  /** The controller's run in its own terms: the records are numbered
      1..n without gaps and sit in directories named after their numbers,
      each holds what the stages produced with the previous history entry as
      input, at most `maxLoops` iterations start, and only the last record
      may satisfy the stop rule. */
  lemma RunShape(o: Oracles, url: string, maxLoops: nat, history: seq<LoopRecord>)
    ensures var st := Run(o, url, maxLoops, history);
      |st.records| <= st.lastLoop <= maxLoops && st.lastLoop <= |st.records| + 1 &&
      (forall i :: 0 <= i < |st.records| ==>
         st.records[i].loopNumber == i + 1 &&
         st.records[i].directory == LoopDirName(i + 1, o.clock(i + 1)) &&
         Iteration(o, url, i + 1, Last(history + st.records[..i])) == Some(st.records[i])) &&
      (forall i :: 0 <= i < |st.records| - 1 ==> ShouldContinueLoop(st.records[i].analysis, i + 1, maxLoops)) &&
      (st.lastLoop == |st.records| + 1 ==> Iteration(o, url, st.lastLoop, Last(history + st.records)) == None)
  {
    var step, cont := ControllerStep(o, url, history), ControllerContinue(maxLoops);
    LoopRun.RunShape(step, cont, maxLoops);
    var st := Run(o, url, maxLoops, history);
    forall i | 0 <= i < |st.records|
      ensures st.records[i].loopNumber == i + 1
      ensures st.records[i].directory == LoopDirName(i + 1, o.clock(i + 1))
      ensures Iteration(o, url, i + 1, Last(history + st.records[..i])) == Some(st.records[i])
    {
      assert step(i + 1, st.records[..i]) == Some(st.records[i]);
    }
    forall i | 0 <= i < |st.records| - 1
      ensures ShouldContinueLoop(st.records[i].analysis, i + 1, maxLoops)
    {
      assert cont(st.records[i], i + 1);
    }
  }

  /** If the k-th record makes `_should_continue_loop` false, the run has
      exactly k records. */
  lemma ControllerStopsAt(o: Oracles, url: string, maxLoops: nat, history: seq<LoopRecord>, k: nat)
    requires var st := Run(o, url, maxLoops, history);
      1 <= k <= |st.records| && !ShouldContinueLoop(st.records[k - 1].analysis, k, maxLoops)
    ensures |Run(o, url, maxLoops, history).records| == k
  {
    var step, cont := ControllerStep(o, url, history), ControllerContinue(maxLoops);
    var st := Run(o, url, maxLoops, history);
    assert !cont(st.records[k - 1], k);
    LoopRun.RunStopsAt(step, cont, maxLoops, k);
  }

  /** A run that recorded every iteration it started and stopped before the
      maximum has reached a final iteration with no failed tests. */
  lemma EarlyStopHasNoFailures(o: Oracles, url: string, maxLoops: nat, history: seq<LoopRecord>)
    requires var st := Run(o, url, maxLoops, history);
      st.lastLoop == |st.records| < maxLoops
    ensures var st := Run(o, url, maxLoops, history);
      st.records != [] && |st.records[|st.records| - 1].analysis.failedTests| == 0 &&
      AnalyzeImprovementTrend(st.records).stabilityAchieved
  {
    var step, cont := ControllerStep(o, url, history), ControllerContinue(maxLoops);
    LoopRun.RunShape(step, cont, maxLoops);
  }

  // ---------------------------------------------------------------------
  // LoopController: the final report

  function SumNat(xs: seq<nat>): nat {
    if xs == [] then 0 else SumNat(xs[..|xs| - 1]) + xs[|xs| - 1]
  }

  /** `sum(r["test_execution"].get("total_tests", 0) for r in records)` */
  function TotalTests(records: seq<LoopRecord>): nat {
    if records == [] then 0 else TotalTests(records[..|records| - 1]) + records[|records| - 1].execution.totalTests
  }

  /** `sum(len(r["improvement_analysis"]["failed_tests"]) for r in records)` */
  function TotalFailures(records: seq<LoopRecord>): nat {
    if records == [] then 0 else TotalFailures(records[..|records| - 1]) + |records[|records| - 1].analysis.failedTests|
  }

  /** The per-iteration failure counts. */
  function FailureCounts(records: seq<LoopRecord>): (r: seq<nat>)
    ensures |r| == |records| && forall i :: 0 <= i < |r| ==> r[i] == |records[i].analysis.failedTests|
  {
    seq(|records|, i requires 0 <= i < |records| => |records[i].analysis.failedTests|)
  }

  /** The total failure count is the sum of the failure trend. */
  lemma {:induction false} TotalFailuresIsTrendSum(records: seq<LoopRecord>)
    ensures TotalFailures(records) == SumNat(FailureCounts(records))
  {
    if records != [] {
      var init := records[..|records| - 1];
      TotalFailuresIsTrendSum(init);
      assert FailureCounts(records)[..|records| - 1] == FailureCounts(init);
    }
  }

  /** Totals grow by exactly the appended iteration's counts. */
  lemma TotalsAppend(records: seq<LoopRecord>, r: LoopRecord)
    ensures TotalTests(records + [r]) == TotalTests(records) + r.execution.totalTests
    ensures TotalFailures(records + [r]) == TotalFailures(records) + |r.analysis.failedTests|
  {
    assert (records + [r])[..|records|] == records;
  }

  datatype Trend = Trend(failureTrend: seq<nat>, improvementDetected: bool, stabilityAchieved: bool)

  /** `_analyze_improvement_trend` */
  function AnalyzeImprovementTrend(records: seq<LoopRecord>): (t: Trend)
    ensures t.failureTrend == FailureCounts(records)
    ensures t.improvementDetected <==>
      |records| >= 2 && |records[|records| - 1].analysis.failedTests| < |records[0].analysis.failedTests|
    ensures t.stabilityAchieved <==> records != [] && |records[|records| - 1].analysis.failedTests| == 0
  {
    var counts := FailureCounts(records);
    Trend(counts,
          if |counts| > 1 then counts[|counts| - 1] < counts[0] else false,
          if counts != [] then counts[|counts| - 1] == 0 else false)
  }

  const StableMessage: string := "システムは概ね安定しており、継続的な監視を推奨します。"

  /** One recommendation: the category (一般 when missing) and the
      description ("" when missing) around 改善; a null member prints as
      "None". */
  function RecommendationLine(s: Suggestion): string {
    Render(s.category, "一般") + "改善: " + Render(s.description, "")
  }

  function LatestSuggestions(records: seq<LoopRecord>): seq<Suggestion> {
    if records == [] then [] else records[|records| - 1].analysis.suggestions
  }

  function Min(a: nat, b: nat): nat { if a <= b then a else b }

  /** The final recommendations: one line for each of the first three
      suggestions of the last iteration, in order, or the single stable
      message when it has none. */
  function FinalRecommendations(records: seq<LoopRecord>): (r: seq<string>)
    ensures 1 <= |r| <= 3
    ensures LatestSuggestions(records) == [] ==> r == [StableMessage]
    ensures LatestSuggestions(records) != [] ==>
      |r| == Min(3, |LatestSuggestions(records)|) &&
      forall i :: 0 <= i < |r| ==> r[i] == RecommendationLine(LatestSuggestions(records)[i])
  {
    var s := LatestSuggestions(records);
    var top := if |s| <= 3 then s else s[..3];
    if top == [] then [StableMessage]
    else seq(|top|, i requires 0 <= i < |top| => RecommendationLine(top[i]))
  }

  /** `_generate_final_recommendations` */
  method GenerateFinalRecommendations(records: seq<LoopRecord>) returns (recs: seq<string>)
    ensures recs == FinalRecommendations(records)
  {
    recs := [];
    if records != [] {
      var latest := records[|records| - 1].analysis.suggestions;
      var top := if |latest| <= 3 then latest else latest[..3];
      for i := 0 to |top|
        invariant |recs| == i
        invariant forall j :: 0 <= j < i ==> recs[j] == RecommendationLine(top[j])
      {
        recs := recs + [RecommendationLine(top[i])];
      }
    }
    if recs == [] {
      recs := [StableMessage];
    }
  }

  datatype FinalReport = FinalReport(
    targetUrl: Option<string>,
    totalLoopsExecuted: nat,
    totalTestsRun: nat,
    totalFailuresIdentified: nat,
    trend: Trend,
    recommendations: seq<string>,
    generatedAt: string)

  /** `_generate_final_report` */
  function GenerateFinalReport(targetUrl: Option<string>, records: seq<LoopRecord>, now: string): (r: FinalReport)
    ensures r.totalLoopsExecuted == |records| == |r.trend.failureTrend|
    ensures r.totalFailuresIdentified == SumNat(r.trend.failureTrend)
    ensures 1 <= |r.recommendations| <= 3
    ensures r.targetUrl == targetUrl && r.totalTestsRun == TotalTests(records)
    ensures r.trend == AnalyzeImprovementTrend(records) && r.recommendations == FinalRecommendations(records)
  {
    TotalFailuresIsTrendSum(records);
    FinalReport(targetUrl, |records|, TotalTests(records), TotalFailures(records),
                AnalyzeImprovementTrend(records), FinalRecommendations(records), now)
  }

  datatype LoopProcessResult = LoopProcessResult(totalLoops: nat, loopResults: seq<LoopRecord>, finalReport: FinalReport)

  /** `LoopController`: owns the iteration counter and the history. */
  class LoopController {
    const maxLoops: nat
    var currentLoop: nat
    var targetUrl: Option<string>
    var loopHistory: seq<LoopRecord>

    constructor (maxLoops: nat)
      ensures this.maxLoops == maxLoops && currentLoop == 0 && targetUrl == None && loopHistory == []
    {
      this.maxLoops := maxLoops;
      currentLoop := 0;
      targetUrl := None;
      loopHistory := [];
    }

    /** The body of one iteration (the `try` block), stage by stage. */
    method ExecuteIteration(url: string, o: Oracles) returns (record: Option<LoopRecord>)
      ensures record == Iteration(o, url, currentLoop, Last(loopHistory))
    {
      var loopDir := LoopDirName(currentLoop, o.clock(currentLoop));
      var specResult := o.extract(url, currentLoop);
      if specResult.None? {
        return None;
      }
      var design := RunTestDesign();
      var execution := RunTestExecution(design);
      if execution.None? {
        return None;
      }
      var previous := if loopHistory != [] then Some(loopHistory[|loopHistory| - 1]) else None;
      var improvement := o.analyze(execution.value, previous, currentLoop);
      if improvement.None? {
        return None;
      }
      record := Some(LoopRecord(currentLoop, loopDir, specResult.value, design, execution.value,
                                improvement.value, o.clock(currentLoop)));
    }

    /** The `while` loop of `start_loop_process`: iterations from 1 until
        a stage raises, the stop rule holds or `maxLoops` have started;
        each record is appended to the history as well. */
    method RunIterations(url: string, o: Oracles) returns (loopResults: seq<LoopRecord>)
      modifies this
      ensures var st := Run(o, url, maxLoops, old(loopHistory));
        loopResults == st.records && currentLoop == st.lastLoop &&
        loopHistory == old(loopHistory) + st.records
      ensures targetUrl == old(targetUrl)
    {
      currentLoop := 0;
      loopResults := [];
      ghost var history := loopHistory;
      ghost var step, cont := ControllerStep(o, url, history), ControllerContinue(maxLoops);
      ghost var run := Run(o, url, maxLoops, history);
      assert run == LoopRun.RunFrom(step, cont, maxLoops, currentLoop, loopResults);

      while currentLoop < maxLoops
        invariant currentLoop <= maxLoops
        invariant targetUrl == old(targetUrl)
        invariant loopHistory == history + loopResults
        invariant LoopRun.RunFrom(step, cont, maxLoops, currentLoop, loopResults) == run
        decreases maxLoops - currentLoop
      {
        LoopRun.RunFromStep(step, cont, maxLoops, currentLoop, loopResults);
        currentLoop := currentLoop + 1;
        var record := ExecuteIteration(url, o);
        assert step(currentLoop, loopResults) == record;
        if record.None? {
          break;
        }
        loopResults := loopResults + [record.value];
        loopHistory := loopHistory + [record.value];
        if !ShouldContinueLoop(record.value.analysis, currentLoop, maxLoops) {
          assert !cont(record.value, currentLoop);
          break;
        }
        assert cont(record.value, currentLoop);
      }
    }

    /** `start_loop_process`: records the target, runs the iterations,
        then builds the report from the records this run appended. */
    method StartLoopProcess(url: string, o: Oracles, reportTime: string) returns (result: LoopProcessResult)
      modifies this
      ensures var st := Run(o, url, maxLoops, old(loopHistory));
        result.loopResults == st.records && currentLoop == st.lastLoop &&
        loopHistory == old(loopHistory) + st.records
      ensures targetUrl == Some(url)
      ensures result.totalLoops == |result.loopResults|
      ensures result.finalReport == GenerateFinalReport(Some(url), result.loopResults, reportTime)
    {
      targetUrl := Some(url);
      var loopResults := RunIterations(url, o);
      var report := GenerateFinalReport(targetUrl, loopResults, reportTime);
      result := LoopProcessResult(|loopResults|, loopResults, report);
    }
  }
}
