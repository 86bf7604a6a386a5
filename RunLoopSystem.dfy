/** The integrated driver: the Ollama check, the integration level
    classification, the main improvement loop over the integration
    stages, its final report and recommendations, and the totals of the
    final summary. */
module RunLoopSystem {
  import opened Records
  import opened Text
  import LoopRun
  import LoopSystem
  import SystemIntegration

  /** How much of the system is connected. */
  datatype IntegrationLevel = Full | Partial | Basic

  const OllamaUrl: string := "http://localhost:11434/api/tags"

  /** The record iteration k of the main loop produces, given the record
      before it in this run (None: a stage raised). */
  function IntegratedIteration(st: Stages, url: string, k: nat, previous: Option<LoopRecord>): (r: Option<LoopRecord>)
    ensures r.Some? ==> r.value.loopNumber == k && r.value.directory == LoopSystem.LoopDirName(k, st.clock(k))
    ensures r.Some? <==>
      st.extract(url, k).Some? &&
      st.design(st.extract(url, k).value, k).Some? &&
      st.execute(st.design(st.extract(url, k).value, k).value, k).Some? &&
      st.analyze(st.execute(st.design(st.extract(url, k).value, k).value, k).value, previous, k).Some?
  {
    match st.extract(url, k)
    case None => None
    case Some(spec) =>
      match st.design(spec, k)
      case None => None
      case Some(design) =>
        match st.execute(design, k)
        case None => None
        case Some(exec) =>
          match st.analyze(exec, previous, k)
          case None => None
          case Some(analysis) =>
            Some(LoopRecord(k, LoopSystem.LoopDirName(k, st.clock(k)), spec, design, exec, analysis, st.clock(k)))
  }

  /** The improvement goal: no failed tests and at most one suggestion. */
  predicate GoalReached(a: Analysis) {
    |a.failedTests| == 0 && |a.suggestions| <= 1
  }

  /** The previous record handed to the analyzer is the last one of this
      run (`loop_results[-1]`), not of any earlier run. */
  function IntegratedStep(st: Stages, url: string): (nat, seq<LoopRecord>) -> Option<LoopRecord> {
    (k: nat, acc: seq<LoopRecord>) => IntegratedIteration(st, url, k, Last(acc))
  }

  function IntegratedContinue(): (LoopRecord, nat) -> bool {
    (rec: LoopRecord, k: nat) => !GoalReached(rec.analysis)
  }

  /** The run `_execute_main_loop` performs. */
  function IntegratedRun(st: Stages, url: string, maxLoops: nat): LoopRun.RunState {
    LoopRun.Run(IntegratedStep(st, url), IntegratedContinue(), maxLoops)
  }

  /** The main loop's records: at most `maxLoops` iterations start, the
      records are numbered 1..n, and each iteration is analysed with the
      last record before it in this run (none for the first). */
  lemma IntegratedRunShape(st: Stages, url: string, maxLoops: nat)
    ensures var run := IntegratedRun(st, url, maxLoops);
      |run.records| <= run.lastLoop <= maxLoops && run.lastLoop <= |run.records| + 1 &&
      forall i :: 0 <= i < |run.records| ==>
        run.records[i].loopNumber == i + 1 &&
        IntegratedIteration(st, url, i + 1, Last(run.records[..i])) == Some(run.records[i])
  {
    var step, cont := IntegratedStep(st, url), IntegratedContinue();
    LoopRun.RunShape(step, cont, maxLoops);
    var run := IntegratedRun(st, url, maxLoops);
    forall i | 0 <= i < |run.records|
      ensures run.records[i].loopNumber == i + 1
      ensures IntegratedIteration(st, url, i + 1, Last(run.records[..i])) == Some(run.records[i])
    {
      assert step(i + 1, run.records[..i]) == Some(run.records[i]);
    }
  }

  /** How the main loop ends: only the last record may have reached the
      goal; a run that recorded every iteration it started and ended before
      the maximum ended on a record that reached the goal; and one that
      started an iteration more than it recorded ended on an iteration
      whose stages raised. */
  lemma IntegratedRunEnd(st: Stages, url: string, maxLoops: nat)
    ensures var run := IntegratedRun(st, url, maxLoops);
      (forall i :: 0 <= i < |run.records| - 1 ==> !GoalReached(run.records[i].analysis)) &&
      (run.lastLoop == |run.records| < maxLoops ==>
         run.records != [] && GoalReached(run.records[|run.records| - 1].analysis)) &&
      (run.lastLoop == |run.records| + 1 ==> IntegratedIteration(st, url, run.lastLoop, Last(run.records)) == None)
  {
    var step, cont := IntegratedStep(st, url), IntegratedContinue();
    LoopRun.RunShape(step, cont, maxLoops);
    var run := IntegratedRun(st, url, maxLoops);
    forall i | 0 <= i < |run.records| - 1
      ensures !GoalReached(run.records[i].analysis)
    {
      assert cont(run.records[i], i + 1);
    }
    if run.lastLoop == |run.records| < maxLoops {
      assert !cont(run.records[|run.records| - 1], |run.records|);
    }
    if run.lastLoop == |run.records| + 1 {
      assert step(run.lastLoop, run.records) == None;
    }
  }

  /** If the k-th record reaches the goal, the run has exactly k records. */
  lemma IntegratedStopsAt(st: Stages, url: string, maxLoops: nat, k: nat)
    requires var run := IntegratedRun(st, url, maxLoops);
      1 <= k <= |run.records| && GoalReached(run.records[k - 1].analysis)
    ensures |IntegratedRun(st, url, maxLoops).records| == k
  {
    var step, cont := IntegratedStep(st, url), IntegratedContinue();
    var run := IntegratedRun(st, url, maxLoops);
    assert !cont(run.records[k - 1], k);
    LoopRun.RunStopsAt(step, cont, maxLoops, k);
  }

  // ---------------------------------------------------------------------
  // Final report

  /** `sum(len(r["improvement_analysis"]["improvement_suggestions"]) ...)` */
  function TotalSuggestions(records: seq<LoopRecord>): nat {
    if records == [] then 0
    else TotalSuggestions(records[..|records| - 1]) + |records[|records| - 1].analysis.suggestions|
  }

  /** The failed-test count of the last iteration, 0 when there is none. */
  function FinalLoopFailures(records: seq<LoopRecord>): (n: nat)
    ensures records == [] ==> n == 0
    ensures records != [] ==> n == LoopSystem.FailureCounts(records)[|records| - 1]
  {
    if records == [] then 0 else |records[|records| - 1].analysis.failedTests|
  }

  const InsufficientData: string := "データが不足しているため、推奨事項を生成できませんでした。"
  const StableMessage: string := "システムは安定しており、継続的な監視を推奨します。"

  /** One recommendation: the category (一般 when missing), ": " and the
      description ("" when missing); a null member prints as "None". */
  function RecommendationLine(s: Suggestion): string {
    Render(s.category, "一般") + ": " + Render(s.description, "")
  }

  /** `_generate_recommendations`: with no iterations, the single
      insufficient-data message; otherwise one line for each of the first
      three suggestions of the last iteration, in order, or the single
      stable message when it has none. */
  function GenerateRecommendations(records: seq<LoopRecord>): (r: seq<string>)
    ensures 1 <= |r| <= 3
    ensures records == [] ==> r == [InsufficientData]
    ensures records != [] && LoopSystem.LatestSuggestions(records) == [] ==> r == [StableMessage]
    ensures records != [] && LoopSystem.LatestSuggestions(records) != [] ==>
      |r| == LoopSystem.Min(3, |LoopSystem.LatestSuggestions(records)|) &&
      forall i :: 0 <= i < |r| ==> r[i] == RecommendationLine(LoopSystem.LatestSuggestions(records)[i])
  {
    if records == [] then [InsufficientData]
    else
      var latest := records[|records| - 1].analysis.suggestions;
      var top := if |latest| <= 3 then latest else latest[..3];
      if top == [] then [StableMessage]
      else seq(|top|, i requires 0 <= i < |top| => RecommendationLine(top[i]))
  }

  /** Once there is an iteration, both drivers recommend the same number of
      items. Each one's own contract makes line i out of the last
      iteration's i-th suggestion; the two differ only in wording. */
  lemma RecommendationsAgreeWithController(records: seq<LoopRecord>)
    requires records != []
    ensures |GenerateRecommendations(records)| == |LoopSystem.FinalRecommendations(records)|
    ensures LoopSystem.LatestSuggestions(records) == [] ==>
      |GenerateRecommendations(records)| == 1 && GenerateRecommendations(records) != LoopSystem.FinalRecommendations(records)
  {
    if LoopSystem.LatestSuggestions(records) == [] {
      assert StableMessage[5] != LoopSystem.StableMessage[5];
    }
  }

  /** The final report, without the float success rate. */
  datatype IntegratedReport = IntegratedReport(
    targetUrl: string,
    totalLoopsExecuted: nat,
    totalTestsRun: nat,
    totalFailuresIdentified: nat,
    totalImprovementsSuggested: nat,
    finalLoopFailures: nat,
    recommendations: seq<string>,
    generatedAt: string,
    maxLoops: nat,
    ollamaAvailable: bool)

  /** `_generate_final_report` */
  function GenerateFinalReport(records: seq<LoopRecord>, targetUrl: string, now: string, maxLoops: nat, ollama: bool): (r: IntegratedReport)
    ensures r.totalLoopsExecuted == |records|
    ensures r.totalTestsRun == LoopSystem.TotalTests(records)
    ensures r.totalFailuresIdentified == LoopSystem.TotalFailures(records) == LoopSystem.SumNat(LoopSystem.FailureCounts(records))
    ensures r.totalImprovementsSuggested == TotalSuggestions(records)
    ensures r.finalLoopFailures == FinalLoopFailures(records)
    ensures r.recommendations == GenerateRecommendations(records) && 1 <= |r.recommendations| <= 3
    ensures r.targetUrl == targetUrl && r.maxLoops == maxLoops && r.ollamaAvailable == ollama
  {
    LoopSystem.TotalFailuresIsTrendSum(records);
    IntegratedReport(targetUrl, |records|, LoopSystem.TotalTests(records), LoopSystem.TotalFailures(records),
                     TotalSuggestions(records), FinalLoopFailures(records), GenerateRecommendations(records),
                     now, maxLoops, ollama)
  }

  /** The integrated report's totals agree with the LoopController's report
      on the same records: the same loop count, test total, and failure
      total, which is the sum of the failure trend. */
  lemma ReportsAgree(records: seq<LoopRecord>, url: string, now: string, maxLoops: nat, ollama: bool)
    ensures var r := GenerateFinalReport(records, url, now, maxLoops, ollama);
      var c := LoopSystem.GenerateFinalReport(Some(url), records, now);
      r.totalLoopsExecuted == c.totalLoopsExecuted && r.totalTestsRun == c.totalTestsRun &&
      r.totalFailuresIdentified == c.totalFailuresIdentified &&
      r.totalFailuresIdentified == LoopSystem.SumNat(c.trend.failureTrend) &&
      (records != [] ==> r.finalLoopFailures == c.trend.failureTrend[|records| - 1])
  {
    LoopSystem.TotalFailuresIsTrendSum(records);
  }

  /** Appending an iteration adds exactly its suggestions to the total and
      makes its failure count the final one. */
  lemma ReportAppend(records: seq<LoopRecord>, r: LoopRecord)
    ensures TotalSuggestions(records + [r]) == TotalSuggestions(records) + |r.analysis.suggestions|
    ensures FinalLoopFailures(records + [r]) == |r.analysis.failedTests|
  {
    assert (records + [r])[..|records|] == records;
  }

  /** What `_execute_main_loop` returns. */
  datatype MainLoopResult = MainLoopResult(
    totalLoopsExecuted: nat,
    loopResults: seq<LoopRecord>,
    finalReport: IntegratedReport,
    targetUrl: string)

  /** The body of one iteration of the main loop, stage by stage. */
  method RunIteration(st: Stages, url: string, currentLoop: nat, loopResults: seq<LoopRecord>) returns (record: Option<LoopRecord>)
    ensures record == IntegratedIteration(st, url, currentLoop, Last(loopResults))
  {
    var loopDir := LoopSystem.LoopDirName(currentLoop, st.clock(currentLoop));
    var specResult := st.extract(url, currentLoop);
    if specResult.None? {
      return None;
    }
    var design := st.design(specResult.value, currentLoop);
    if design.None? {
      return None;
    }
    var execution := st.execute(design.value, currentLoop);
    if execution.None? {
      return None;
    }
    var previous := if loopResults != [] then Some(loopResults[|loopResults| - 1]) else None;
    var improvement := st.analyze(execution.value, previous, currentLoop);
    if improvement.None? {
      return None;
    }
    record := Some(LoopRecord(currentLoop, loopDir, specResult.value, design.value, execution.value,
                              improvement.value, st.clock(currentLoop)));
  }

  /** The integrated system's state: the configured maximum and whether
      the Ollama server answered. */
  class IntegratedLoopSystem {
    const maxLoops: nat
    var ollamaRequired: bool

    constructor(maxLoops: nat)
      ensures this.maxLoops == maxLoops && ollamaRequired
    {
      this.maxLoops := maxLoops;
      ollamaRequired := true;
    }

    /** The Ollama part of `_check_prerequisites`: the server counts as
        available exactly when it answers with status 200; any other
        answer or an exception marks it unavailable. */
    method CheckOllama(probe: string -> SystemIntegration.Probe)
      modifies this
      ensures ollamaRequired <==> probe(OllamaUrl).Responded? && probe(OllamaUrl).statusCode == 200
    {
      var p := probe(OllamaUrl);
      if p.Responded? && p.statusCode == 200 {
        ollamaRequired := true;
      } else {
        ollamaRequired := false;
      }
    }

    /** `_verify_system_integration`: full, downgraded to partial when
        either application (or both) is down, and to basic without Ollama
        whatever the applications' state. */
    method VerifySystemIntegration(probe: string -> SystemIntegration.Probe) returns (level: IntegrationLevel)
      ensures var design := SystemIntegration.CheckAppAvailability(probe(SystemIntegration.DesignAppUrl)).available;
        var execution := SystemIntegration.CheckAppAvailability(probe(SystemIntegration.ExecutionAppUrl)).available;
        (level == Basic <==> !ollamaRequired) &&
        (level == Partial <==> ollamaRequired && !(design && execution)) &&
        (level == Full <==> ollamaRequired && design && execution)
    {
      var serviceStatus := SystemIntegration.CheckAllServices(probe);
      level := Full;
      if !serviceStatus[SystemIntegration.DesignAppName].available {
        level := Partial;
      }
      if !serviceStatus[SystemIntegration.ExecutionAppName].available {
        level := Partial;
      }
      if !ollamaRequired {
        level := Basic;
      }
    }

    /** `_execute_main_loop`: runs the iterations with a local counter and
        record list, then builds the report from those records. */
    method ExecuteMainLoop(url: string, st: Stages, now: string) returns (result: MainLoopResult)
      ensures var run := IntegratedRun(st, url, maxLoops);
        result.loopResults == run.records && result.totalLoopsExecuted == |run.records| &&
        result.finalReport == GenerateFinalReport(run.records, url, now, maxLoops, ollamaRequired) &&
        result.targetUrl == url
    {
      var currentLoop := 0;
      var loopResults: seq<LoopRecord> := [];
      ghost var step, cont := IntegratedStep(st, url), IntegratedContinue();
      ghost var run := IntegratedRun(st, url, maxLoops);
      assert run == LoopRun.RunFrom(step, cont, maxLoops, currentLoop, loopResults);

      while currentLoop < maxLoops
        invariant currentLoop <= maxLoops
        invariant LoopRun.RunFrom(step, cont, maxLoops, currentLoop, loopResults) == run
        decreases maxLoops - currentLoop
      {
        LoopRun.RunFromStep(step, cont, maxLoops, currentLoop, loopResults);
        currentLoop := currentLoop + 1;
        var record := RunIteration(st, url, currentLoop, loopResults);
        assert step(currentLoop, loopResults) == record;
        if record.None? {
          break;
        }
        loopResults := loopResults + [record.value];
        if GoalReached(record.value.analysis) {
          assert !cont(record.value, currentLoop);
          break;
        }
        assert cont(record.value, currentLoop);
      }

      var finalReport := GenerateFinalReport(loopResults, url, now, maxLoops, ollamaRequired);
      result := MainLoopResult(|loopResults|, loopResults, finalReport, url);
    }
  }

  // ---------------------------------------------------------------------
  // Final summary

  /** `sum(r["test_execution"].get("failed_tests", 0) ...)`: the failures
      the executions reported, as opposed to the analysed failures the
      report counts. */
  function ExecutionFailures(records: seq<LoopRecord>): int {
    if records == [] then 0
    else ExecutionFailures(records[..|records| - 1]) + records[|records| - 1].execution.failedTests
  }

  /** The totals `_display_final_summary` accumulates over the records. */
  method DisplayFinalSummary(result: MainLoopResult) returns (totalTests: nat, totalFailures: int)
    ensures totalTests == LoopSystem.TotalTests(result.loopResults)
    ensures totalFailures == ExecutionFailures(result.loopResults)
  {
    var records := result.loopResults;
    totalTests, totalFailures := 0, 0;
    for i := 0 to |records|
      invariant totalTests == LoopSystem.TotalTests(records[..i])
      invariant totalFailures == ExecutionFailures(records[..i])
    {
      assert records[..i + 1][..i] == records[..i];
      totalTests := totalTests + records[i].execution.totalTests;
      totalFailures := totalFailures + records[i].execution.failedTests;
    }
    assert records[..|records|] == records;
  }

  /** The summary's failure total equals the report's when every execution
      reports as many failures as its analysis extracted. */
  lemma {:induction false} SummaryMatchesReportWhenAnalysesAgree(records: seq<LoopRecord>)
    requires forall i :: 0 <= i < |records| ==> records[i].execution.failedTests == |records[i].analysis.failedTests|
    ensures ExecutionFailures(records) == LoopSystem.TotalFailures(records)
  {
    if records != [] {
      SummaryMatchesReportWhenAnalysesAgree(records[..|records| - 1]);
    }
  }
}
