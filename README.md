# Loop-type multi-agent test system, modelled in Dafny

The system improves a web application's test suite in loops. Each
iteration does four things:

1. Extracts a specification from the target URL.
2. Has test design agents turn it into test cases.
3. Executes the cases.
4. Analyses the failures into improvement suggestions.

The loop stops after `max_loops` iterations, when a stage raises, or when
an iteration finds no failed test and at most one suggestion. A final
report then sums the iterations.

Two drivers run this loop:

- `LoopController` in `loop_system.py` uses simulated design and
  execution stages.
- `IntegratedLoopSystem` in `run_loop_system.py` delegates design and
  execution to two Flask applications, the test design app and the test
  execution app. It falls back to local substitutes when an application
  is down (`system_integration.py`).

This project models:

- The iteration skeleton shared by both drivers (`LoopRun`). The stages
  are oracles: a stage that raised yields `None`.
- The controller's simulated stages, its directory naming, stop rule,
  trend analysis, final report and recommendations, and the improvement
  analyzer's pure helpers and fallbacks (`LoopSystem`).
- The availability checks, the delegated design and execution, and their
  aggregation. Also the fixed fallback design and the coin-driven
  fallback execution, and the choice between them (`SystemIntegration`).
- The integrated main loop, the integration level, the report without
  its float success rate, the recommendations and the summary totals
  (`RunLoopSystem`).
- The execution app's per-test-case state machine, held in classes
  updated in place: `TestExecution`, the id-keyed `TestExecutionManager`
  and the server's uploaded-case list. Also its CSV export rows, the
  parsing of an uploaded CSV, and the lookup that creates an execution
  (`ExecutionApp`).
- The design app's agent fallbacks, the in-order merge of the agents'
  answers, `get_results`, and the CSV download (`DesignApp`). A
  round-trip lemma ties the download to the execution app's upload
  parsing.

Python's `str.strip`, `split`, `join`, `in` on strings, `str(n)` and
`{n:03d}` are defined in `Text`. Shared value types are in `Records`.

## Model

| member | source | states |
|---|---|---|
| Text.Strip | test_execution_app/app.py:223-224 | `strip()` leaves no leading or trailing whitespace, never lengthens, and leaves an already trimmed string unchanged |
| Text.StripCut | test_execution_app/app.py:223-224 | `strip()` gives a contiguous slice of its input, and everything cut off on either side of it is whitespace |
| Text.StripAndDrop | test_execution_app/app.py:223-224 | the strip-and-filter comprehension keeps only non-empty trimmed items and never adds any |
| Text.StripAndDropMembers | test_execution_app/app.py:223-224 | the kept items are exactly the non-empty stripped inputs |
| Text.StripAndDropAppend | test_execution_app/app.py:223-224 | the comprehension works item by item, so the kept items keep their input order |
| Text.SplitListJoin | test_execution_app/app.py:223-224 | splitting a comma-join of non-empty, trimmed, comma-free items, then stripping and dropping empties, gives back exactly those items |
| Text.Pad3Injective | loop_system.py:553 | distinct iteration numbers have distinct `{n:03d}` forms |
| Text.NatToStringValue | test_execution_app/app.py:162-163 | the decimal text written for a number reads back as that number |
| LoopSystem.FallbackSections | loop_system.py:260-284 | the fallback document has the six fixed section headings in order, every section non-empty, the first naming the target URL |
| LoopSystem.FallbackFeatures | loop_system.py:239-258 | the fallback features hold one main feature and one two-step scenario |
| LoopSystem.EstimateFeatures | loop_system.py:133-185 | the features are exactly the LLM's parsed reply when there is a client and the reply parsed, and exactly the fallback features otherwise |
| LoopSystem.GenerateSpecificationDocument | loop_system.py:187-226 | the document is exactly the LLM's text when there is a client and the call returned, and exactly the fallback document otherwise |
| LoopSystem.ExtractSpecifications | loop_system.py:50-78 | the spec always names the target URL; a raising HTML analysis gives exactly the fallback spec; otherwise the HTML and UI components are kept, the features are `EstimateFeatures`, the document is `GenerateSpecificationDocument` and the timestamp is the current time |
| LoopSystem.FallbackSpecUsable | loop_system.py:228-237 | the fallback spec has at least one feature and a document made of the six fixed sections |
| LoopSystem.ExtractFailedTests | loop_system.py:320-335 | the loop collects exactly the failed-test summary `FailedOf` of the execution results |
| LoopSystem.FailedOfAppend | loop_system.py:320-335 | failed-test extraction distributes over concatenation, so input order is kept |
| LoopSystem.FailedOfMembers | loop_system.py:320-335 | every failed or error result is extracted, only such results are, and no more entries than results |
| LoopSystem.HighPriorityOf | loop_system.py:422 | the priority list holds exactly the suggestions whose priority is the string 高 (a missing or null priority is not) |
| LoopSystem.StrategiesOf | loop_system.py:423 | the strategy list holds exactly the `test_strategy` members that are present, null ones included, at most one per suggestion |
| LoopSystem.CreateNextLoopPlan | loop_system.py:418-425 | a plan exists iff every suggestion has a "category" key, null or not (otherwise the KeyError); its focus areas are the category members in order, nulls included, its priority items exactly the 高 suggestions, its strategy updates the suggestions' test strategies, and its effort 中 for at most 3 suggestions and 高 otherwise |
| LoopSystem.FallbackImprovements | loop_system.py:427-437 | the fallback is one categorised suggestion of priority 高 |
| LoopSystem.GenerateImprovements | loop_system.py:359-416 | with a client and a parsed reply: the reply's list, [] when the "improvements" key is missing, and None exactly when its value is null; otherwise the fallback suggestion |
| LoopSystem.AnalyzeImprovements | loop_system.py:292-318 | the fallback analysis exactly when the generated list is None (the TypeError) or a suggestion has no "category" key (the KeyError); otherwise the extracted failed tests with the suggestions of `GenerateImprovements` and the plan of `CreateNextLoopPlan` |
| LoopSystem.NoClientAnalysis | loop_system.py:359-361 | without a client there is exactly one suggestion, so the loop continues iff some test failed |
| LoopSystem.RunTestDesign | loop_system.py:573-590 | the simulated design has five cases with ids TC-001..TC-005 and names |
| LoopSystem.RunTestDesignDistinctIds | loop_system.py:573-590 | the five simulated ids are pairwise distinct |
| LoopSystem.CountSimulatedIs | loop_system.py:606-608 | among cases 1..n, n/4 fail and n - n/4 pass |
| LoopSystem.RunTestExecution | loop_system.py:592-609 | the report exists iff every case has an id and a name; then one result per case in order, case i failing iff i % 4 == 0, a reason iff failed, passed + failed == total, failed == n/4 |
| LoopSystem.FailedOfSimulated | loop_system.py:592-609 | the analysis extracts exactly the n/4 simulated failures |
| LoopSystem.ControllerExecutionFixed | loop_system.py:592-609 | every controller iteration runs 5 cases, 4 passed and 1 failed, and the analysis sees one failure |
| LoopSystem.LoopNumberRoundTrip | loop_system.py:551-561 | the `loop-{n:03d}_` directory name gives back n whatever the timestamp |
| LoopSystem.LoopDirNamesDistinct | loop_system.py:551-561 | iterations with different numbers get different directories |
| LoopSystem.Iteration | loop_system.py:489-525 | a recorded iteration carries its number and the directory named after it |
| LoopSystem.RunShape | loop_system.py:474-549 | at most `max_loops` iterations start; records are numbered 1..n and sit in their named directories; each record is what the stages produced given the last history entry; only the last record may stop the loop; a run that started one iteration more than it recorded ended on a raising stage |
| LoopSystem.ControllerStopsAt | loop_system.py:528-533 | if `_should_continue_loop` is false after iteration k, the run returns exactly k records |
| LoopSystem.EarlyStopHasNoFailures | loop_system.py:616-628 | a run that stopped before the maximum without a raising stage ended on an iteration with no failed tests, so stability is reported |
| LoopSystem.FailureCounts | loop_system.py:647-650 | the trend has one entry per iteration, the length of its failed-test list |
| LoopSystem.TotalFailuresIsTrendSum | loop_system.py:630-639 | the failure total is the sum of the failure trend |
| LoopSystem.TotalsAppend | loop_system.py:632-633 | appending an iteration adds exactly its test count and failure count to the totals |
| LoopSystem.AnalyzeImprovementTrend | loop_system.py:645-656 | improvement iff at least 2 iterations and last < first; stability iff some iteration and the last has no failures |
| LoopSystem.FinalRecommendations | loop_system.py:658-671 | 1..3 lines: one per leading suggestion of the last iteration, in order, a missing category printed as 一般 and a null one as None, or the single stable message when it has none |
| LoopSystem.GenerateFinalRecommendations | loop_system.py:658-671 | the append loop builds exactly `FinalRecommendations` |
| LoopSystem.GenerateFinalReport | loop_system.py:630-643 | loops executed == number of records == trend length; tests run is the sum of the records' test counts; failures == trend sum; the trend flags are those of `AnalyzeImprovementTrend`; the 1..3 recommendations are `FinalRecommendations` |
| LoopSystem.LoopController.constructor | loop_system.py:452-456 | a new controller is at loop 0 with no target and an empty history |
| LoopSystem.LoopController.ExecuteIteration | loop_system.py:489-525 | the try block yields the record `Iteration` specifies, with the last history entry as the previous data |
| LoopSystem.LoopController.RunIterations | loop_system.py:476-540 | the while loop appends exactly the run's records to both its result and the history, and leaves the counter where the run ends |
| LoopSystem.LoopController.StartLoopProcess | loop_system.py:474-549 | the target is recorded; the records are the run's; the history grows by them; total_loops == their number; the report is built from them |
| LoopRun.FaithfulSnoc | loop_system.py:524-525 | appending the next iteration's record keeps every record faithful to its iteration |
| LoopRun.RunFromBounds | loop_system.py:483-484 | from any point, iterations started stay within `max_loops` and at most one more than recorded, and earlier records are kept |
| LoopRun.RunFromFaithful | loop_system.py:514-525 | every appended record is what its iteration produced, and every record but the last let the loop go on |
| LoopRun.RunFromEnd | loop_system.py:528-540 | a run ends on a raising stage, at the maximum, or on a record that fails the continuation test |
| LoopRun.RunShape | loop_system.py:483-540 | the shape of a whole run: bounds, faithful records, and why it ended |
| LoopRun.RunStopsAt | loop_system.py:528-533 | a run stops at the first record that fails the continuation test |
| SystemIntegration.CheckAppAvailability | system_integration.py:309-325 | available iff a response came with status 200; the status code and length are reported iff there was a response; an error iff the request raised |
| SystemIntegration.CheckAllServices | system_integration.py:328-339 | one availability entry for each of the two applications, keyed by name |
| SystemIntegration.CreateTestDesignFromSpec | system_integration.py:25-69 | delegated success iff both upload and design succeeded, carrying the document, its counts and the downloaded CSV; any failure gives success false, fallback_used true, no test cases and no CSV |
| SystemIntegration.StepOutcomeOf | system_integration.py:251-280 | step i keeps its index and description; passed iff the report did not raise and the coin passed; an error iff there is no result |
| SystemIntegration.CaseOutcome | system_integration.py:179-227 | a failed creation gives failed with a reason; otherwise one step outcome per declared step with indices 0..n-1, and the fetched status (unknown when absent) |
| SystemIntegration.ExecuteSingleTestCase | system_integration.py:179-219 | the step loop produces exactly `CaseOutcome` |
| SystemIntegration.CountComplement | system_integration.py:139-141 | results with and without a status add up to all results |
| SystemIntegration.DelegatedExecution | system_integration.py:120-166 | a failed upload gives no results and zero counts; otherwise one result per uploaded case in order, passed = results literally passed, failed = total - passed |
| SystemIntegration.ExecuteTestCases | system_integration.py:120-166 | the loop over uploaded cases produces exactly `DelegatedExecution` |
| SystemIntegration.DelegatedNeverPasses | system_integration.py:139-141 | when the app never reports "passed", every delegated test counts as failed |
| SystemIntegration.FallbackDesignCases | system_integration.py:393-406 | the fallback design has exactly two cases, TC-001 and TC-002, each with two steps and one expected result |
| SystemIntegration.FallbackRowFields | system_integration.py:411 | a line of one of the two fixed fallback cases has 5 + steps + expected fields, the steps from the fourth field on |
| SystemIntegration.FallbackTestDesign | system_integration.py:390-420 | the result is the two cases with fallback_used, and the CSV is the header plus one line per case |
| SystemIntegration.FallbackCsvMisaligned | system_integration.py:409-411 | the fallback rows have 8 fields under a 7-column header, so "Test Steps" holds only the first step and "Expected Results" the second step |
| SystemIntegration.CorrectedRowFields | system_integration.py:409 | the corrected row has one field per header column |
| SystemIntegration.CorrectedRowRoundTrip | system_integration.py:409-411 | read through the header and split-strip-drop, the corrected row gives back the steps and expected results |
| SystemIntegration.FallbackCase | system_integration.py:430-437 | a missing id defaults to `TC-{i+1:03d}`; the status follows the coin; a reason iff failed |
| SystemIntegration.FallbackResults | system_integration.py:424-437 | one result per case in order, passed iff its coin passed, failed otherwise, a reason iff failed |
| SystemIntegration.PassedOrFailed | system_integration.py:443-444 | results that are all passed or failed split into the two counts |
| SystemIntegration.FallbackExecution | system_integration.py:422-452 | passed and failed count the two statuses and add up to the total; fallback_used is set |
| SystemIntegration.FallbackTestExecution | system_integration.py:422-452 | the loop produces exactly `FallbackExecution` on the design's `test_cases` |
| SystemIntegration.RunIntegratedTestDesign | system_integration.py:363-374 | delegates iff the design app is available, otherwise the fallback design; a CSV is written iff the design succeeded |
| SystemIntegration.RunIntegratedTestExecution | system_integration.py:376-388 | delegates iff the execution app is available and `test_cases.csv` exists; fallback_used is set exactly otherwise |
| SystemIntegration.DelegatedDesignStarvesFallback | system_integration.py:424 | after a delegated design the fallback execution finds no `test_cases` and runs nothing |
| SystemIntegration.FailedDesignRunsNothing | system_integration.py:63-69 | a failed delegated design carries no test cases and writes no CSV |
| RunLoopSystem.IntegratedIteration | run_loop_system.py:206-261 | a record exists iff no stage raised; it carries its number and the directory named after it |
| RunLoopSystem.IntegratedRunShape | run_loop_system.py:192-261 | at most `max_loops` iterations start; records are numbered 1..n; each is analysed with the previous record of this run (none for the first) |
| RunLoopSystem.IntegratedRunEnd | run_loop_system.py:263-275 | only the last record may reach the goal; an early end without a raising stage reached it; an extra started iteration raised |
| RunLoopSystem.IntegratedStopsAt | run_loop_system.py:264-267 | if iteration k reaches the goal, the run has exactly k records |
| RunLoopSystem.FinalLoopFailures | run_loop_system.py:361 | the last iteration's failure count (the last trend entry), 0 without iterations |
| RunLoopSystem.GenerateRecommendations | run_loop_system.py:371-387 | no iterations give the single insufficient-data message; otherwise one line per leading suggestion (at most 3) in order, a missing category printed as 一般 and a null one as None, or the single stable message |
| RunLoopSystem.RecommendationsAgreeWithController | run_loop_system.py:371-387 | with iterations, both drivers recommend the same number of items; without suggestions in the last iteration, each gives one stable message and the two messages differ |
| RunLoopSystem.GenerateFinalReport | run_loop_system.py:337-369 | the loop count, the test and failure totals (the failure total being the trend sum), the suggestion total, the last iteration's failures and the recommendations of `GenerateRecommendations`; `ReportsAgree` and `ReportAppend` relate it to the controller's report and to a longer run |
| RunLoopSystem.ReportsAgree | run_loop_system.py:337-362 | the integrated report's loop, test and failure totals equal the controller's, the failure total is the trend sum, and final_loop_failures is the last trend entry |
| RunLoopSystem.ReportAppend | run_loop_system.py:356-361 | appending an iteration adds its suggestions to the total and makes its failures the final ones |
| RunLoopSystem.RunIteration | run_loop_system.py:206-261 | the try block yields the record `IntegratedIteration` specifies, with `loop_results[-1]` as previous data |
| RunLoopSystem.IntegratedLoopSystem.constructor | run_loop_system.py:29-33 | Ollama starts out marked as required |
| RunLoopSystem.IntegratedLoopSystem.CheckOllama | run_loop_system.py:98-109 | Ollama is available iff its probe answered with status 200 |
| RunLoopSystem.IntegratedLoopSystem.VerifySystemIntegration | run_loop_system.py:159-186 | basic iff no Ollama; partial iff Ollama and either app (or both) down; full iff Ollama and both apps up |
| RunLoopSystem.IntegratedLoopSystem.ExecuteMainLoop | run_loop_system.py:188-286 | the while loop returns exactly the run's records, their count and the report built from them |
| RunLoopSystem.DisplayFinalSummary | run_loop_system.py:300-317 | the totals are the sums of the executions' `total_tests` and `failed_tests` |
| RunLoopSystem.SummaryMatchesReportWhenAnalysesAgree | run_loop_system.py:305-311 | the summary's failure total equals the report's when each execution's failure count equals its analysis's |
| ExecutionApp.NewExecution | test_execution_app/app.py:32-43 | a new execution is pending with no results and no interventions, and consistent |
| ExecutionApp.Started | test_execution_app/app.py:45-49 | running, cursor 0, start time set; results and interventions kept |
| ExecutionApp.StepCompleted | test_execution_app/app.py:51-58 | exactly one result appended and the cursor +1 whatever the status; completed iff the cursor reaches the step count, else the status is kept; consistency preserved |
| ExecutionApp.Intervened | test_execution_app/app.py:60-68 | one log entry appended and nothing else changes |
| ExecutionApp.StepsCompletedState | test_execution_app/app.py:51-58 | after several completions the results grew by those records and the cursor by their number; completed iff it already was or the cursor reached the step count |
| ExecutionApp.StartedThenStepped | test_execution_app/app.py:45-58 | started then stepped: completed iff at least one result and at least one result per step, otherwise running; never failed |
| ExecutionApp.TestExecution.constructor | test_execution_app/app.py:32-43 | the fields of a new execution |
| ExecutionApp.TestExecution.StartExecution | test_execution_app/app.py:45-49 | the new state is `Started` of the old one |
| ExecutionApp.TestExecution.CompleteStep | test_execution_app/app.py:51-58 | the new state is `StepCompleted` of the old one |
| ExecutionApp.TestExecution.AddHumanIntervention | test_execution_app/app.py:60-68 | the new state is `Intervened` of the old one |
| ExecutionApp.ExportRows | test_execution_app/app.py:149-188 | the row count; the 8-column summary with Total Steps and Completed Steps; one numbered row per result; the intervention section only when the log is non-empty |
| ExecutionApp.ExportReadBack | test_execution_app/app.py:155-175 | the exported step count, cursor and step numbers 1..n read back as those numbers |
| ExecutionApp.TestExecutionManager.constructor | test_execution_app/app.py:89-90 | the registry starts empty |
| ExecutionApp.TestExecutionManager.CreateExecution | test_execution_app/app.py:98-111 | a fresh execution of the case, with the given style, under `exec_{time}_{id}`, replacing any held under that id |
| ExecutionApp.TestExecutionManager.StartExecution | test_execution_app/app.py:117-121 | starts the execution with that id; an unknown id changes nothing |
| ExecutionApp.TestExecutionManager.CompleteStep | test_execution_app/app.py:123-127 | completes a step of that execution; an unknown id changes nothing |
| ExecutionApp.TestExecutionManager.AddHumanIntervention | test_execution_app/app.py:129-133 | logs an intervention on that execution; an unknown id changes nothing |
| ExecutionApp.TestExecutionManager.ExportResults | test_execution_app/app.py:139-190 | None for an unknown id; otherwise the path and exactly `ExportRows` of the execution |
| ExecutionApp.RowDict | test_execution_app/app.py:215-218 | each header name is a key of the row, and nothing else is |
| ExecutionApp.RowDictAt | test_execution_app/app.py:215-218 | a column not repeated later is read from its own position, None when the row is short |
| ExecutionApp.ParseRow | test_execution_app/app.py:219-227 | a case exists iff the steps and expected cells are present; then those lists are split-strip-drop of the cells and the other fields are the cells |
| ExecutionApp.ParseRows | test_execution_app/app.py:217-228 | no more cases than rows |
| ExecutionApp.ParseRowsCases | test_execution_app/app.py:217-228 | with n the first non-blank row that raises (or the row count), the cases are the parses of the non-blank rows before n, in order, and the reading succeeds iff n is the row count |
| ExecutionApp.ParseRowsOk | test_execution_app/app.py:212-237 | the upload succeeds iff no non-blank row raises |
| ExecutionApp.ReadRows | test_execution_app/app.py:217-228 | the row loop reads exactly `ParseRows` |
| ExecutionApp.FirstMatch | test_execution_app/app.py:247-251 | the index of the first case with the wanted id; None iff no case has it |
| ExecutionApp.FindTestCase | test_execution_app/app.py:246-251 | the search-and-break loop finds exactly the first matching case |
| ExecutionApp.ExecutionServer.constructor | test_execution_app/app.py:25-27 | no uploaded cases and an empty registry |
| ExecutionApp.ExecutionServer.UploadTestCases | test_execution_app/app.py:200-237 | 400 without a file or name, 500 for undecodable content, both leaving the cases unchanged; otherwise the cases read so far replace the list, answered with 200 iff no row raised |
| ExecutionApp.ExecutionServer.CreateExecution | test_execution_app/app.py:239-262 | 404 with the registry unchanged when no case matches; otherwise an execution of the first match, with the style (default Manual Trigger Driven) |
| DesignApp.AnalyzeRequirements | test_design_app/app.py:69-73 | the parsed reply, empty lists for text that is not JSON, and no answer iff the call raised |
| DesignApp.CreateTestDesign | test_design_app/app.py:104-108 | the parsed cases, none for text that is not JSON, and no answer iff the call raised |
| DesignApp.Picked | test_design_app/app.py:139-140 | only agents of the step's kind are consulted, never more agents than are configured; membership and order are stated by PickedMembers and PickedAppend |
| DesignApp.PickedMembers | test_design_app/app.py:139-140 | an agent is consulted iff it is configured and its name is of the step's kind |
| DesignApp.PickedAppend | test_design_app/app.py:139-140 | agents are consulted in configured order: picking from a concatenation picks from each part, one after the other |
| DesignApp.CollectAnswers | test_design_app/app.py:138-142 | when no call raised, the results are the consulted agents' answers, one each, in order |
| DesignApp.CollectRaises | test_design_app/app.py:138-142 | when the step raised, some consulted agent's call raised |
| DesignApp.CollectPicked | test_design_app/app.py:138-142 | a step yields one answer per consulted agent, in order, iff no consulted agent's call raises |
| DesignApp.Flatten | test_design_app/app.py:159-161 | the merged list's length is the sum of the per-agent lengths |
| DesignApp.FlattenEmpty | test_design_app/app.py:145-149 | lists that are all empty merge to nothing |
| DesignApp.ConfiguredKinds | test_design_app/app.py:119-124 | by the substring tests on their names, Requirements_Analyst and Risk_Analyst are requirements agents only, and Test_Designer and Quality_Assurance are design agents only |
| DesignApp.ConfiguredRoles | test_design_app/app.py:119-124 | requirements come from agents 1 and 4, test cases from agents 2 and 3, in that order |
| DesignApp.UnparseableGivesEmpty | test_design_app/app.py:135-168 | when no LLM answer is JSON, the document has no requirements, risks or test cases |
| DesignApp.CollectResults | test_design_app/app.py:138-142 | the agent loop computes exactly `Collect` |
| DesignApp.CollectRaisedPrefix | test_design_app/app.py:138-142 | once a call has raised, the whole step has raised |
| DesignApp.ExtendAll | test_design_app/app.py:159-161 | the extend loop computes exactly `Flatten` |
| DesignApp.CreateTestDesignDocument | test_design_app/app.py:135-168 | the method computes exactly `DesignDocumentOf`: requirements and risks concatenated over requirements agents in order, test cases over design agents in order, no de-duplication |
| DesignApp.GetResults | test_design_app/app.py:240-246 | the stored document iff the file name is known, else not found |
| DesignApp.DownloadFields | test_design_app/app.py:261 | one field per download column |
| DesignApp.DownloadLineCount | test_design_app/app.py:261 | a case with no line break in its text is written as exactly one line |
| DesignApp.DownloadCsvLines | test_design_app/app.py:258-261 | after the header there is exactly one line per test case |
| DesignApp.DownloadTestCases | test_design_app/app.py:248-266 | not found for an unknown file name; otherwise the header plus one line per case in order, as `test_cases_{filename}.csv` |
| DesignApp.DownloadUploadRoundTrip | test_design_app/app.py:261 | a downloaded case uploaded to the execution app keeps its id, name, objective, data, environment, steps and expected results, for clean step and result items |
| DesignApp.DownloadRowFields | test_design_app/app.py:258-261 | the upload reader finds each downloaded field under its own column, including the Requirement ID and the comma-joined Preconditions |
| DesignApp.ColumnsDistinct | test_design_app/app.py:258 | the download header has no repeated column |

## Left out

- HTTP, Flask routing, SocketIO and JSON responses are not modelled. Each call the integration makes becomes a `Reply`, a `Probe` or an oracle function.
- The LLM calls and their prompt texts are not modelled. A reply is parsed, unparseable or raised (`LlmReply`). Non-dict, non-string replies, which the spec extractor turns into `str(response)`, are not distinguished from parsed text.
- The improvement reply's JSON is modelled only with the shapes the analyzer expects. Each suggestion member is a string, null or missing, and "improvements" is a list of objects, null or missing (`JsonMember`). Other JSON types, such as a number as category or a string as "improvements", are not modelled.
- HTML fetching and the BeautifulSoup analysis are not modelled. The HTML text and the component list are inputs, and a raising analysis is `None`.
- `_collect_evidence` and the evidence part of an analysis are left out. They only count files in the iteration directory.
- `random.random()` is not modelled as randomness. Every draw is an input (`coin`, `stepCoin`).
- `asyncio.sleep`, subprocess start-up of the applications, `_cleanup` and `KeyboardInterrupt` are left out. They are process plumbing.
- File writes (JSON artifacts, `requirements.md`, `test_cases.csv`, export files, final reports) and `mkdir` are not modelled. The CSV file's existence is the design outcome's `csv` field. A raising write in the fallback writers (system_integration.py:413 and :449), which have no `try` of their own, is the stage's `None`.
- SystemIntegration.CreateTestDesignFromSpec: the temporary spec file, `_save_test_design_result`, `_save_test_cases_csv` and `os.unlink` (system_integration.py:29-31, 46, 50, 53) are assumed to succeed. A failure there is caught at :63-69 and becomes the `success: False` result with `fallback_used`, which the model produces only for a failed upload or design call.
- SystemIntegration.DelegatedExecution: `_save_execution_results` (system_integration.py:153) is assumed to succeed. A failure there is caught at :157-166 and becomes the zero-count failure result, which the model produces only for a failed upload.
- DesignApp.AnalyzeRequirements, DesignApp.CreateTestDesign and DesignApp.DownloadFields: a parsed LLM reply is a JSON object of the shapes the merge and the download expect. Test-case members are strings or missing, list members are lists of strings or missing, and `test_requirements`, `risk_areas` and `test_design` are lists or missing. Other shapes are not modelled: a null member, which the download writes as "None"; a non-string value, written as its Python repr; a string where a list is expected, which `",".join` splits character by character; a null list, on which `extend` raises; and a reply that is not a dict, on which `.get` raises.
- A `mkdir` that raises outside the `try` would end the whole run, and the model does not cover that.
- `datetime.now()` is an opaque text parameter. The controller reads one clock value per iteration, though the source reads the clock separately for the directory and for the record.
- The float `success_rate` in the integrated report and summary is left out.
- The response time in `check_app_availability` is left out (a float).
- Python's `csv` quoting and tokenising are left out. An upload is taken as already-split records, and the download is text whose fields are joined with `","` inside quotes.
- Fields that themselves hold quotes or commas are therefore outside the round-trip lemma. So are list items that are empty, untrimmed or hold commas; the lemma requires clean items.
- `ExecutionApp.ParseRow`: a None objective, data or environment cell (a short row) is read as "" rather than None.
- `str.strip` is modelled for the ASCII whitespace Python strips (space, tab, line feed, vertical tab, form feed, carriage return, 0x1C-0x1F). Non-ASCII whitespace such as U+0085 and U+00A0 is left out.
- `get_all_executions`, `to_dict` and the other read-only routes are not modelled. They serialise state; their only logic is dictionary order.
- `upload_spec` and `start_design` of the design app are not modelled. The delegated design sees them through `DesignService`.
- The `complete_step` and `add_human_intervention` routes' defaults for missing request keys are not modelled. The model takes the step record and the intervention's fields as given.
- `_start_execution`'s reply is ignored by the source and is not modelled.
- The outer `except` of `_execute_single_test_case` (an exception after creation) is not modelled. Creation, step and status failures are all caught by the helpers first.
- The integrated loop record's `target_url` field is not stored.
- `test_system.py`, `start_apps.py`, `main` and argument parsing are left out.
- The applications' port numbers are not modelled. The integration probes the design app on port 5003, while the design app's own `__main__` binds port 5000; the model uses 5003 as the integration does.
- `DesignApp.DownloadCsvLines` counts lines relative to the header's own line breaks rather than stating the header is one line.

## Findings

| source | as written | input that shows it | evidently intended | confidence | as-written member | corrected member |
|---|---|---|---|---|---|---|
| system_integration.py:409-411 | each step and each expected result of a fallback case is written as a separate quoted field, so a row has 8 fields under a 7-column header | `FallbackDesignCases()[0]` (two steps, one expected result): "Test Steps" reads "サイトにアクセス" and "Expected Results" reads "基本機能を実行" | steps and expected results each comma-joined into one field, as the design app's download does, so the execution app's upload reads the lists back | not executed | SystemIntegration.FallbackCsvMisaligned | SystemIntegration.CorrectedRowRoundTrip |
