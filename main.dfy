/**
 * The entry point of `src/manim_generator/main.py`: generate the first
 * script, run it once, run every review cycle, and combine the working code
 * of the initial run with the one the cycles produced before reporting the
 * run's summary.
 */
module Pipeline {
  import opened Wrappers
  import Parsing
  import Rendering
  import Usage
  import Workflow

  /**
   * What `main` hands to `finalize_output` (working code, current code and
   * logs) and the figures it records with `save_final_summary`.
   */
  datatype RunSummary = RunSummary(
    workingCode: Option<string>,
    finalCode: string,
    finalLogs: string,
    finalSuccess: bool,
    reviewCycles: int,
    totalExecutions: nat,
    successfulExecutions: nat,
    initialSuccess: bool,
    steps: seq<Usage.Record>,
    totalPromptTokens: int,
    totalCompletionTokens: int,
    totalTokens: int)

  /** Python truthiness of an optional script: neither `None` nor "". */
  predicate Truthy(code: Option<string>)
  {
    code.Some? && code.value != []
  }

  /** The first script: the code model's answer to the system prompt, as the first model call. */
  function InitialCode(c: Workflow.WorkflowConfig, w: Workflow.World, videoData: string): string
  {
    Parsing.ParseCodeBlock(w.reply(0, c.manimModel, Workflow.InitialMessages(c, videoData)).content)
  }

  /** The run of the first script, as the first execution. */
  function InitialReport(c: Workflow.WorkflowConfig, w: Workflow.World, videoData: string): Rendering.RenderReport
  {
    Rendering.MultisceneReport(Workflow.RenderWorldAt(w, 0), InitialCode(c, w, videoData),
                               c.frameExtractionMode, c.frameCount, c.sceneTimeout)
  }

  /** The loop state `review_and_update_code` starts from: the initial script and its results. */
  function InitialState(c: Workflow.WorkflowConfig, w: Workflow.World, videoData: string): Workflow.Snapshot
  {
    var first := w.reply(0, c.manimModel, Workflow.InitialMessages(c, videoData));
    var report := InitialReport(c, w, videoData);
    Workflow.Snapshot(InitialCode(c, w, videoData), report.logs, report.frameUrls, report.successfulScenes, None, [],
                      [Usage.StepRecord(Workflow.InitialStep, c.manimModel, first.usage)],
                      1, if report.success then 1 else 0)
  }

  /** The loop state after all configured cycles. */
  function FinalState(c: Workflow.WorkflowConfig, w: Workflow.World, videoData: string): Workflow.Snapshot
  {
    Workflow.Cycles(Workflow.CycleStep(c, w, videoData), InitialState(c, w, videoData), Workflow.CycleCount(c.reviewCycles))
  }

  /**
   * `working_code = new_working_code if new_working_code else working_code`:
   * the loop's working code when it is a non-empty script, otherwise the
   * initial script if it ran successfully.
   */
  function CombinedWorkingCode(c: Workflow.WorkflowConfig, w: Workflow.World, videoData: string): Option<string>
  {
    var fromLoop := FinalState(c, w, videoData).working;
    if Truthy(fromLoop) then fromLoop
    else if InitialReport(c, w, videoData).success then Some(InitialCode(c, w, videoData))
    else None
  }

  /** The summary of a whole run. */
  function MainSummary(c: Workflow.WorkflowConfig, w: Workflow.World, videoData: string): RunSummary
  {
    var end := FinalState(c, w, videoData);
    var working := CombinedWorkingCode(c, w, videoData);
    RunSummary(working, end.code, end.logs, working.Some?, Workflow.CycleCount(c.reviewCycles),
               end.executions, end.successes, InitialReport(c, w, videoData).success, end.steps,
               Usage.SumInt(end.steps, "prompt_tokens"), Usage.SumInt(end.steps, "completion_tokens"),
               Usage.SumInt(end.steps, "total_tokens"))
  }

  /** `main`, from the parsed configuration and the video description on. */
  method RunWorkflow(config: Workflow.WorkflowConfig, world: Workflow.World, videoData: string)
    returns (summary: RunSummary)
    requires Workflow.UsageNumeric(world)
    ensures summary == MainSummary(config, world, videoData)
  {
    var workflow := new Workflow.ManimWorkflow(config, world);
    var currentCode, _ := workflow.GenerateInitialCode(videoData);
    var report := workflow.ExecuteCode(currentCode);
    workflow.initialSuccess := report.success;
    var workingCode := if report.success then Some(currentCode) else None;
    assert Workflow.Snapshot(currentCode, report.logs, report.frameUrls, report.successfulScenes, None, [],
                             workflow.usageTracker.steps, workflow.executionCount, workflow.successfulExecutions)
           == InitialState(config, world, videoData);

    ghost var step := Workflow.CycleStep(config, world, videoData);
    Workflow.CycleStepIsCycle(config, world, videoData);
    var newWorkingCode, combinedLogs;
    currentCode, newWorkingCode, combinedLogs :=
      workflow.ReviewAndUpdateCode(step, currentCode, report.logs, report.frameUrls, videoData, report.successfulScenes);
    workingCode := if Truthy(newWorkingCode) then newWorkingCode else workingCode;

    var data := workflow.usageTracker.GetTrackingData();
    var totals := Usage.GetUsageTotals(data);
    summary := RunSummary(workingCode, currentCode, combinedLogs, workingCode.Some?, workflow.cyclesCompleted,
                          workflow.executionCount, workflow.successfulExecutions, workflow.initialSuccess,
                          data.steps, totals.0, totals.1, data.totalTokens);
  }

  // ---------------------------------------------------------------------
  // Properties of a run
  // ---------------------------------------------------------------------

  /**
   * The initial execution is counted with the cycles' ones: `review_cycles
   * + 1` executions, of which at most that many succeeded; the summary
   * records the configured number of cycles (none for a non-positive
   * setting) and one usage step for the first script and two per cycle.
   */
  lemma RunCounts(c: Workflow.WorkflowConfig, w: Workflow.World, videoData: string)
    ensures var summary := MainSummary(c, w, videoData);
            var n := Workflow.CycleCount(c.reviewCycles);
            && summary.totalExecutions == n + 1
            && summary.successfulExecutions <= summary.totalExecutions
            && summary.reviewCycles == (if c.reviewCycles > 0 then c.reviewCycles else 0)
            && |summary.steps| == 1 + 2 * n
  {
    var step := Workflow.CycleStep(c, w, videoData);
    Workflow.CycleStepIsCycle(c, w, videoData);
    Workflow.CycleObeysLaws(step, c, w, videoData);
    Workflow.CyclesCounts(step, InitialState(c, w, videoData), Workflow.CycleCount(c.reviewCycles));
  }

  /**
   * The run counts as successful exactly when there is working code, that
   * is when the initial script ran or the loop kept a non-empty revision;
   * `initial_success` is the flag of the initial run.
   */
  lemma FinalSuccessRule(c: Workflow.WorkflowConfig, w: Workflow.World, videoData: string)
    ensures var summary := MainSummary(c, w, videoData);
            && (summary.finalSuccess <==> summary.workingCode.Some?)
            && (summary.finalSuccess <==> summary.initialSuccess || Truthy(FinalState(c, w, videoData).working))
            && summary.initialSuccess == InitialReport(c, w, videoData).success
  {
  }

  /**
   * Combining a loop's working code with a fallback, for any cycle obeying
   * the cycle laws: without a successful revision the fallback is kept, and
   * otherwise a non-empty latest successful revision replaces it.
   */
  lemma LoopWorkingRule(step: (Workflow.Snapshot, nat) -> Workflow.Snapshot, start: Workflow.Snapshot, n: nat,
                        fallback: Option<string>, working: Option<string>)
    requires Workflow.CycleLaws(step) && start.working.None?
    requires working == (var fromLoop := Workflow.Cycles(step, start, n).working;
                         if Truthy(fromLoop) then fromLoop else fallback)
    ensures && ((forall j :: 0 <= j < n ==> !Workflow.RevisionSucceeded(step, start, j)) ==> working == fallback)
            && (forall j :: 0 <= j < n && Workflow.RevisionSucceeded(step, start, j)
                             && Workflow.Cycles(step, start, j + 1).code != []
                             && (forall i :: j < i < n ==> !Workflow.RevisionSucceeded(step, start, i)) ==>
                  working == Some(Workflow.Cycles(step, start, j + 1).code))
  {
    Workflow.WorkingIsLatestSuccess(step, start, n);
    var end := Workflow.Cycles(step, start, n);
    forall j | 0 <= j < n && Workflow.RevisionSucceeded(step, start, j)
               && Workflow.Cycles(step, start, j + 1).code != []
               && (forall i :: j < i < n ==> !Workflow.RevisionSucceeded(step, start, i))
      ensures end.working == Some(Workflow.Cycles(step, start, j + 1).code)
    {
      assert end.working.Some?;
      var j' :| 0 <= j' < n && Workflow.RevisionSucceeded(step, start, j')
                && end.working.value == Workflow.Cycles(step, start, j' + 1).code
                && forall i :: j' < i < n ==> !Workflow.RevisionSucceeded(step, start, i);
      assert j' == j;
    }
  }

  /**
   * Without a successful revision the working code is the initial script
   * when it ran and nothing otherwise; with one, a non-empty latest
   * successful revision wins over the initial script.
   */
  lemma WorkingCodeCombination(c: Workflow.WorkflowConfig, w: Workflow.World, videoData: string)
    ensures var step := Workflow.CycleStep(c, w, videoData);
            var start := InitialState(c, w, videoData);
            var n := Workflow.CycleCount(c.reviewCycles);
            var working := MainSummary(c, w, videoData).workingCode;
            && ((forall j :: 0 <= j < n ==> !Workflow.RevisionSucceeded(step, start, j)) ==>
                  working == (if InitialReport(c, w, videoData).success then Some(InitialCode(c, w, videoData)) else None))
            && (forall j :: 0 <= j < n && Workflow.RevisionSucceeded(step, start, j)
                             && Workflow.Cycles(step, start, j + 1).code != []
                             && (forall i :: j < i < n ==> !Workflow.RevisionSucceeded(step, start, i)) ==>
                  working == Some(Workflow.Cycles(step, start, j + 1).code))
  {
    var step := Workflow.CycleStep(c, w, videoData);
    Workflow.CycleStepIsCycle(c, w, videoData);
    Workflow.CycleObeysLaws(step, c, w, videoData);
    var fallback := if InitialReport(c, w, videoData).success then Some(InitialCode(c, w, videoData)) else None;
    LoopWorkingRule(step, InitialState(c, w, videoData), Workflow.CycleCount(c.reviewCycles), fallback,
                    MainSummary(c, w, videoData).workingCode);
  }

  /**
   * A successful revision that is an empty script does not replace the
   * initial working code: `new_working_code` is falsy then.
   */
  lemma EmptyRevisionIgnored(c: Workflow.WorkflowConfig, w: Workflow.World, videoData: string)
    requires FinalState(c, w, videoData).working == Some("")
    ensures MainSummary(c, w, videoData).workingCode
            == (if InitialReport(c, w, videoData).success then Some(InitialCode(c, w, videoData)) else None)
  {
  }

  /**
   * The token figures of the summary: the total is the sum over the steps,
   * and it is split into the prompt and completion totals when every step's
   * counts are.
   */
  lemma TokenTotals(c: Workflow.WorkflowConfig, w: Workflow.World, videoData: string)
    ensures var summary := MainSummary(c, w, videoData);
            (forall k :: 0 <= k < |summary.steps| ==> Usage.SplitEvenly(summary.steps[k])) ==>
              summary.totalPromptTokens + summary.totalCompletionTokens == summary.totalTokens
  {
    Usage.SumsSplit(MainSummary(c, w, videoData).steps);
  }
}
