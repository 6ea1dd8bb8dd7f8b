/**
 * The entry point of the `src/` layout (`src/main.py`): the same sequence
 * as the package's `main` (first script, one run, the review cycles, the
 * working code of the initial run combined with the loop's), driving the
 * orchestrator of `src/workflow.py`, whose initial run is named "Initial"
 * and is therefore not counted as an execution.
 */
module LegacyMain {
  import opened Wrappers
  import Parsing
  import Usage
  import Workflow
  import LegacyRendering
  import LegacyWorkflow
  import Pipeline

  /**
   * What `main` hands to `finalize_output` (working code, current code and
   * logs), the figures of `save_workflow_metadata`, and the recorded usage
   * steps.
   */
  datatype LegacyRunSummary = LegacyRunSummary(
    workingCode: Option<string>,
    finalCode: string,
    finalLogs: string,
    finalSuccess: bool,
    reviewCycles: int,
    totalExecutions: nat,
    successfulExecutions: nat,
    initialSuccess: bool,
    steps: seq<Usage.Record>)

  /**
   * `main` builds the workflow without a progress manager, so the runner
   * never takes its headless branch: the `headless` setting only silences
   * `main`'s own messages.
   */
  const RendersHeadless := false

  /** The run of the first script, after the one model call that wrote it. */
  function InitialReport(c: Workflow.WorkflowConfig, w: Workflow.World, videoData: string)
    : LegacyRendering.LegacyReport
  {
    LegacyRendering.LegacyMultisceneReport(LegacyWorkflow.ExecutionWorld(w, 1), Pipeline.InitialCode(c, w, videoData),
                                           c.frameExtractionMode, c.frameCount, RendersHeadless)
  }

  /** The loop state `review_and_update_code` starts from; the initial run counts nothing. */
  function InitialState(c: Workflow.WorkflowConfig, w: Workflow.World, videoData: string): Workflow.Snapshot
  {
    var first := w.reply(0, c.manimModel, Workflow.InitialMessages(c, videoData));
    var report := InitialReport(c, w, videoData);
    Workflow.Snapshot(Pipeline.InitialCode(c, w, videoData), report.logs, report.frameUrls, [], None, [],
                      [Usage.StepRecord(Workflow.InitialStep, c.manimModel, first.usage)], 0, 0)
  }

  function FinalState(c: Workflow.WorkflowConfig, w: Workflow.World, videoData: string): Workflow.Snapshot
  {
    Workflow.Cycles(LegacyWorkflow.CycleStep(c, RendersHeadless, w, videoData), InitialState(c, w, videoData),
                    Workflow.CycleCount(c.reviewCycles))
  }

  /** The loop's working code when it is a non-empty script, otherwise the initial script if it ran. */
  function CombinedWorkingCode(c: Workflow.WorkflowConfig, w: Workflow.World, videoData: string)
    : Option<string>
  {
    var fromLoop := FinalState(c, w, videoData).working;
    if Pipeline.Truthy(fromLoop) then fromLoop
    else if InitialReport(c, w, videoData).success then Some(Pipeline.InitialCode(c, w, videoData))
    else None
  }

  function MainSummary(c: Workflow.WorkflowConfig, w: Workflow.World, videoData: string): LegacyRunSummary
  {
    var end := FinalState(c, w, videoData);
    var working := CombinedWorkingCode(c, w, videoData);
    LegacyRunSummary(working, end.code, end.logs, working.Some?, Workflow.CycleCount(c.reviewCycles),
                     end.executions, end.successes, InitialReport(c, w, videoData).success, end.steps)
  }

  /** The exception that ends `main` when the status display divides by a zero frame count. */
  const DivisionByZero := "ZeroDivisionError: division by zero"

  /**
   * What `main` ends with: the exception of the first execution's status
   * display, or the run's summary.
   */
  function MainOutcome(c: Workflow.WorkflowConfig, w: Workflow.World, videoData: string)
    : Result<LegacyRunSummary, string>
  {
    if LegacyWorkflow.StatusDisplayRaises(c, RendersHeadless) then Err(DivisionByZero)
    else Ok(MainSummary(c, w, videoData))
  }

  /** `main`, from the parsed configuration and the video description on. */
  method RunWorkflow(config: Workflow.WorkflowConfig, world: Workflow.World, videoData: string)
    returns (outcome: Result<LegacyRunSummary, string>)
    requires Workflow.UsageNumeric(world)
    ensures outcome == MainOutcome(config, world, videoData)
  {
    var workflow := new LegacyWorkflow.ManimWorkflow(config, RendersHeadless, world);
    var currentCode, _ := workflow.GenerateInitialCode(videoData);
    var success, lastFrames, combinedLogs, raised := workflow.ExecuteCode(currentCode, LegacyWorkflow.InitialName);
    if raised {
      return Err(DivisionByZero);
    }
    workflow.initialSuccess := success;
    var workingCode := if success then Some(currentCode) else None;
    assert Workflow.Snapshot(currentCode, combinedLogs, lastFrames, [], None, [],
                             workflow.usageTracker.steps, workflow.executionCount, workflow.successfulExecutions)
           == InitialState(config, world, videoData);

    ghost var step := LegacyWorkflow.CycleStep(config, RendersHeadless, world, videoData);
    LegacyWorkflow.CycleStepIsCycle(config, RendersHeadless, world, videoData);
    var newWorkingCode;
    currentCode, newWorkingCode, combinedLogs, raised :=
      workflow.ReviewAndUpdateCode(step, currentCode, combinedLogs, lastFrames, videoData);
    workingCode := if Pipeline.Truthy(newWorkingCode) then newWorkingCode else workingCode;

    var data := workflow.usageTracker.GetTrackingData();
    outcome := Ok(LegacyRunSummary(workingCode, currentCode, combinedLogs, workingCode.Some?, workflow.cyclesCompleted,
                                   workflow.executionCount, workflow.successfulExecutions, workflow.initialSuccess,
                                   data.steps));
  }

  /**
   * `main` aborts exactly when `--frame_count 0` is given, which the
   * argument parser accepts: the initial execution's status display
   * divides by it, since no headless progress manager is passed. Any other
   * frame count ends with the summary.
   */
  lemma AbortsIffZeroFrameCount(c: Workflow.WorkflowConfig, w: Workflow.World, videoData: string)
    ensures MainOutcome(c, w, videoData).Err? <==> c.frameCount == 0
    ensures c.frameCount != 0 ==> MainOutcome(c, w, videoData) == Ok(MainSummary(c, w, videoData))
  {
  }

  // ---------------------------------------------------------------------
  // Properties of a run
  // ---------------------------------------------------------------------

  /**
   * Only the cycles' executions are counted: `review_cycles` executions
   * (none for a non-positive setting), of which at most that many
   * succeeded, one usage step for the first script and two per cycle.
   */
  lemma RunCounts(c: Workflow.WorkflowConfig, w: Workflow.World, videoData: string)
    ensures var summary := MainSummary(c, w, videoData);
            var n := Workflow.CycleCount(c.reviewCycles);
            && summary.totalExecutions == n
            && summary.successfulExecutions <= summary.totalExecutions
            && summary.reviewCycles == (if c.reviewCycles > 0 then c.reviewCycles else 0)
            && |summary.steps| == 1 + 2 * n
  {
    var step := LegacyWorkflow.CycleStep(c, RendersHeadless, w, videoData);
    LegacyWorkflow.CycleStepIsCycle(c, RendersHeadless, w, videoData);
    LegacyWorkflow.LegacyCycleObeysLaws(step, c, RendersHeadless, w, videoData);
    Workflow.CyclesCounts(step, InitialState(c, w, videoData), Workflow.CycleCount(c.reviewCycles));
  }

  /**
   * The executions reported by this layout are always one fewer than the
   * package's for the same configuration and world: the initial run is the
   * one left out.
   */
  lemma OneExecutionFewerThanPackage(c: Workflow.WorkflowConfig, w: Workflow.World, videoData: string)
    ensures MainSummary(c, w, videoData).totalExecutions + 1 == Pipeline.MainSummary(c, w, videoData).totalExecutions
  {
    RunCounts(c, w, videoData);
    Pipeline.RunCounts(c, w, videoData);
  }

  /**
   * The run counts as successful exactly when there is working code, that
   * is when the initial script ran or the loop kept a non-empty revision;
   * `initial_success` is the flag of the initial run.
   */
  lemma FinalSuccessRule(c: Workflow.WorkflowConfig, w: Workflow.World, videoData: string)
    ensures var summary := MainSummary(c, w, videoData);
            && (summary.finalSuccess <==> summary.workingCode.Some?)
            && (summary.finalSuccess <==> summary.initialSuccess || Pipeline.Truthy(FinalState(c, w, videoData).working))
            && summary.initialSuccess == InitialReport(c, w, videoData).success
  {
  }

  /**
   * Without a successful revision the working code is the initial script
   * when it ran and nothing otherwise; with one, a non-empty latest
   * successful revision wins over the initial script.
   */
  lemma WorkingCodeCombination(c: Workflow.WorkflowConfig, w: Workflow.World, videoData: string)
    ensures var step := LegacyWorkflow.CycleStep(c, RendersHeadless, w, videoData);
            var start := InitialState(c, w, videoData);
            var n := Workflow.CycleCount(c.reviewCycles);
            var fallback := if InitialReport(c, w, videoData).success
                            then Some(Pipeline.InitialCode(c, w, videoData)) else None;
            var working := MainSummary(c, w, videoData).workingCode;
            && ((forall j :: 0 <= j < n ==> !Workflow.RevisionSucceeded(step, start, j)) ==> working == fallback)
            && (forall j :: 0 <= j < n && Workflow.RevisionSucceeded(step, start, j)
                             && Workflow.Cycles(step, start, j + 1).code != []
                             && (forall i :: j < i < n ==> !Workflow.RevisionSucceeded(step, start, i)) ==>
                  working == Some(Workflow.Cycles(step, start, j + 1).code))
  {
    var step := LegacyWorkflow.CycleStep(c, RendersHeadless, w, videoData);
    LegacyWorkflow.CycleStepIsCycle(c, RendersHeadless, w, videoData);
    LegacyWorkflow.LegacyCycleObeysLaws(step, c, RendersHeadless, w, videoData);
    var fallback := if InitialReport(c, w, videoData).success
                    then Some(Pipeline.InitialCode(c, w, videoData)) else None;
    var start := InitialState(c, w, videoData);
    var n := Workflow.CycleCount(c.reviewCycles);
    Pipeline.LoopWorkingRule(step, start, n, fallback, MainSummary(c, w, videoData).workingCode);
  }

  /**
   * Whatever the `headless` setting, the first review sees the full log of
   * every scene of a script that parsed: the runner's headless branch,
   * which logs nothing, is never taken from `main`.
   */
  lemma InitialLogsRecorded(c: Workflow.WorkflowConfig, w: Workflow.World, videoData: string)
    requires LegacyWorkflow.ExecutionWorld(w, 1).parse(Pipeline.InitialCode(c, w, videoData)).Parsed?
    ensures var world := LegacyWorkflow.ExecutionWorld(w, 1);
            var scenes := Parsing.SceneNames(Parsing.Walk(world.parse(Pipeline.InitialCode(c, w, videoData)).stmts));
            InitialState(c, w, videoData).logs == LegacyRendering.LegacyLogsUpTo(world, scenes, |scenes|)
  {
  }
}
