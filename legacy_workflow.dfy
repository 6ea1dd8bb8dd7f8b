/**
 * The orchestrator of the `src/` layout (`src/workflow.py`). It differs
 * from the package's in four ways: the initial run is not counted as an
 * execution, the runner is the one of `src/utils/rendering.py` (no
 * timeout, logs only outside headless mode, frames from every scene), the
 * review gate uses that runner's frame-count success rate, and the revision
 * request carries the last frames too when vision is on.
 *
 * The loop state is the package's `Workflow.Snapshot` (its successful-scene
 * list stays empty here) and the loop is the package's fold
 * `Workflow.Cycles`; `LegacyCycleObeysLaws` shows that the cycle of this
 * layout obeys `Workflow.CycleLaws`, so the package's lemmas about the
 * fold hold for it.
 */
module LegacyWorkflow {
  import opened Wrappers
  import opened Strings
  import Parsing
  import Rendering
  import LegacyRendering
  import Prompt
  import Usage
  import Workflow

  /** The step name `main` gives the initial execution, which is not counted. */
  const InitialName := "Initial"

  function RevisionName(n: nat): string
  {
    "Revision " + NatToString(n)
  }

  /**
   * The world of an execution, identified by the number of model calls
   * recorded before it (one execution follows each code-model call).
   */
  function ExecutionWorld(w: Workflow.World, calls: nat): Rendering.RenderWorld
  {
    Workflow.RenderWorldAt(w, calls)
  }

  /** The frame-count success rate of the last frames against the script's discovered scenes. */
  function ReviewRate(c: Workflow.WorkflowConfig, w: Workflow.World, code: string, frames: seq<string>): LegacyRendering.LegacyRate
  {
    LegacyRendering.CalculateSceneSuccessRate(|frames|, Parsing.DiscoveredScenes(w.parse(code)), c.frameCount, c.frameExtractionMode)
  }

  /** `str()` of the rendered-scene count, an int or a float. */
  function NumberText(w: Workflow.World, n: LegacyRendering.Number): string
  {
    match n
    case IntNum(i) => IntToString(i)
    case FloatNum(x) => w.floatText(x)
  }

  function EnhancedReplacements(w: Workflow.World, code: string, logs: string, previousReviews: seq<string>,
                                rate: LegacyRendering.LegacyRate): seq<(string, string)>
  {
    Workflow.StandardReplacements(code, logs, previousReviews)
    + [("success_rate", w.floatText(rate.rate)),
       ("scenes_rendered", NumberText(w, rate.rendered)),
       ("total_scenes", IntToString(rate.total))]
  }

  predicate UsesEnhancedPrompt(c: Workflow.WorkflowConfig, w: Workflow.World, code: string, frames: seq<string>)
  {
    ReviewRate(c, w, code, frames).rate >= c.successThreshold
  }

  function ReviewPrompt(c: Workflow.WorkflowConfig, w: Workflow.World, code: string, logs: string,
                        previousReviews: seq<string>, frames: seq<string>): string
  {
    if UsesEnhancedPrompt(c, w, code, frames) then
      Prompt.ApplyReplacements(c.templates.reviewEnhanced,
                               EnhancedReplacements(w, code, logs, previousReviews, ReviewRate(c, w, code, frames)))
    else
      Prompt.ApplyReplacements(c.templates.review, Workflow.StandardReplacements(code, logs, previousReviews))
  }

  function ReviewMessages(c: Workflow.WorkflowConfig, w: Workflow.World, code: string, logs: string,
                          previousReviews: seq<string>, frames: seq<string>): seq<Prompt.Message>
  {
    Workflow.ReviewRequest(ReviewPrompt(c, w, code, logs, previousReviews, frames), Workflow.ReviewImages(c, frames))
  }

  /** The revision request's body: the prompt followed by the frames when there are some and vision is on. */
  function RevisionContent(c: Workflow.WorkflowConfig, code: string, review: string, frames: seq<string>): Prompt.Content
  {
    var images := Workflow.ReviewImages(c, frames);
    if images != [] then Prompt.Parts([Prompt.TextPart(Workflow.RevisionPrompt(code, review))] + images)
    else Prompt.PlainText(Workflow.RevisionPrompt(code, review))
  }

  function RevisionMessages(c: Workflow.WorkflowConfig, code: string, review: string, videoData: string,
                            frames: seq<string>): seq<Prompt.Message>
  {
    [Prompt.Message("system", Prompt.PlainText(Workflow.InitPrompt(c, videoData))),
     Prompt.Message("user", RevisionContent(c, code, review, frames))]
  }

  /**
   * `_display_execution_status`, which `execute_code` calls after every
   * render, divides the number of frames by `frame_count` unless the
   * progress manager is headless: a frame count of 0 raises
   * `ZeroDivisionError` there, after the scenes ran and before the
   * execution is counted.
   */
  predicate StatusDisplayRaises(c: Workflow.WorkflowConfig, headless: bool)
  {
    !headless && c.frameCount == 0
  }

  // ---------------------------------------------------------------------
  // The cycle loop
  // ---------------------------------------------------------------------

  /** One review cycle, numbered `cycle + 1`: review, revision with frames, execution. */
  function Cycle(c: Workflow.WorkflowConfig, headless: bool, w: Workflow.World, videoData: string,
                 s: Workflow.Snapshot, cycle: nat): Workflow.Snapshot
  {
    var n := cycle + 1;
    var review := w.reply(|s.steps|, c.reviewModel, ReviewMessages(c, w, s.code, s.logs, s.reviews, s.frames));
    var reviewed := s.steps + [Usage.StepRecord(Workflow.ReviewStep(n), c.reviewModel, review.usage)];
    var revision := w.reply(|reviewed|, c.manimModel, RevisionMessages(c, s.code, review.content, videoData, s.frames));
    var code := Parsing.ParseCodeBlock(revision.content);
    var revised := reviewed + [Usage.StepRecord(Workflow.RevisionStep(n), c.manimModel, revision.usage)];
    var report := LegacyRendering.LegacyMultisceneReport(ExecutionWorld(w, |revised|), code,
                                                         c.frameExtractionMode, c.frameCount, headless);
    Workflow.Snapshot(code, report.logs, report.frameUrls, [],
                      if report.success then Some(code) else s.working,
                      s.reviews + [review.content], revised,
                      s.executions + 1, s.successes + (if report.success then 1 else 0))
  }

  function CycleStep(c: Workflow.WorkflowConfig, headless: bool, w: Workflow.World, videoData: string)
    : (Workflow.Snapshot, nat) -> Workflow.Snapshot
  {
    (s: Workflow.Snapshot, cycle: nat) => Cycle(c, headless, w, videoData, s, cycle)
  }

  /** `step` is the review cycle of this configuration, mode, world and video description. */
  ghost predicate IsCycleOf(step: (Workflow.Snapshot, nat) -> Workflow.Snapshot, c: Workflow.WorkflowConfig,
                            headless: bool, w: Workflow.World, videoData: string)
  {
    forall s: Workflow.Snapshot, cycle: nat {:trigger Cycle(c, headless, w, videoData, s, cycle)} ::
      step(s, cycle) == Cycle(c, headless, w, videoData, s, cycle)
  }

  class ManimWorkflow {
    const config: Workflow.WorkflowConfig
    const headless: bool
    const world: Workflow.World
    const usageTracker: Usage.TokenUsageTracker
    var cyclesCompleted: int
    var executionCount: nat
    var successfulExecutions: nat
    var initialSuccess: bool

    ghost predicate Valid()
      reads this, usageTracker
    {
      usageTracker.Valid() && successfulExecutions <= executionCount && Workflow.UsageNumeric(world)
    }

    /** A new workflow: no cycles, no executions, no initial success, an empty tracker. */
    constructor (config: Workflow.WorkflowConfig, headless: bool, world: Workflow.World)
      requires Workflow.UsageNumeric(world)
      ensures Valid() && fresh(usageTracker)
      ensures this.config == config && this.headless == headless && this.world == world
      ensures cyclesCompleted == 0 && executionCount == 0 && successfulExecutions == 0 && !initialSuccess
      ensures usageTracker.steps == []
    {
      this.config := config;
      this.headless := headless;
      this.world := world;
      usageTracker := new Usage.TokenUsageTracker();
      cyclesCompleted := 0;
      executionCount := 0;
      successfulExecutions := 0;
      initialSuccess := false;
    }

    /** `generate_initial_code`: one call to the code model with the system prompt, recorded as a step. */
    method GenerateInitialCode(videoData: string) returns (code: string, messages: seq<Prompt.Message>)
      requires Valid()
      modifies usageTracker
      ensures Valid()
      ensures messages == Workflow.InitialMessages(config, videoData)
      ensures var reply := world.reply(|old(usageTracker.steps)|, config.manimModel, messages);
              code == Parsing.ParseCodeBlock(reply.content)
              && usageTracker.steps == old(usageTracker.steps) + [Usage.StepRecord(Workflow.InitialStep, config.manimModel, reply.usage)]
    {
      var prompt := Prompt.FormatPrompt(config.templates.init, [("video_data", videoData)]);
      messages := [Prompt.Message("system", Prompt.PlainText(prompt))];
      var reply := world.reply(|usageTracker.steps|, config.manimModel, messages);
      usageTracker.AddStep(Workflow.InitialStep, config.manimModel, reply.usage);
      code := Parsing.ParseCodeBlock(reply.content);
    }

    /**
     * `execute_code`: render the script, display its status, and count every
     * step except the one named "Initial" as an execution, and as a
     * successful one when it succeeded. `raised` is the `ZeroDivisionError`
     * of the status display: the render's results are then never returned
     * to Python's caller and nothing is counted.
     */
    method ExecuteCode(code: string, stepName: string)
      returns (success: bool, frames: seq<string>, logs: string, raised: bool)
      requires Valid()
      modifies this
      ensures Valid()
      ensures raised == StatusDisplayRaises(config, headless)
      ensures var report := LegacyRendering.LegacyMultisceneReport(ExecutionWorld(world, |usageTracker.steps|), code,
                                                                    config.frameExtractionMode, config.frameCount, headless);
              success == report.success && frames == report.frameUrls && logs == report.logs
      ensures stepName == InitialName || raised ==>
                executionCount == old(executionCount) && successfulExecutions == old(successfulExecutions)
      ensures stepName != InitialName && !raised ==>
                executionCount == old(executionCount) + 1
                && successfulExecutions == old(successfulExecutions) + (if success then 1 else 0)
      ensures cyclesCompleted == old(cyclesCompleted) && initialSuccess == old(initialSuccess)
    {
      var report := LegacyRendering.RunManimMultiscene(ExecutionWorld(world, |usageTracker.steps|), code,
                                                       config.frameExtractionMode, config.frameCount, headless);
      success, frames, logs := report.success, report.frameUrls, report.logs;
      raised := false;
      if !headless && config.frameCount == 0 {
        raised := true;
        return;
      }
      if stepName != InitialName {
        executionCount := executionCount + 1;
        if success {
          successfulExecutions := successfulExecutions + 1;
        }
      }
    }

    /** `_generate_review`: the prompt chosen by the frame-count rate, the frames attached, one review call. */
    method GenerateReview(code: string, logs: string, frames: seq<string>, previousReviews: seq<string>, cycleNum: nat)
      returns (review: string, reasoning: Option<string>)
      requires Valid()
      modifies usageTracker
      ensures Valid()
      ensures var reply := world.reply(|old(usageTracker.steps)|, config.reviewModel,
                                       ReviewMessages(config, world, code, logs, previousReviews, frames));
              review == reply.content && reasoning == reply.reasoning
              && usageTracker.steps == old(usageTracker.steps) + [Usage.StepRecord(Workflow.ReviewStep(cycleNum), config.reviewModel, reply.usage)]
    {
      var framesFormatted := if frames != [] && config.visionEnabled then Prompt.ConvertFramesToMessageFormat(frames) else [];
      var sceneNames := Parsing.ExtractSceneClassNames(world.parse(code));
      var rate := LegacyRendering.CalculateSceneSuccessRate(|frames|, sceneNames, config.frameCount, config.frameExtractionMode);
      assert rate == ReviewRate(config, world, code, frames);
      var useEnhancedPrompt := rate.rate >= config.successThreshold;
      var reviewContent;
      if useEnhancedPrompt {
        reviewContent := Prompt.FormatPrompt(config.templates.reviewEnhanced,
                                             EnhancedReplacements(world, code, logs, previousReviews, rate));
      } else {
        reviewContent := Prompt.FormatPrompt(config.templates.review, Workflow.StandardReplacements(code, logs, previousReviews));
      }
      assert reviewContent == ReviewPrompt(config, world, code, logs, previousReviews, frames);
      var reviewMessage := [Prompt.Message("user", Prompt.Parts([Prompt.TextPart(reviewContent)] + framesFormatted))];
      var reply := world.reply(|usageTracker.steps|, config.reviewModel, reviewMessage);
      usageTracker.AddStep(Workflow.ReviewStep(cycleNum), config.reviewModel, reply.usage);
      review, reasoning := reply.content, reply.reasoning;
    }

    /** `_generate_code_revision`: system prompt plus the revision request, with the frames when vision is on. */
    method GenerateCodeRevision(currentCode: string, review: string, videoData: string, cycleNum: nat, frames: seq<string>)
      returns (revisedCode: string)
      requires Valid()
      modifies usageTracker
      ensures Valid()
      ensures var reply := world.reply(|old(usageTracker.steps)|, config.manimModel,
                                       RevisionMessages(config, currentCode, review, videoData, frames));
              revisedCode == Parsing.ParseCodeBlock(reply.content)
              && usageTracker.steps == old(usageTracker.steps) + [Usage.StepRecord(Workflow.RevisionStep(cycleNum), config.manimModel, reply.usage)]
    {
      var framesFormatted := if frames != [] && config.visionEnabled then Prompt.ConvertFramesToMessageFormat(frames) else [];
      var revisionPrompt := Workflow.RevisionPrompt(currentCode, review);
      var userContent := if framesFormatted != [] then Prompt.Parts([Prompt.TextPart(revisionPrompt)] + framesFormatted)
                         else Prompt.PlainText(revisionPrompt);
      var systemPrompt := Prompt.FormatPrompt(config.templates.init, [("video_data", videoData)]);
      var revisionMessages := [Prompt.Message("system", Prompt.PlainText(systemPrompt)), Prompt.Message("user", userContent)];
      var reply := world.reply(|usageTracker.steps|, config.manimModel, revisionMessages);
      usageTracker.AddStep(Workflow.RevisionStep(cycleNum), config.manimModel, reply.usage);
      revisedCode := Parsing.ParseCodeBlock(reply.content);
    }

    /** The second half of a cycle: revise, then execute the revision as "Revision n". */
    method ReviseAndExecute(code: string, review: string, videoData: string, cycle: nat, frames: seq<string>)
      returns (code': string, report: LegacyRendering.LegacyReport, raised: bool)
      requires Valid()
      modifies this, usageTracker
      ensures Valid()
      ensures raised == StatusDisplayRaises(config, headless)
      ensures var reply := world.reply(|old(usageTracker.steps)|, config.manimModel,
                                       RevisionMessages(config, code, review, videoData, frames));
              code' == Parsing.ParseCodeBlock(reply.content)
              && usageTracker.steps == old(usageTracker.steps) + [Usage.StepRecord(Workflow.RevisionStep(cycle + 1), config.manimModel, reply.usage)]
      ensures report == LegacyRendering.LegacyMultisceneReport(ExecutionWorld(world, |usageTracker.steps|), code',
                                                              config.frameExtractionMode, config.frameCount, headless)
      ensures raised ==> executionCount == old(executionCount) && successfulExecutions == old(successfulExecutions)
      ensures !raised ==>
                executionCount == old(executionCount) + 1
                && successfulExecutions == old(successfulExecutions) + (if report.success then 1 else 0)
      ensures cyclesCompleted == old(cyclesCompleted) && initialSuccess == old(initialSuccess)
    {
      code' := GenerateCodeRevision(code, review, videoData, cycle + 1, frames);
      var success, frames', logs';
      success, frames', logs', raised := ExecuteCode(code', RevisionName(cycle + 1));
      RevisionNamesAreCounted(cycle + 1);
      report := LegacyRendering.LegacyReport(success, frames', logs');
    }

    /**
     * The body of the cycle loop: review, revise, execute as "Revision n",
     * keep the revision if it rendered. When the status display raises, the
     * two model calls have been recorded and nothing was counted.
     */
    method RunReviewCycle(ghost step: (Workflow.Snapshot, nat) -> Workflow.Snapshot, code: string, logs: string,
                          frames: seq<string>, working: Option<string>, previousReviews: seq<string>,
                          videoData: string, cycle: nat)
      returns (code': string, logs': string, frames': seq<string>, working': Option<string>, reviews': seq<string>,
               raised: bool)
      requires Valid() && IsCycleOf(step, config, headless, world, videoData)
      modifies this, usageTracker
      ensures Valid()
      ensures raised == StatusDisplayRaises(config, headless)
      ensures !raised ==>
                Workflow.Snapshot(code', logs', frames', [], working', reviews', usageTracker.steps,
                                  executionCount, successfulExecutions)
                == step(Workflow.Snapshot(code, logs, frames, [], working, previousReviews, old(usageTracker.steps),
                                          old(executionCount), old(successfulExecutions)), cycle)
      ensures raised ==>
                |usageTracker.steps| == |old(usageTracker.steps)| + 2
                && executionCount == old(executionCount) && successfulExecutions == old(successfulExecutions)
      ensures cyclesCompleted == old(cyclesCompleted) && initialSuccess == old(initialSuccess)
    {
      ghost var before := Workflow.Snapshot(code, logs, frames, [], working, previousReviews, usageTracker.steps,
                                            executionCount, successfulExecutions);
      var review, _ := GenerateReview(code, logs, frames, previousReviews, cycle + 1);
      ghost var reviewed := usageTracker.steps;
      reviews' := previousReviews + [review];
      var report;
      code', report, raised := ReviseAndExecute(code, review, videoData, cycle, frames);
      frames', logs' := report.frameUrls, report.logs;
      working' := if report.success then Some(code') else working;
      if !raised {
        CycleUnfolds(step, config, headless, world, videoData, before, cycle, review, reviewed, code', usageTracker.steps, report);
      }
    }

    /**
     * `review_and_update_code`: the fold `Workflow.Cycles` of this layout's
     * cycle over the configured number of cycles, from the given script,
     * logs and frames with no working code and no reviews yet. When the
     * status display raises, it does so in the first cycle, after its two
     * model calls.
     */
    method ReviewAndUpdateCode(ghost step: (Workflow.Snapshot, nat) -> Workflow.Snapshot, currentCode: string,
                               combinedLogs: string, lastFrames: seq<string>, videoData: string)
      returns (finalCode: string, workingCode: Option<string>, finalLogs: string, raised: bool)
      requires Valid() && IsCycleOf(step, config, headless, world, videoData)
      modifies this, usageTracker
      ensures Valid()
      ensures raised == (StatusDisplayRaises(config, headless) && config.reviewCycles > 0)
      ensures raised ==>
                |usageTracker.steps| == |old(usageTracker.steps)| + 2
                && executionCount == old(executionCount) && successfulExecutions == old(successfulExecutions)
                && cyclesCompleted == old(cyclesCompleted)
      ensures !raised ==>
              var start := Workflow.Snapshot(currentCode, combinedLogs, lastFrames, [], None, [],
                                             old(usageTracker.steps), old(executionCount), old(successfulExecutions));
              var end := Workflow.Cycles(step, start, Workflow.CycleCount(config.reviewCycles));
              finalCode == end.code && workingCode == end.working && finalLogs == end.logs
              && usageTracker.steps == end.steps
              && executionCount == end.executions && successfulExecutions == end.successes
      ensures !raised ==>
                cyclesCompleted == if config.reviewCycles > 0 then config.reviewCycles else old(cyclesCompleted)
      ensures initialSuccess == old(initialSuccess)
    {
      ghost var start := Workflow.Snapshot(currentCode, combinedLogs, lastFrames, [], None, [],
                                           usageTracker.steps, executionCount, successfulExecutions);
      raised := false;
      var code, logs, frames := currentCode, combinedLogs, lastFrames;
      workingCode := None;
      var previousReviews: seq<string> := [];
      var cycles := Workflow.CycleCount(config.reviewCycles);
      var cycle := 0;
      while cycle < cycles
        invariant 0 <= cycle <= cycles
        invariant Valid()
        invariant Workflow.Snapshot(code, logs, frames, [], workingCode, previousReviews, usageTracker.steps,
                                    executionCount, successfulExecutions)
                  == Workflow.Cycles(step, start, cycle)
        invariant cyclesCompleted == if cycle > 0 then cycle else old(cyclesCompleted)
        invariant initialSuccess == old(initialSuccess)
        invariant cycle > 0 ==> !StatusDisplayRaises(config, headless)
      {
        ghost var before := Workflow.Cycles(step, start, cycle);
        code, logs, frames, workingCode, previousReviews, raised :=
          RunReviewCycle(step, code, logs, frames, workingCode, previousReviews, videoData, cycle);
        if raised {
          finalCode, finalLogs := code, logs;
          return;
        }
        assert Workflow.Cycles(step, start, cycle + 1) == step(before, cycle);
        cyclesCompleted := cycle + 1;
        cycle := cycle + 1;
      }
      finalCode, finalLogs := code, logs;
    }
  }

  // ---------------------------------------------------------------------
  // Properties
  // ---------------------------------------------------------------------

  /** A cycle's result, given the review, the revision and the usage steps recorded by each call. */
  lemma CycleUnfolds(step: (Workflow.Snapshot, nat) -> Workflow.Snapshot, c: Workflow.WorkflowConfig, headless: bool,
                     w: Workflow.World, videoData: string, s: Workflow.Snapshot, cycle: nat, review: string,
                     reviewed: seq<Usage.Record>, code: string, revised: seq<Usage.Record>,
                     report: LegacyRendering.LegacyReport)
    requires IsCycleOf(step, c, headless, w, videoData)
    requires var reply := w.reply(|s.steps|, c.reviewModel, ReviewMessages(c, w, s.code, s.logs, s.reviews, s.frames));
             review == reply.content
             && reviewed == s.steps + [Usage.StepRecord(Workflow.ReviewStep(cycle + 1), c.reviewModel, reply.usage)]
    requires var reply := w.reply(|reviewed|, c.manimModel, RevisionMessages(c, s.code, review, videoData, s.frames));
             code == Parsing.ParseCodeBlock(reply.content)
             && revised == reviewed + [Usage.StepRecord(Workflow.RevisionStep(cycle + 1), c.manimModel, reply.usage)]
    requires report == LegacyRendering.LegacyMultisceneReport(ExecutionWorld(w, |revised|), code,
                                                              c.frameExtractionMode, c.frameCount, headless)
    ensures step(s, cycle)
            == Workflow.Snapshot(code, report.logs, report.frameUrls, [],
                                 if report.success then Some(code) else s.working,
                                 s.reviews + [review], revised,
                                 s.executions + 1, s.successes + (if report.success then 1 else 0))
  {
    assert step(s, cycle) == Cycle(c, headless, w, videoData, s, cycle);
  }

  lemma CycleStepIsCycle(c: Workflow.WorkflowConfig, headless: bool, w: Workflow.World, videoData: string)
    ensures IsCycleOf(CycleStep(c, headless, w, videoData), c, headless, w, videoData)
  {
  }

  /**
   * This layout's cycle obeys the package's cycle laws: one review
   * appended, two usage steps, one counted execution, and the working code
   * replaced exactly when the revision rendered.
   */
  lemma LegacyCycleObeysLaws(step: (Workflow.Snapshot, nat) -> Workflow.Snapshot, c: Workflow.WorkflowConfig,
                             headless: bool, w: Workflow.World, videoData: string)
    requires IsCycleOf(step, c, headless, w, videoData)
    ensures Workflow.CycleLaws(step)
  {
    forall s: Workflow.Snapshot, cycle: nat
      ensures |step(s, cycle).reviews| == |s.reviews| + 1
      ensures step(s, cycle).reviews[..|s.reviews|] == s.reviews
      ensures |step(s, cycle).steps| == |s.steps| + 2
      ensures step(s, cycle).executions == s.executions + 1
      ensures step(s, cycle).successes == s.successes + 1 || step(s, cycle).successes == s.successes
      ensures step(s, cycle).successes == s.successes + 1 ==> step(s, cycle).working == Some(step(s, cycle).code)
      ensures step(s, cycle).successes == s.successes ==> step(s, cycle).working == s.working
    {
      var next := Cycle(c, headless, w, videoData, s, cycle);
      assert step(s, cycle) == next;
      assert next.reviews[..|s.reviews|] == s.reviews;
    }
  }

  /**
   * The enhanced prompt is chosen exactly when the frame-count rate of the
   * last frames reaches the threshold; it fills in the rate, the rendered
   * count as Python prints it, and the number of scenes.
   */
  lemma EnhancedPromptGate(c: Workflow.WorkflowConfig, w: Workflow.World, code: string, logs: string,
                           previousReviews: seq<string>, frames: seq<string>)
    ensures var rate := ReviewRate(c, w, code, frames);
            var prompt := ReviewPrompt(c, w, code, logs, previousReviews, frames);
            && (rate.rate >= c.successThreshold ==>
                  prompt == Prompt.ApplyReplacements(c.templates.reviewEnhanced,
                                                     EnhancedReplacements(w, code, logs, previousReviews, rate)))
            && (rate.rate < c.successThreshold ==>
                  prompt == Prompt.ApplyReplacements(c.templates.review, Workflow.StandardReplacements(code, logs, previousReviews)))
            && 0.0 <= rate.rate <= 100.0
    ensures forall rate: LegacyRendering.LegacyRate ::
              EnhancedReplacements(w, code, logs, previousReviews, rate)[3..]
              == [("success_rate", w.floatText(rate.rate)),
                  ("scenes_rendered", NumberText(w, rate.rendered)),
                  ("total_scenes", IntToString(rate.total))]
  {
  }

  /**
   * The revision request: the system prompt, then the revision prompt,
   * followed by one image item per frame exactly when there are frames and
   * vision is on, and as a plain string otherwise.
   */
  lemma RevisionCarriesFrames(c: Workflow.WorkflowConfig, code: string, review: string, videoData: string, frames: seq<string>)
    ensures var m := RevisionMessages(c, code, review, videoData, frames);
            && |m| == 2 && m[0] == Prompt.Message("system", Prompt.PlainText(Workflow.InitPrompt(c, videoData)))
            && m[1].role == "user"
            && (frames != [] && c.visionEnabled ==>
                  m[1].content == Prompt.Parts([Prompt.TextPart(Workflow.RevisionPrompt(code, review))]
                                               + Prompt.ConvertFramesToMessageFormat(frames))
                  && |m[1].content.parts| == 1 + |frames|)
            && (frames == [] || !c.visionEnabled ==> m[1].content == Prompt.PlainText(Workflow.RevisionPrompt(code, review)))
  {
    if frames != [] && c.visionEnabled {
      assert |Prompt.ConvertFramesToMessageFormat(frames)| == |frames|;
    }
  }

  /**
   * Only the named step is exempt from counting: the initial execution
   * leaves both counters alone, every revision's counts once.
   */
  lemma RevisionNamesAreCounted(n: nat)
    ensures RevisionName(n) != InitialName
  {
    assert RevisionName(n)[0] == 'R';
  }
}
