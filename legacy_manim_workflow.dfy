/**
 * The orchestrator of the first layout of the project (`manim_workflow.py`):
 * its own copy of the token tracker (the one of `utils/usage.py`), the
 * runner and regular-expression scene discovery of `utils/code.py`, the
 * prompt helpers of `utils/text.py`, a review gated by a scene success rate,
 * and a revision request without images. The class keeps no execution
 * counters.
 *
 * The module imports `calculate_scene_success_rate` from `utils/code.py`,
 * which does not define it; the rate it would return is an input of the
 * model (`World.rate`), given with the text `str()` makes of each value.
 *
 * The loop is the package's fold over `Workflow.Snapshot`. The snapshot's
 * execution and success tallies are kept only for the proofs (the ghost
 * fields `executions` and `successes`); with them this layout's cycle obeys
 * `Workflow.CycleLaws`, so the package's lemmas about the fold hold for it.
 */
module LegacyManimWorkflow {
  import opened Wrappers
  import opened Strings
  import Parsing
  import Prompt
  import Llm
  import Usage
  import LegacyCode
  import LegacyText
  import LegacyUsage
  import Workflow

  /** What the missing `calculate_scene_success_rate(frames, scene_names)` would return, with the `str()` of each value. */
  datatype RateAnswer = RateAnswer(rate: real, rateText: string, renderedText: string, totalText: string)

  /**
   * Everything outside the script: the image world of each execution,
   * identified by the number of model calls recorded before it, the model's
   * replies, and the success-rate function.
   */
  datatype World = World(
    images: nat -> LegacyCode.ImageWorld,
    reply: (nat, string, seq<Prompt.Message>) -> Llm.Completion,
    rate: (seq<string>, seq<string>) -> RateAnswer)

  /** Every reply's usage dictionary holds numbers where the tracker adds them up. */
  ghost predicate UsageNumeric(w: World)
  {
    forall call, model, messages :: Usage.Numeric(w.reply(call, model, messages).usage)
  }

  function ReviewRate(w: World, code: string, frames: seq<string>): RateAnswer
  {
    w.rate(frames, LegacyCode.ExtractSceneClassNames(code))
  }

  function StandardReplacements(code: string, logs: string, previousReviews: seq<string>): seq<(string, string)>
  {
    [("previous_reviews", LegacyText.FormatPreviousReviews(previousReviews)), ("video_code", code), ("execution_logs", logs)]
  }

  function EnhancedReplacements(code: string, logs: string, previousReviews: seq<string>, rate: RateAnswer)
    : seq<(string, string)>
  {
    StandardReplacements(code, logs, previousReviews)
    + [("success_rate", rate.rateText), ("scenes_rendered", rate.renderedText), ("total_scenes", rate.totalText)]
  }

  function ReviewPrompt(c: Workflow.WorkflowConfig, w: World, code: string, logs: string, previousReviews: seq<string>,
                        frames: seq<string>): string
  {
    var rate := ReviewRate(w, code, frames);
    if rate.rate >= c.successThreshold then
      Prompt.ApplyReplacements(c.templates.reviewEnhanced, EnhancedReplacements(code, logs, previousReviews, rate))
    else
      Prompt.ApplyReplacements(c.templates.review, StandardReplacements(code, logs, previousReviews))
  }

  /** The images of the review: the legacy `image_url` items, when there are frames and vision is on. */
  function ReviewImages(c: Workflow.WorkflowConfig, frames: seq<string>): seq<Prompt.Part>
  {
    if frames != [] && c.visionEnabled then LegacyText.ConvertFramesToMessageFormat(frames) else []
  }

  function ReviewMessages(c: Workflow.WorkflowConfig, w: World, code: string, logs: string, previousReviews: seq<string>,
                          frames: seq<string>): seq<Prompt.Message>
  {
    Workflow.ReviewRequest(ReviewPrompt(c, w, code, logs, previousReviews, frames), ReviewImages(c, frames))
  }

  // ---------------------------------------------------------------------
  // The cycle loop
  // ---------------------------------------------------------------------

  /** One review cycle, numbered `cycle + 1`: review, revision, execution. */
  function Cycle(c: Workflow.WorkflowConfig, w: World, videoData: string, s: Workflow.Snapshot, cycle: nat): Workflow.Snapshot
  {
    var n := cycle + 1;
    var review := w.reply(|s.steps|, c.reviewModel, ReviewMessages(c, w, s.code, s.logs, s.reviews, s.frames));
    var reviewed := s.steps + [Usage.StepRecord(Workflow.ReviewStep(n), c.reviewModel, review.usage)];
    var revision := w.reply(|reviewed|, c.manimModel, Workflow.RevisionMessages(c, s.code, review.content, videoData));
    var code := Parsing.ParseCodeBlock(revision.content);
    var revised := reviewed + [Usage.StepRecord(Workflow.RevisionStep(n), c.manimModel, revision.usage)];
    var report := LegacyCode.MultisceneReport(w.images(|revised|), code);
    Workflow.Snapshot(code, report.logs, report.frames, [],
                      if report.success then Some(code) else s.working,
                      s.reviews + [review.content], revised,
                      s.executions + 1, s.successes + (if report.success then 1 else 0))
  }

  function CycleStep(c: Workflow.WorkflowConfig, w: World, videoData: string): (Workflow.Snapshot, nat) -> Workflow.Snapshot
  {
    (s: Workflow.Snapshot, cycle: nat) => Cycle(c, w, videoData, s, cycle)
  }

  ghost predicate IsCycleOf(step: (Workflow.Snapshot, nat) -> Workflow.Snapshot, c: Workflow.WorkflowConfig, w: World,
                            videoData: string)
  {
    forall s: Workflow.Snapshot, cycle: nat {:trigger Cycle(c, w, videoData, s, cycle)} ::
      step(s, cycle) == Cycle(c, w, videoData, s, cycle)
  }

  class ManimWorkflow {
    const config: Workflow.WorkflowConfig
    const world: World
    const usageTracker: LegacyUsage.TokenUsageTracker
    /** Proof-only tallies of the executions of revisions and of the successful ones. */
    ghost var executions: nat
    ghost var successes: nat

    ghost predicate Valid()
      reads this, usageTracker
    {
      usageTracker.Valid() && successes <= executions && UsageNumeric(world)
    }

    /** A new workflow with an empty tracker (registering the models' costs is left out). */
    constructor (config: Workflow.WorkflowConfig, world: World)
      requires UsageNumeric(world)
      ensures Valid() && fresh(usageTracker)
      ensures this.config == config && this.world == world
      ensures usageTracker.steps == [] && usageTracker.totalTokens == 0 && usageTracker.totalCost == 0.0
      ensures executions == 0 && successes == 0
    {
      this.config := config;
      this.world := world;
      usageTracker := new LegacyUsage.TokenUsageTracker();
      executions := 0;
      successes := 0;
    }

    /** `generate_initial_code`: one call to the code model with the system prompt, recorded as a step. */
    method GenerateInitialCode(videoData: string) returns (code: string, messages: seq<Prompt.Message>)
      requires Valid()
      modifies usageTracker
      ensures Valid()
      ensures messages == Workflow.InitialMessages(config, videoData)
      ensures var reply := world.reply(|old(usageTracker.steps)|, config.manimModel, messages);
              code == Parsing.ParseCodeBlock(reply.content)
              && usageTracker.steps == old(usageTracker.steps) + [Usage.StepRecord(Workflow.InitialStep, config.manimModel, reply.usage)]
    {
      var prompt := Prompt.FormatPrompt(config.templates.init, [("video_data", videoData)]);
      messages := [Prompt.Message("system", Prompt.PlainText(prompt))];
      var reply := world.reply(|usageTracker.steps|, config.manimModel, messages);
      usageTracker.AddStep(Workflow.InitialStep, config.manimModel, reply.usage);
      code := Parsing.ParseCodeBlock(reply.content);
    }

    /** `execute_code`: the legacy runner's flag, frames and log for the script; nothing is counted. */
    method ExecuteCode(code: string, stepName: string) returns (success: bool, frames: seq<string>, logs: string)
      ensures LegacyCode.CodeReport(success, frames, logs) == LegacyCode.MultisceneReport(world.images(|usageTracker.steps|), code)
    {
      success, frames, logs := LegacyCode.RunManimMultiscene(world.images(|usageTracker.steps|), code);
    }

    /** The review prompt of `_generate_review`: enhanced exactly when the success rate reaches the threshold. */
    method BuildReviewPrompt(code: string, logs: string, frames: seq<string>, previousReviews: seq<string>)
      returns (reviewContent: string)
      ensures reviewContent == ReviewPrompt(config, world, code, logs, previousReviews, frames)
    {
      var sceneNames := LegacyCode.ExtractSceneClassNames(code);
      var rate := world.rate(frames, sceneNames);
      var useEnhancedPrompt := rate.rate >= config.successThreshold;
      if useEnhancedPrompt {
        reviewContent := Prompt.FormatPrompt(config.templates.reviewEnhanced,
                                             EnhancedReplacements(code, logs, previousReviews, rate));
      } else {
        reviewContent := Prompt.FormatPrompt(config.templates.review, StandardReplacements(code, logs, previousReviews));
      }
    }

    /** `_generate_review`: the prompt chosen by the success rate, the frames attached, one review call. */
    method GenerateReview(code: string, logs: string, frames: seq<string>, previousReviews: seq<string>, cycleNum: nat)
      returns (review: string, reasoning: Option<string>)
      requires Valid()
      modifies usageTracker
      ensures Valid()
      ensures var reply := world.reply(|old(usageTracker.steps)|, config.reviewModel,
                                       ReviewMessages(config, world, code, logs, previousReviews, frames));
              review == reply.content && reasoning == reply.reasoning
              && usageTracker.steps == old(usageTracker.steps) + [Usage.StepRecord(Workflow.ReviewStep(cycleNum), config.reviewModel, reply.usage)]
    {
      var framesFormatted := if frames != [] && config.visionEnabled then LegacyText.ConvertFramesToMessageFormat(frames) else [];
      var reviewContent := BuildReviewPrompt(code, logs, frames, previousReviews);
      var reviewMessage := [Prompt.Message("user", Prompt.Parts([Prompt.TextPart(reviewContent)] + framesFormatted))];
      var reply := world.reply(|usageTracker.steps|, config.reviewModel, reviewMessage);
      usageTracker.AddStep(Workflow.ReviewStep(cycleNum), config.reviewModel, reply.usage);
      review, reasoning := reply.content, reply.reasoning;
    }

    /** `_generate_code_revision`: the system prompt and the revision request as plain text. */
    method GenerateCodeRevision(currentCode: string, review: string, videoData: string, cycleNum: nat)
      returns (revisedCode: string)
      requires Valid()
      modifies usageTracker
      ensures Valid()
      ensures var reply := world.reply(|old(usageTracker.steps)|, config.manimModel,
                                       Workflow.RevisionMessages(config, currentCode, review, videoData));
              revisedCode == Parsing.ParseCodeBlock(reply.content)
              && usageTracker.steps == old(usageTracker.steps) + [Usage.StepRecord(Workflow.RevisionStep(cycleNum), config.manimModel, reply.usage)]
    {
      var systemPrompt := Prompt.FormatPrompt(config.templates.init, [("video_data", videoData)]);
      var revisionMessages := [Prompt.Message("system", Prompt.PlainText(systemPrompt)),
                               Prompt.Message("user", Prompt.PlainText(Workflow.RevisionPrompt(currentCode, review)))];
      var reply := world.reply(|usageTracker.steps|, config.manimModel, revisionMessages);
      usageTracker.AddStep(Workflow.RevisionStep(cycleNum), config.manimModel, reply.usage);
      revisedCode := Parsing.ParseCodeBlock(reply.content);
    }

    /** The second half of a cycle: revise, then execute the revision as "Revision n". */
    method ReviseAndExecute(code: string, review: string, videoData: string, cycle: nat)
      returns (code': string, report: LegacyCode.CodeReport)
      requires Valid()
      modifies this, usageTracker
      ensures Valid()
      ensures var reply := world.reply(|old(usageTracker.steps)|, config.manimModel,
                                       Workflow.RevisionMessages(config, code, review, videoData));
              code' == Parsing.ParseCodeBlock(reply.content)
              && usageTracker.steps == old(usageTracker.steps) + [Usage.StepRecord(Workflow.RevisionStep(cycle + 1), config.manimModel, reply.usage)]
      ensures report == LegacyCode.MultisceneReport(world.images(|usageTracker.steps|), code')
      ensures executions == old(executions) + 1
      ensures successes == old(successes) + (if report.success then 1 else 0)
    {
      code' := GenerateCodeRevision(code, review, videoData, cycle + 1);
      var success, frames', logs' := ExecuteCode(code', "Revision " + NatToString(cycle + 1));
      report := LegacyCode.CodeReport(success, frames', logs');
      executions := executions + 1;
      if success {
        successes := successes + 1;
      }
    }

    /** The body of the cycle loop: review, revise, execute, keep the revision if it rendered. */
    method RunReviewCycle(ghost step: (Workflow.Snapshot, nat) -> Workflow.Snapshot, code: string, logs: string,
                          frames: seq<string>, working: Option<string>, previousReviews: seq<string>,
                          videoData: string, cycle: nat)
      returns (code': string, logs': string, frames': seq<string>, working': Option<string>, reviews': seq<string>)
      requires Valid() && IsCycleOf(step, config, world, videoData)
      modifies this, usageTracker
      ensures Valid()
      ensures Workflow.Snapshot(code', logs', frames', [], working', reviews', usageTracker.steps, executions, successes)
              == step(Workflow.Snapshot(code, logs, frames, [], working, previousReviews, old(usageTracker.steps),
                                        old(executions), old(successes)), cycle)
    {
      ghost var before := Workflow.Snapshot(code, logs, frames, [], working, previousReviews, usageTracker.steps,
                                            executions, successes);
      var review, _ := GenerateReview(code, logs, frames, previousReviews, cycle + 1);
      ghost var reviewed := usageTracker.steps;
      reviews' := previousReviews + [review];
      var report;
      code', report := ReviseAndExecute(code, review, videoData, cycle);
      frames', logs' := report.frames, report.logs;
      working' := if report.success then Some(code') else working;
      CycleUnfolds(step, config, world, videoData, before, cycle, review, reviewed, code', usageTracker.steps, report);
    }

    /**
     * `review_and_update_code`: the fold `Workflow.Cycles` of this layout's
     * cycle over the configured number of cycles, from the given script,
     * logs and frames with no working code and no reviews yet. The
     * conversation passed in is not used.
     */
    method ReviewAndUpdateCode(ghost step: (Workflow.Snapshot, nat) -> Workflow.Snapshot, currentCode: string,
                               mainMessages: seq<Prompt.Message>, combinedLogs: string, lastFrames: seq<string>,
                               videoData: string)
      returns (finalCode: string, workingCode: Option<string>, finalLogs: string)
      requires Valid() && IsCycleOf(step, config, world, videoData)
      modifies this, usageTracker
      ensures Valid()
      ensures var start := Workflow.Snapshot(currentCode, combinedLogs, lastFrames, [], None, [],
                                             old(usageTracker.steps), old(executions), old(successes));
              var end := Workflow.Cycles(step, start, Workflow.CycleCount(config.reviewCycles));
              finalCode == end.code && workingCode == end.working && finalLogs == end.logs
              && usageTracker.steps == end.steps && executions == end.executions && successes == end.successes
    {
      ghost var start := Workflow.Snapshot(currentCode, combinedLogs, lastFrames, [], None, [],
                                           usageTracker.steps, executions, successes);
      var code, logs, frames := currentCode, combinedLogs, lastFrames;
      workingCode := None;
      var previousReviews: seq<string> := [];
      var cycles := Workflow.CycleCount(config.reviewCycles);
      var cycle := 0;
      while cycle < cycles
        invariant 0 <= cycle <= cycles
        invariant Valid()
        invariant Workflow.Snapshot(code, logs, frames, [], workingCode, previousReviews, usageTracker.steps,
                                    executions, successes)
                  == Workflow.Cycles(step, start, cycle)
      {
        ghost var before := Workflow.Cycles(step, start, cycle);
        code, logs, frames, workingCode, previousReviews :=
          RunReviewCycle(step, code, logs, frames, workingCode, previousReviews, videoData, cycle);
        assert Workflow.Cycles(step, start, cycle + 1) == step(before, cycle);
        cycle := cycle + 1;
      }
      finalCode, finalLogs := code, logs;
    }
  }

  // ---------------------------------------------------------------------
  // Properties
  // ---------------------------------------------------------------------

  /** A cycle's result, given the review, the revision, the usage steps recorded by each call and the run's report. */
  lemma CycleUnfolds(step: (Workflow.Snapshot, nat) -> Workflow.Snapshot, c: Workflow.WorkflowConfig, w: World,
                     videoData: string, s: Workflow.Snapshot, cycle: nat, review: string, reviewed: seq<Usage.Record>,
                     code: string, revised: seq<Usage.Record>, report: LegacyCode.CodeReport)
    requires IsCycleOf(step, c, w, videoData)
    requires var reply := w.reply(|s.steps|, c.reviewModel, ReviewMessages(c, w, s.code, s.logs, s.reviews, s.frames));
             review == reply.content
             && reviewed == s.steps + [Usage.StepRecord(Workflow.ReviewStep(cycle + 1), c.reviewModel, reply.usage)]
    requires var reply := w.reply(|reviewed|, c.manimModel, Workflow.RevisionMessages(c, s.code, review, videoData));
             code == Parsing.ParseCodeBlock(reply.content)
             && revised == reviewed + [Usage.StepRecord(Workflow.RevisionStep(cycle + 1), c.manimModel, reply.usage)]
    requires report == LegacyCode.MultisceneReport(w.images(|revised|), code)
    ensures step(s, cycle)
            == Workflow.Snapshot(code, report.logs, report.frames, [],
                                 if report.success then Some(code) else s.working,
                                 s.reviews + [review], revised,
                                 s.executions + 1, s.successes + (if report.success then 1 else 0))
  {
    assert step(s, cycle) == Cycle(c, w, videoData, s, cycle);
  }

  lemma CycleStepIsCycle(c: Workflow.WorkflowConfig, w: World, videoData: string)
    ensures IsCycleOf(CycleStep(c, w, videoData), c, w, videoData)
  {
  }

  /**
   * This layout's cycle obeys the package's cycle laws: one review
   * appended, two usage steps, one execution, and the working code
   * replaced exactly when the revision rendered.
   */
  lemma CycleObeysLaws(step: (Workflow.Snapshot, nat) -> Workflow.Snapshot, c: Workflow.WorkflowConfig, w: World,
                       videoData: string)
    requires IsCycleOf(step, c, w, videoData)
    ensures Workflow.CycleLaws(step)
  {
    forall s: Workflow.Snapshot, cycle: nat
      ensures |step(s, cycle).reviews| == |s.reviews| + 1
      ensures step(s, cycle).reviews[..|s.reviews|] == s.reviews
      ensures |step(s, cycle).steps| == |s.steps| + 2
      ensures step(s, cycle).executions == s.executions + 1
      ensures step(s, cycle).successes == s.successes + 1 || step(s, cycle).successes == s.successes
      ensures step(s, cycle).successes == s.successes + 1 ==> step(s, cycle).working == Some(step(s, cycle).code)
      ensures step(s, cycle).successes == s.successes ==> step(s, cycle).working == s.working
    {
      var next := Cycle(c, w, videoData, s, cycle);
      assert step(s, cycle) == next;
      assert next.reviews[..|s.reviews|] == s.reviews;
    }
  }

  /**
   * After the loop: one review per cycle, two usage steps per cycle, and
   * the working code absent exactly when no revision rendered, otherwise
   * the latest revision that did.
   */
  lemma LoopResults(c: Workflow.WorkflowConfig, w: World, videoData: string, start: Workflow.Snapshot)
    requires start.working.None? && start.reviews == []
    ensures var step := CycleStep(c, w, videoData);
            var n := Workflow.CycleCount(c.reviewCycles);
            var end := Workflow.Cycles(step, start, n);
            && |end.reviews| == n
            && |end.steps| == |start.steps| + 2 * n
            && (end.working.None? <==> forall j :: 0 <= j < n ==> !Workflow.RevisionSucceeded(step, start, j))
            && (end.working.Some? ==>
                  exists j :: 0 <= j < n && Workflow.RevisionSucceeded(step, start, j)
                              && end.working.value == Workflow.Cycles(step, start, j + 1).code
                              && forall i :: j < i < n ==> !Workflow.RevisionSucceeded(step, start, i))
  {
    var step := CycleStep(c, w, videoData);
    CycleStepIsCycle(c, w, videoData);
    CycleObeysLaws(step, c, w, videoData);
    Workflow.CyclesCounts(step, start, Workflow.CycleCount(c.reviewCycles));
    Workflow.WorkingIsLatestSuccess(step, start, Workflow.CycleCount(c.reviewCycles));
  }

  /**
   * The enhanced prompt is chosen exactly when the rate reaches the
   * threshold, and only it fills in the rate and the scene counts; both
   * number the previous reviews with the legacy blocks.
   */
  lemma EnhancedPromptGate(c: Workflow.WorkflowConfig, w: World, code: string, logs: string,
                           previousReviews: seq<string>, frames: seq<string>)
    ensures var rate := ReviewRate(w, code, frames);
            var prompt := ReviewPrompt(c, w, code, logs, previousReviews, frames);
            && (rate.rate >= c.successThreshold ==>
                  prompt == Prompt.ApplyReplacements(c.templates.reviewEnhanced,
                                                     EnhancedReplacements(code, logs, previousReviews, rate)))
            && (rate.rate < c.successThreshold ==>
                  prompt == Prompt.ApplyReplacements(c.templates.review, StandardReplacements(code, logs, previousReviews)))
    ensures forall r :: r in StandardReplacements(code, logs, previousReviews) ==>
              r.0 != "success_rate" && r.0 != "scenes_rendered" && r.0 != "total_scenes"
    ensures forall rate: RateAnswer ::
              EnhancedReplacements(code, logs, previousReviews, rate)[3..]
              == [("success_rate", rate.rateText), ("scenes_rendered", rate.renderedText), ("total_scenes", rate.totalText)]
    ensures StandardReplacements(code, logs, previousReviews)[0].1 == LegacyText.FormatPreviousReviews(previousReviews)
  {
  }

  /**
   * The review request is one user message: the prompt, then one bare
   * `image_url` item per frame when there are frames and vision is on, and
   * nothing else otherwise. The revision request never carries images.
   */
  lemma RequestShapes(c: Workflow.WorkflowConfig, prompt: string, frames: seq<string>, code: string, review: string,
                      videoData: string)
    ensures var m := Workflow.ReviewRequest(prompt, ReviewImages(c, frames));
            && |m| == 1 && m[0].role == "user" && m[0].content.Parts?
            && m[0].content.parts[0] == Prompt.TextPart(prompt)
            && (frames != [] && c.visionEnabled ==>
                  |m[0].content.parts| == 1 + |frames|
                  && forall k :: 0 <= k < |frames| ==> m[0].content.parts[1 + k] == Prompt.BareImagePart(frames[k]))
            && (frames == [] || !c.visionEnabled ==> |m[0].content.parts| == 1)
    ensures var m := Workflow.RevisionMessages(c, code, review, videoData);
            && |m| == 2
            && m[0] == Prompt.Message("system", Prompt.PlainText(Workflow.InitPrompt(c, videoData)))
            && m[1] == Prompt.Message("user", Prompt.PlainText(Workflow.RevisionPrompt(code, review)))
  {
    var images := ReviewImages(c, frames);
    var parts := [Prompt.TextPart(prompt)] + images;
    assert Workflow.ReviewRequest(prompt, images) == [Prompt.Message("user", Prompt.Parts(parts))];
    if frames != [] && c.visionEnabled {
      forall k | 0 <= k < |frames| ensures parts[1 + k] == Prompt.BareImagePart(frames[k]) {
        assert parts[1 + k] == images[k];
      }
    }
  }
}
