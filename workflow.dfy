/**
 * The refinement orchestrator of `src/manim_generator/workflow.py`:
 * `ManimWorkflow` keeps the counters and the usage tracker, runs each
 * script through the renderer, asks the review model for feedback and the
 * code model for a revision, and keeps the latest revision that rendered.
 *
 * The models, the renderer and `ast.parse` are oracles held in a `World`;
 * the cycle loop is specified by the left fold `Cycles`, and the
 * properties of the loop are lemmas about that fold.
 */
module Workflow {
  import opened Wrappers
  import opened Strings
  import Parsing
  import Rendering
  import Prompt
  import Usage
  import Llm

  /** The prompt files `format_prompt` reads by name. */
  datatype Templates = Templates(init: string, review: string, reviewEnhanced: string)

  /** The settings of the configuration dictionary the workflow reads. */
  datatype WorkflowConfig = WorkflowConfig(
    manimModel: string,
    reviewModel: string,
    reviewCycles: int,
    successThreshold: real,
    visionEnabled: bool,
    frameExtractionMode: string,
    frameCount: int,
    sceneTimeout: Option<int>,
    templates: Templates)

  /**
   * What the workflow does not compute itself: `ast.parse`, the renderer's
   * world for each execution (by execution number), the reply to each model
   * call (by call number, model and messages) and `str()` of a float.
   */
  datatype World = World(
    parse: string -> Parsing.ParseOutcome,
    renders: nat -> Rendering.RenderWorld,
    reply: (nat, string, seq<Prompt.Message>) -> Llm.Completion,
    floatText: real -> string)

  /** Every reply's usage dictionary holds numbers where the tracker adds them up. */
  ghost predicate UsageNumeric(w: World)
  {
    forall call, model, messages :: Usage.Numeric(w.reply(call, model, messages).usage)
  }

  /** The world of the `n`-th execution, parsing with the same `ast.parse`. */
  function RenderWorldAt(w: World, n: nat): Rendering.RenderWorld
  {
    w.renders(n).(parse := w.parse)
  }

  /** How often `for cycle in range(review_cycles)` iterates. */
  function CycleCount(reviewCycles: int): nat
  {
    if reviewCycles > 0 then reviewCycles else 0
  }

  const InitialStep := "Initial Code Generation"

  function ReviewStep(n: nat): string
  {
    "Review Cycle " + NatToString(n)
  }

  function RevisionStep(n: nat): string
  {
    "Code Revision " + NatToString(n)
  }

  // ---------------------------------------------------------------------
  // The messages sent to the models
  // ---------------------------------------------------------------------

  /** The system prompt: the `init_prompt` template with the video description filled in. */
  function InitPrompt(c: WorkflowConfig, videoData: string): string
  {
    Prompt.ApplyReplacements(c.templates.init, [("video_data", videoData)])
  }

  function InitialMessages(c: WorkflowConfig, videoData: string): seq<Prompt.Message>
  {
    [Prompt.Message("system", Prompt.PlainText(InitPrompt(c, videoData)))]
  }

  /** The scene success rate of a script: its discovered scenes against those that rendered. */
  function ReviewRate(w: World, code: string, successfulScenes: seq<string>): Rendering.SuccessRate
  {
    Rendering.CalculateSceneSuccessRate(successfulScenes, Parsing.DiscoveredScenes(w.parse(code)))
  }

  predicate UsesEnhancedPrompt(c: WorkflowConfig, w: World, code: string, successfulScenes: seq<string>)
  {
    ReviewRate(w, code, successfulScenes).rate >= c.successThreshold
  }

  function StandardReplacements(code: string, logs: string, previousReviews: seq<string>): seq<(string, string)>
  {
    [("previous_reviews", Prompt.FormatPreviousReviews(previousReviews)), ("video_code", code), ("execution_logs", logs)]
  }

  function EnhancedReplacements(w: World, code: string, logs: string, previousReviews: seq<string>,
                                rate: Rendering.SuccessRate): seq<(string, string)>
  {
    StandardReplacements(code, logs, previousReviews)
    + [("success_rate", w.floatText(rate.rate)),
       ("scenes_rendered", IntToString(rate.rendered)),
       ("total_scenes", IntToString(rate.total))]
  }

  /** The text of the review request. */
  function ReviewPrompt(c: WorkflowConfig, w: World, code: string, logs: string,
                        previousReviews: seq<string>, successfulScenes: seq<string>): string
  {
    if UsesEnhancedPrompt(c, w, code, successfulScenes) then
      Prompt.ApplyReplacements(c.templates.reviewEnhanced,
                               EnhancedReplacements(w, code, logs, previousReviews, ReviewRate(w, code, successfulScenes)))
    else
      Prompt.ApplyReplacements(c.templates.review, StandardReplacements(code, logs, previousReviews))
  }

  /** The frames attached to a review: all of them when there are some and vision is on, else none. */
  function ReviewImages(c: WorkflowConfig, frames: seq<string>): seq<Prompt.Part>
  {
    if frames != [] && c.visionEnabled then Prompt.ConvertFramesToMessageFormat(frames) else []
  }

  /** The review request: one user message, the prompt text followed by the images. */
  function ReviewRequest(prompt: string, images: seq<Prompt.Part>): seq<Prompt.Message>
  {
    [Prompt.Message("user", Prompt.Parts([Prompt.TextPart(prompt)] + images))]
  }

  function ReviewMessages(c: WorkflowConfig, w: World, code: string, logs: string, frames: seq<string>,
                          previousReviews: seq<string>, successfulScenes: seq<string>): seq<Prompt.Message>
  {
    ReviewRequest(ReviewPrompt(c, w, code, logs, previousReviews, successfulScenes), ReviewImages(c, frames))
  }

  const RevisionIntro := "Here is the current code:\n\n"
  const FeedbackIntro := "\n\nHere is some feedback on your code:\n\n<review>\n"
  const RevisionClosing := "\n</review>\n\nPlease implement the suggestions and respond with the whole script. Do not leave anything out."

  /** The revision request: the current script in a `python` fence, then the review in `<review>` tags. */
  function RevisionPrompt(code: string, review: string): string
  {
    RevisionIntro + "```python\n" + code + "\n```" + FeedbackIntro + review + RevisionClosing
  }

  function RevisionMessages(c: WorkflowConfig, code: string, review: string, videoData: string): seq<Prompt.Message>
  {
    [Prompt.Message("system", Prompt.PlainText(InitPrompt(c, videoData))),
     Prompt.Message("user", Prompt.PlainText(RevisionPrompt(code, review)))]
  }

  // ---------------------------------------------------------------------
  // The cycle loop as a fold
  // ---------------------------------------------------------------------

  /**
   * The variables of `review_and_update_code` between cycles, with the
   * tracker's steps and the two execution counters.
   */
  datatype Snapshot = Snapshot(
    code: string,
    logs: string,
    frames: seq<string>,
    scenes: seq<string>,
    working: Option<string>,
    reviews: seq<string>,
    steps: seq<Usage.Record>,
    executions: nat,
    successes: nat)

  /** One review cycle, numbered `cycle + 1`: review, revision, execution. */
  function Cycle(c: WorkflowConfig, w: World, videoData: string, s: Snapshot, cycle: nat): Snapshot
  {
    var n := cycle + 1;
    var review := w.reply(|s.steps|, c.reviewModel, ReviewMessages(c, w, s.code, s.logs, s.frames, s.reviews, s.scenes));
    var reviewed := s.steps + [Usage.StepRecord(ReviewStep(n), c.reviewModel, review.usage)];
    var revision := w.reply(|reviewed|, c.manimModel, RevisionMessages(c, s.code, review.content, videoData));
    var code := Parsing.ParseCodeBlock(revision.content);
    var report := Rendering.MultisceneReport(RenderWorldAt(w, s.executions), code, c.frameExtractionMode, c.frameCount, c.sceneTimeout);
    Snapshot(code, report.logs, report.frameUrls, report.successfulScenes,
             if report.success then Some(code) else s.working,
             s.reviews + [review.content],
             reviewed + [Usage.StepRecord(RevisionStep(n), c.manimModel, revision.usage)],
             s.executions + 1,
             s.successes + (if report.success then 1 else 0))
  }

  /** The cycle of one configuration, world and video description, as a step of the fold. */
  function CycleStep(c: WorkflowConfig, w: World, videoData: string): (Snapshot, nat) -> Snapshot
  {
    (s: Snapshot, cycle: nat) => Cycle(c, w, videoData, s, cycle)
  }

  /**
   * `step` is the review cycle of this configuration, world and video
   * description. The methods of the loop take the cycle in this form, so
   * that their proofs only open one cycle at a time.
   */
  ghost predicate IsCycleOf(step: (Snapshot, nat) -> Snapshot, c: WorkflowConfig, w: World, videoData: string)
  {
    forall s: Snapshot, cycle: nat {:trigger Cycle(c, w, videoData, s, cycle)} ::
      step(s, cycle) == Cycle(c, w, videoData, s, cycle)
  }

  /** The state after the first `k` cycles. */
  function Cycles(step: (Snapshot, nat) -> Snapshot, start: Snapshot, k: nat): Snapshot
  {
    if k == 0 then start else step(Cycles(step, start, k - 1), k - 1)
  }

  /** The revision of cycle number `j + 1` rendered successfully. */
  predicate RevisionSucceeded(step: (Snapshot, nat) -> Snapshot, start: Snapshot, j: nat)
  {
    Cycles(step, start, j + 1).successes == Cycles(step, start, j).successes + 1
  }

  /**
   * What a cycle does to the loop state whatever the models answer: one
   * review appended, two usage steps, one execution, counted as a success
   * exactly when the working code becomes the new revision and left alone
   * otherwise.
   */
  ghost predicate CycleLaws(step: (Snapshot, nat) -> Snapshot)
  {
    forall s: Snapshot, cycle: nat {:trigger step(s, cycle)} ::
      && |step(s, cycle).reviews| == |s.reviews| + 1
      && step(s, cycle).reviews[..|s.reviews|] == s.reviews
      && |step(s, cycle).steps| == |s.steps| + 2
      && step(s, cycle).executions == s.executions + 1
      && (step(s, cycle).successes == s.successes + 1 || step(s, cycle).successes == s.successes)
      && (step(s, cycle).successes == s.successes + 1 ==> step(s, cycle).working == Some(step(s, cycle).code))
      && (step(s, cycle).successes == s.successes ==> step(s, cycle).working == s.working)
  }

  // ---------------------------------------------------------------------
  // The workflow object
  // ---------------------------------------------------------------------

  class ManimWorkflow {
    const config: WorkflowConfig
    const world: World
    const usageTracker: Usage.TokenUsageTracker
    var cyclesCompleted: int
    var executionCount: nat
    var successfulExecutions: nat
    var initialSuccess: bool

    ghost predicate Valid()
      reads this, usageTracker
    {
      usageTracker.Valid() && successfulExecutions <= executionCount && UsageNumeric(world)
    }

    /** A new workflow: no cycles, no executions, no initial success, an empty tracker. */
    constructor (config: WorkflowConfig, world: World)
      requires UsageNumeric(world)
      ensures Valid() && fresh(usageTracker)
      ensures this.config == config && this.world == world
      ensures cyclesCompleted == 0 && executionCount == 0 && successfulExecutions == 0 && !initialSuccess
      ensures usageTracker.steps == []
    {
      this.config := config;
      this.world := world;
      usageTracker := new Usage.TokenUsageTracker();
      cyclesCompleted := 0;
      executionCount := 0;
      successfulExecutions := 0;
      initialSuccess := false;
    }

    /** `generate_initial_code`: one call to the code model with the system prompt, recorded as a step. */
    method GenerateInitialCode(videoData: string) returns (code: string, messages: seq<Prompt.Message>)
      requires Valid()
      modifies usageTracker
      ensures Valid()
      ensures messages == InitialMessages(config, videoData)
      ensures var reply := world.reply(|old(usageTracker.steps)|, config.manimModel, messages);
              code == Parsing.ParseCodeBlock(reply.content)
              && usageTracker.steps == old(usageTracker.steps) + [Usage.StepRecord(InitialStep, config.manimModel, reply.usage)]
    {
      var prompt := Prompt.FormatPrompt(config.templates.init, [("video_data", videoData)]);
      messages := [Prompt.Message("system", Prompt.PlainText(prompt))];
      var reply := world.reply(|usageTracker.steps|, config.manimModel, messages);
      usageTracker.AddStep(InitialStep, config.manimModel, reply.usage);
      code := Parsing.ParseCodeBlock(reply.content);
    }

    /** `execute_code`: render the script, count the execution, and count it as successful iff it succeeded. */
    method ExecuteCode(code: string) returns (report: Rendering.RenderReport)
      requires Valid()
      modifies this
      ensures Valid()
      ensures report == Rendering.MultisceneReport(RenderWorldAt(world, old(executionCount)), code,
                                                   config.frameExtractionMode, config.frameCount, config.sceneTimeout)
      ensures executionCount == old(executionCount) + 1
      ensures successfulExecutions == old(successfulExecutions) + (if report.success then 1 else 0)
      ensures cyclesCompleted == old(cyclesCompleted) && initialSuccess == old(initialSuccess)
    {
      report := Rendering.RunManimMultiscene(RenderWorldAt(world, executionCount), code,
                                             config.frameExtractionMode, config.frameCount, config.sceneTimeout);
      executionCount := executionCount + 1;
      if report.success {
        successfulExecutions := successfulExecutions + 1;
      }
    }

    /** `_generate_review`: choose the prompt by the success rate, attach frames, ask the review model. */
    method GenerateReview(code: string, logs: string, frames: seq<string>, previousReviews: seq<string>,
                          cycleNum: nat, successfulScenes: seq<string>)
      returns (review: string, reasoning: Option<string>)
      requires Valid()
      modifies usageTracker
      ensures Valid()
      ensures var reply := world.reply(|old(usageTracker.steps)|, config.reviewModel,
                                       ReviewMessages(config, world, code, logs, frames, previousReviews, successfulScenes));
              review == reply.content && reasoning == reply.reasoning
              && usageTracker.steps == old(usageTracker.steps) + [Usage.StepRecord(ReviewStep(cycleNum), config.reviewModel, reply.usage)]
    {
      var framesFormatted := if frames != [] && config.visionEnabled then Prompt.ConvertFramesToMessageFormat(frames) else [];
      var sceneNames := Parsing.ExtractSceneClassNames(world.parse(code));
      var rate := Rendering.CalculateSceneSuccessRate(successfulScenes, sceneNames);
      var useEnhancedPrompt := rate.rate >= config.successThreshold;
      var reviewContent;
      if useEnhancedPrompt {
        reviewContent := Prompt.FormatPrompt(config.templates.reviewEnhanced,
                                             EnhancedReplacements(world, code, logs, previousReviews, rate));
      } else {
        reviewContent := Prompt.FormatPrompt(config.templates.review, StandardReplacements(code, logs, previousReviews));
      }
      var reviewMessage := ReviewRequest(reviewContent, framesFormatted);
      var reply := world.reply(|usageTracker.steps|, config.reviewModel, reviewMessage);
      usageTracker.AddStep(ReviewStep(cycleNum), config.reviewModel, reply.usage);
      review, reasoning := reply.content, reply.reasoning;
    }

    /** `_generate_code_revision`: system prompt plus the revision request, answer parsed as code. */
    method GenerateCodeRevision(currentCode: string, review: string, videoData: string, cycleNum: nat)
      returns (revisedCode: string)
      requires Valid()
      modifies usageTracker
      ensures Valid()
      ensures var reply := world.reply(|old(usageTracker.steps)|, config.manimModel,
                                       RevisionMessages(config, currentCode, review, videoData));
              revisedCode == Parsing.ParseCodeBlock(reply.content)
              && usageTracker.steps == old(usageTracker.steps) + [Usage.StepRecord(RevisionStep(cycleNum), config.manimModel, reply.usage)]
    {
      var revisionPrompt := RevisionIntro + "```python\n" + currentCode + "\n```" + FeedbackIntro + review + RevisionClosing;
      var systemPrompt := Prompt.FormatPrompt(config.templates.init, [("video_data", videoData)]);
      var revisionMessages := [Prompt.Message("system", Prompt.PlainText(systemPrompt)),
                               Prompt.Message("user", Prompt.PlainText(revisionPrompt))];
      var reply := world.reply(|usageTracker.steps|, config.manimModel, revisionMessages);
      usageTracker.AddStep(RevisionStep(cycleNum), config.manimModel, reply.usage);
      revisedCode := Parsing.ParseCodeBlock(reply.content);
    }

    /** The body of the cycle loop: review, revise, execute, and keep the revision if it rendered. */
    method RunReviewCycle(ghost step: (Snapshot, nat) -> Snapshot, code: string, logs: string, frames: seq<string>,
                          scenes: seq<string>, working: Option<string>, previousReviews: seq<string>,
                          videoData: string, cycle: nat)
      returns (code': string, logs': string, frames': seq<string>, scenes': seq<string>,
               working': Option<string>, reviews': seq<string>)
      requires Valid() && IsCycleOf(step, config, world, videoData)
      modifies this, usageTracker
      ensures Valid()
      ensures Snapshot(code', logs', frames', scenes', working', reviews', usageTracker.steps,
                       executionCount, successfulExecutions)
              == step(Snapshot(code, logs, frames, scenes, working, previousReviews, old(usageTracker.steps),
                               old(executionCount), old(successfulExecutions)), cycle)
      ensures cyclesCompleted == old(cyclesCompleted) && initialSuccess == old(initialSuccess)
    {
      ghost var before := Snapshot(code, logs, frames, scenes, working, previousReviews, usageTracker.steps,
                                   executionCount, successfulExecutions);
      ghost var expected := Cycle(config, world, videoData, before, cycle);
      var review, _ := GenerateReview(code, logs, frames, previousReviews, cycle + 1, scenes);
      reviews' := previousReviews + [review];
      assert reviews' == expected.reviews;
      code' := GenerateCodeRevision(code, review, videoData, cycle + 1);
      assert code' == expected.code && usageTracker.steps == expected.steps;
      var report := ExecuteCode(code');
      frames', logs', scenes' := report.frameUrls, report.logs, report.successfulScenes;
      working' := if report.success then Some(code') else working;
    }

    /**
     * `review_and_update_code`: every configured cycle reviews the latest
     * script, revises it and runs the revision; the result is the fold
     * `Cycles` of the review cycle from the given state, with no working
     * code and no reviews yet.
     */
    method ReviewAndUpdateCode(ghost step: (Snapshot, nat) -> Snapshot, currentCode: string, combinedLogs: string,
                               lastFrames: seq<string>, videoData: string, successfulScenes: seq<string>)
      returns (finalCode: string, workingCode: Option<string>, finalLogs: string)
      requires Valid() && IsCycleOf(step, config, world, videoData)
      modifies this, usageTracker
      ensures Valid()
      ensures var start := Snapshot(currentCode, combinedLogs, lastFrames, successfulScenes, None, [],
                                    old(usageTracker.steps), old(executionCount), old(successfulExecutions));
              var end := Cycles(step, start, CycleCount(config.reviewCycles));
              finalCode == end.code && workingCode == end.working && finalLogs == end.logs
              && usageTracker.steps == end.steps
              && executionCount == end.executions && successfulExecutions == end.successes
      ensures cyclesCompleted == if config.reviewCycles > 0 then config.reviewCycles else old(cyclesCompleted)
      ensures initialSuccess == old(initialSuccess)
    {
      ghost var start := Snapshot(currentCode, combinedLogs, lastFrames, successfulScenes, None, [],
                                  usageTracker.steps, executionCount, successfulExecutions);
      var code, logs, frames, scenes := currentCode, combinedLogs, lastFrames, successfulScenes;
      workingCode := None;
      var previousReviews: seq<string> := [];
      var cycles := CycleCount(config.reviewCycles);
      var cycle := 0;
      while cycle < cycles
        invariant 0 <= cycle <= cycles
        invariant Valid()
        invariant Snapshot(code, logs, frames, scenes, workingCode, previousReviews, usageTracker.steps,
                           executionCount, successfulExecutions)
                  == Cycles(step, start, cycle)
        invariant cyclesCompleted == if cycle > 0 then cycle else old(cyclesCompleted)
        invariant initialSuccess == old(initialSuccess)
      {
        ghost var before := Cycles(step, start, cycle);
        code, logs, frames, scenes, workingCode, previousReviews :=
          RunReviewCycle(step, code, logs, frames, scenes, workingCode, previousReviews, videoData, cycle);
        assert Cycles(step, start, cycle + 1) == step(before, cycle);
        cyclesCompleted := cycle + 1;
        cycle := cycle + 1;
      }
      finalCode, finalLogs := code, logs;
    }
  }

  // ---------------------------------------------------------------------
  // Properties of the messages
  // ---------------------------------------------------------------------

  /**
   * The enhanced review prompt is used exactly when the success rate reaches
   * the threshold, and only it fills in the rate and the two scene counts.
   */
  lemma EnhancedPromptGate(c: WorkflowConfig, w: World, code: string, logs: string,
                           previousReviews: seq<string>, successfulScenes: seq<string>)
    ensures var rate := ReviewRate(w, code, successfulScenes);
            var prompt := ReviewPrompt(c, w, code, logs, previousReviews, successfulScenes);
            && (rate.rate >= c.successThreshold ==>
                  prompt == Prompt.ApplyReplacements(c.templates.reviewEnhanced,
                                                     EnhancedReplacements(w, code, logs, previousReviews, rate)))
            && (rate.rate < c.successThreshold ==>
                  prompt == Prompt.ApplyReplacements(c.templates.review, StandardReplacements(code, logs, previousReviews)))
    ensures forall r :: r in StandardReplacements(code, logs, previousReviews) ==>
              r.0 in {"previous_reviews", "video_code", "execution_logs"}
    ensures forall rate: Rendering.SuccessRate ::
              |EnhancedReplacements(w, code, logs, previousReviews, rate)| == 6
              && EnhancedReplacements(w, code, logs, previousReviews, rate)[3..]
                 == [("success_rate", w.floatText(rate.rate)),
                     ("scenes_rendered", IntToString(rate.rendered)),
                     ("total_scenes", IntToString(rate.total))]
  {
  }

  /**
   * The review request is one user message: the prompt text first, then
   * one `image/png` item per frame when there are frames and vision is on,
   * and no image at all otherwise.
   */
  lemma ReviewMessageShape(c: WorkflowConfig, prompt: string, frames: seq<string>)
    ensures var m := ReviewRequest(prompt, ReviewImages(c, frames));
            && |m| == 1 && m[0].role == "user" && m[0].content.Parts?
            && m[0].content.parts[0] == Prompt.TextPart(prompt)
            && (frames != [] && c.visionEnabled ==>
                  |m[0].content.parts| == 1 + |frames|
                  && forall k :: 0 <= k < |frames| ==> m[0].content.parts[1 + k] == Prompt.ImagePart(frames[k], "image/png"))
            && (frames == [] || !c.visionEnabled ==> |m[0].content.parts| == 1)
  {
    var images := ReviewImages(c, frames);
    var parts := [Prompt.TextPart(prompt)] + images;
    assert ReviewRequest(prompt, images) == [Prompt.Message("user", Prompt.Parts(parts))];
    if frames != [] && c.visionEnabled {
      assert images == Prompt.ConvertFramesToMessageFormat(frames);
      forall k | 0 <= k < |frames| ensures parts[1 + k] == Prompt.ImagePart(frames[k], "image/png") {
        assert parts[1 + k] == images[k];
      }
    } else {
      assert images == [];
    }
  }

  lemma IntroHasNoBacktick()
    ensures forall i :: 0 <= i < |RevisionIntro| ==> RevisionIntro[i] != '`'
  {
  }

  lemma RevisionRequestShowsCode(c: WorkflowConfig, code: string, review: string, videoData: string)
    requires code != [] && !IsSpace(code[0]) && !IsSpace(code[|code| - 1])
    requires !Parsing.HasFence(code)
    ensures var m := RevisionMessages(c, code, review, videoData);
            && |m| == 2
            && m[0] == Prompt.Message("system", Prompt.PlainText(InitPrompt(c, videoData)))
            && m[1].role == "user" && m[1].content.PlainText?
            && Parsing.ParseCodeBlock(m[1].content.text) == code
  {
    var rest := FeedbackIntro + review + RevisionClosing;
    assert RevisionPrompt(code, review) == RevisionIntro + "```" + "python" + "\n" + code + "\n```" + rest;
    IntroHasNoBacktick();
    Parsing.FencedScriptRecovered(RevisionIntro, "python", code, rest);
  }

  // ---------------------------------------------------------------------
  // Properties of the cycle loop
  // ---------------------------------------------------------------------

  /** The cycle as a step function is the cycle. */
  lemma CycleStepIsCycle(c: WorkflowConfig, w: World, videoData: string)
    ensures IsCycleOf(CycleStep(c, w, videoData), c, w, videoData)
  {
  }

  /** The review cycle of `review_and_update_code` obeys the cycle laws. */
  lemma CycleObeysLaws(step: (Snapshot, nat) -> Snapshot, c: WorkflowConfig, w: World, videoData: string)
    requires IsCycleOf(step, c, w, videoData)
    ensures CycleLaws(step)
  {
    forall s: Snapshot, cycle: nat
      ensures |step(s, cycle).reviews| == |s.reviews| + 1
      ensures step(s, cycle).reviews[..|s.reviews|] == s.reviews
      ensures |step(s, cycle).steps| == |s.steps| + 2
      ensures step(s, cycle).executions == s.executions + 1
      ensures step(s, cycle).successes == s.successes + 1 || step(s, cycle).successes == s.successes
      ensures step(s, cycle).successes == s.successes + 1 ==> step(s, cycle).working == Some(step(s, cycle).code)
      ensures step(s, cycle).successes == s.successes ==> step(s, cycle).working == s.working
    {
      var next := Cycle(c, w, videoData, s, cycle);
      assert step(s, cycle) == next;
      assert next.reviews[..|s.reviews|] == s.reviews;
    }
  }

  /**
   * After `k` cycles there are `k` more reviews, `2k` more usage steps and
   * `k` more executions, of which at most `k` more succeeded.
   */
  lemma {:induction false} CyclesCounts(step: (Snapshot, nat) -> Snapshot, start: Snapshot, k: nat)
    requires CycleLaws(step)
    ensures var end := Cycles(step, start, k);
            && |end.reviews| == |start.reviews| + k
            && |end.steps| == |start.steps| + 2 * k
            && end.executions == start.executions + k
            && start.successes <= end.successes <= start.successes + k
  {
    if k > 0 {
      CyclesCounts(step, start, k - 1);
      var prev := Cycles(step, start, k - 1);
      assert Cycles(step, start, k) == step(prev, k - 1);
    }
  }

  /**
   * Reviews are only appended: the history after `j` cycles is a prefix of
   * the history after `k >= j`, so the review prompt of cycle `j + 1` sees
   * the reviews of cycles `1..j`, in order.
   */
  lemma {:induction false} ReviewsOnlyGrow(step: (Snapshot, nat) -> Snapshot, start: Snapshot, j: nat, k: nat)
    requires CycleLaws(step) && j <= k
    ensures var before := Cycles(step, start, j).reviews;
            var after := Cycles(step, start, k).reviews;
            |before| <= |after| && after[..|before|] == before
  {
    if j < k {
      ReviewsOnlyGrow(step, start, j, k - 1);
      var before := Cycles(step, start, j).reviews;
      var prev := Cycles(step, start, k - 1);
      var after := step(prev, k - 1).reviews;
      assert Cycles(step, start, k).reviews == after;
      assert after[..|prev.reviews|] == prev.reviews;
      assert after[..|before|] == prev.reviews[..|before|];
    }
  }

  /**
   * The working code after `k` cycles is the latest revision that rendered:
   * it is absent exactly when none did, and otherwise it is the code of a
   * successful cycle after which no cycle succeeded.
   */
  lemma {:induction false} WorkingIsLatestSuccess(step: (Snapshot, nat) -> Snapshot, start: Snapshot, k: nat)
    requires CycleLaws(step) && start.working.None?
    ensures Cycles(step, start, k).working.None? <==> forall j :: 0 <= j < k ==> !RevisionSucceeded(step, start, j)
    ensures Cycles(step, start, k).working.Some? ==>
              exists j :: 0 <= j < k && RevisionSucceeded(step, start, j)
                          && Cycles(step, start, k).working.value == Cycles(step, start, j + 1).code
                          && forall i :: j < i < k ==> !RevisionSucceeded(step, start, i)
  {
    if k > 0 {
      WorkingIsLatestSuccess(step, start, k - 1);
      var prev := Cycles(step, start, k - 1);
      var end := Cycles(step, start, k);
      assert end == step(prev, k - 1);
      if RevisionSucceeded(step, start, k - 1) {
        assert end.working == Some(end.code);
      } else {
        assert end.working == prev.working;
        if prev.working.Some? {
          var j :| 0 <= j < k - 1 && RevisionSucceeded(step, start, j)
                   && prev.working.value == Cycles(step, start, j + 1).code
                   && forall i :: j < i < k - 1 ==> !RevisionSucceeded(step, start, i);
          assert forall i :: j < i < k ==> !RevisionSucceeded(step, start, i);
        }
      }
    }
  }

  /**
   * Code, logs, frames and successful scenes are replaced by the revision's
   * results whether it succeeded or not, so the next review looks at the
   * latest attempt.
   */
  lemma CycleReplacesResults(c: WorkflowConfig, w: World, videoData: string, s: Snapshot, cycle: nat)
    ensures var next := Cycle(c, w, videoData, s, cycle);
            var report := Rendering.MultisceneReport(RenderWorldAt(w, s.executions), next.code,
                                                     c.frameExtractionMode, c.frameCount, c.sceneTimeout);
            next.logs == report.logs && next.frames == report.frameUrls && next.scenes == report.successfulScenes
            && (next.successes == s.successes + 1 <==> report.success)
  {
  }
}
