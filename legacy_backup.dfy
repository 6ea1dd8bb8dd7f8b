/**
 * The earlier copy of the first script (`manim_generator_backup.py`):
 * command-line settings with reasoning flags and forced vision, a
 * module-level token tracking dictionary, a review request sent with the
 * `user` role, a revision request made of the system prompt and the review
 * alone (no conversation history), and a working code that a failed
 * revision leaves alone.
 *
 * The module-level dictionary is one `LegacyUsage.TokenUsageTracker` that
 * `RunBackup` creates and hands to every step. Model replies and image
 * worlds are inputs indexed by the number of usage steps recorded before
 * them. The loop is the package's fold over `Workflow.Snapshot`, whose
 * execution and success tallies are kept as ghost values only for the
 * proofs.
 */
module LegacyBackup {
  import opened Wrappers
  import Parsing
  import Prompt
  import Llm
  import Usage
  import Config
  import LegacyCode
  import LegacyText
  import LegacyUsage
  import Workflow
  import Pipeline

  const DefaultModel := "gemini/gemini-2.5-pro-exp-03-25"
  const DefaultReviewCycles := 5

  /** The command-line arguments the run depends on. */
  datatype Arguments = Arguments(
    manimModel: string,
    reviewModel: string,
    reviewCycles: int,
    forceVision: bool,
    reasoningEffort: Option<string>,
    reasoningMaxTokens: Option<int>,
    reasoningExclude: bool)

  /** The defaults of `DEFAULT_CONFIG` and of the flags, with no reasoning setting. */
  function DefaultArguments(): (args: Arguments)
    ensures args.manimModel == args.reviewModel == DefaultModel && args.reviewCycles == 5
    ensures !args.forceVision && args.reasoningEffort.None? && args.reasoningMaxTokens.None? && !args.reasoningExclude
  {
    Arguments(DefaultModel, DefaultModel, DefaultReviewCycles, false, None, None, false)
  }

  /** The configuration dictionary the run reads, with the prompt files `format_prompt` reads by name. */
  datatype BackupConfig = BackupConfig(
    manimModel: string,
    reviewModel: string,
    reviewCycles: int,
    visionEnabled: bool,
    reasoning: Option<Llm.Reasoning>,
    templates: Workflow.Templates)

  /** Vision follows the review model alone, or the force flag. */
  function BackupVision(reviewSupportsVision: bool, forceVision: bool): bool
  {
    reviewSupportsVision || forceVision
  }

  /**
   * `parse_arguments` after argparse: giving both an effort and a token
   * budget ends the run with status 1; otherwise vision is the review
   * model's support or the force flag, and each reasoning flag that was
   * given adds its key, an empty dictionary becoming None.
   */
  method ParseArguments(args: Arguments, reviewSupportsVision: bool, templates: Workflow.Templates)
    returns (r: Result<BackupConfig, int>)
    ensures r.Err? <==> Config.EffortGiven(args.reasoningEffort) && Config.MaxTokensGiven(args.reasoningMaxTokens)
    ensures r.Err? ==> r.error == Config.ExitFailure
    ensures r.Ok? ==>
              && r.value.manimModel == args.manimModel && r.value.reviewModel == args.reviewModel
              && r.value.reviewCycles == args.reviewCycles && r.value.templates == templates
              && (r.value.visionEnabled <==> reviewSupportsVision || args.forceVision)
              && (r.value.reasoning.None? <==>
                    !Config.EffortGiven(args.reasoningEffort) && !Config.MaxTokensGiven(args.reasoningMaxTokens)
                    && !args.reasoningExclude)
    ensures r.Ok? && r.value.reasoning.Some? ==>
              && ("effort" in r.value.reasoning.value <==> Config.EffortGiven(args.reasoningEffort))
              && ("max_tokens" in r.value.reasoning.value <==> Config.MaxTokensGiven(args.reasoningMaxTokens))
              && ("exclude" in r.value.reasoning.value <==> args.reasoningExclude)
              && r.value.reasoning.value.Keys <= {"effort", "max_tokens", "exclude"}
    ensures r.Ok? ==> Config.IsReasoningOf(args.reasoningEffort, args.reasoningMaxTokens, args.reasoningExclude,
                                           r.value.reasoning)
  {
    var valid := Config.ValidateReasoningArguments(args.reasoningEffort, args.reasoningMaxTokens);
    if valid.Err? {
      return Err(valid.error);
    }
    var visionEnabled := BackupVision(reviewSupportsVision, args.forceVision);
    var reasoning := Config.BuildReasoningConfig(args.reasoningEffort, args.reasoningMaxTokens, args.reasoningExclude);
    r := Ok(BackupConfig(args.manimModel, args.reviewModel, args.reviewCycles, visionEnabled, reasoning, templates));
  }

  /**
   * Everything outside the script: the model's reply to a call (by the
   * number of steps recorded before it, the model, the messages and the
   * reasoning setting) and the image world of an execution.
   */
  datatype World = World(
    reply: (nat, string, seq<Prompt.Message>, Option<Llm.Reasoning>) -> Llm.Completion,
    images: nat -> LegacyCode.ImageWorld)

  /** Every reply's usage dictionary holds numbers where the tracker adds them up. */
  ghost predicate UsageNumeric(w: World)
  {
    forall call, model, messages, reasoning :: Usage.Numeric(w.reply(call, model, messages, reasoning).usage)
  }

  // ---------------------------------------------------------------------
  // The messages sent to the models
  // ---------------------------------------------------------------------

  function InitPrompt(c: BackupConfig, videoData: string): string
  {
    Prompt.ApplyReplacements(c.templates.init, [("video_data", videoData)])
  }

  function InitialMessages(c: BackupConfig, videoData: string): seq<Prompt.Message>
  {
    [Prompt.Message("system", Prompt.PlainText(InitPrompt(c, videoData)))]
  }

  /** The standard review prompt; this script has no success-rate gate. */
  function ReviewPrompt(c: BackupConfig, code: string, logs: string, previousReviews: seq<string>): string
  {
    Prompt.ApplyReplacements(c.templates.review,
                             [("previous_reviews", LegacyText.FormatPreviousReviews(previousReviews)),
                              ("video_code", code), ("execution_logs", logs)])
  }

  function ReviewImages(c: BackupConfig, frames: seq<string>): seq<Prompt.Part>
  {
    if frames != [] && c.visionEnabled then LegacyText.ConvertFramesToMessageFormat(frames) else []
  }

  function ReviewMessages(c: BackupConfig, code: string, logs: string, previousReviews: seq<string>,
                          frames: seq<string>): seq<Prompt.Message>
  {
    Workflow.ReviewRequest(ReviewPrompt(c, code, logs, previousReviews), ReviewImages(c, frames))
  }

  /** The focused revision request: the system prompt, then the script and the review. */
  function RevisionMessages(c: BackupConfig, code: string, review: string, videoData: string): seq<Prompt.Message>
  {
    [Prompt.Message("system", Prompt.PlainText(InitPrompt(c, videoData))),
     Prompt.Message("user", Prompt.PlainText(Workflow.RevisionPrompt(code, review)))]
  }

  // ---------------------------------------------------------------------
  // The cycle loop
  // ---------------------------------------------------------------------

  /** One review cycle, numbered `cycle + 1`: review, revision, execution. */
  function Cycle(c: BackupConfig, w: World, videoData: string, s: Workflow.Snapshot, cycle: nat): Workflow.Snapshot
  {
    var n := cycle + 1;
    var review := w.reply(|s.steps|, c.reviewModel, ReviewMessages(c, s.code, s.logs, s.reviews, s.frames), c.reasoning);
    var reviewed := s.steps + [Usage.StepRecord(Workflow.ReviewStep(n), c.reviewModel, review.usage)];
    var revision := w.reply(|reviewed|, c.manimModel, RevisionMessages(c, s.code, review.content, videoData), c.reasoning);
    var code := Parsing.ParseCodeBlock(revision.content);
    var revised := reviewed + [Usage.StepRecord(Workflow.RevisionStep(n), c.manimModel, revision.usage)];
    var report := LegacyCode.MultisceneReport(w.images(|revised|), code);
    Workflow.Snapshot(code, report.logs, report.frames, [],
                      if report.success then Some(code) else s.working,
                      s.reviews + [review.content], revised,
                      s.executions + 1, s.successes + (if report.success then 1 else 0))
  }

  function CycleStep(c: BackupConfig, w: World, videoData: string): (Workflow.Snapshot, nat) -> Workflow.Snapshot
  {
    (s: Workflow.Snapshot, cycle: nat) => Cycle(c, w, videoData, s, cycle)
  }

  ghost predicate IsCycleOf(step: (Workflow.Snapshot, nat) -> Workflow.Snapshot, c: BackupConfig, w: World,
                            videoData: string)
  {
    forall s: Workflow.Snapshot, cycle: nat {:trigger Cycle(c, w, videoData, s, cycle)} ::
      step(s, cycle) == Cycle(c, w, videoData, s, cycle)
  }

  /** `generate_initial_code`: one call to the code model with the system prompt, recorded as a step. */
  method GenerateInitialCode(c: BackupConfig, w: World, tracker: LegacyUsage.TokenUsageTracker, videoData: string)
    returns (code: string, mainMessages: seq<Prompt.Message>)
    requires tracker.Valid() && UsageNumeric(w)
    modifies tracker
    ensures tracker.Valid()
    ensures mainMessages == InitialMessages(c, videoData)
    ensures var reply := w.reply(|old(tracker.steps)|, c.manimModel, mainMessages, c.reasoning);
            code == Parsing.ParseCodeBlock(reply.content)
            && tracker.steps == old(tracker.steps) + [Usage.StepRecord(Workflow.InitialStep, c.manimModel, reply.usage)]
  {
    var prompt := Prompt.FormatPrompt(c.templates.init, [("video_data", videoData)]);
    mainMessages := [Prompt.Message("system", Prompt.PlainText(prompt))];
    var reply := w.reply(|tracker.steps|, c.manimModel, mainMessages, c.reasoning);
    tracker.AddStep(Workflow.InitialStep, c.manimModel, reply.usage);
    code := Parsing.ParseCodeBlock(reply.content);
  }

  /** The review half of a cycle: the standard prompt, the frames when vision is on, one call recorded. */
  method GenerateReview(c: BackupConfig, w: World, tracker: LegacyUsage.TokenUsageTracker, code: string, logs: string,
                        frames: seq<string>, previousReviews: seq<string>, cycleNum: nat)
    returns (review: string)
    requires tracker.Valid() && UsageNumeric(w)
    modifies tracker
    ensures tracker.Valid()
    ensures var reply := w.reply(|old(tracker.steps)|, c.reviewModel,
                                 ReviewMessages(c, code, logs, previousReviews, frames), c.reasoning);
            review == reply.content
            && tracker.steps == old(tracker.steps) + [Usage.StepRecord(Workflow.ReviewStep(cycleNum), c.reviewModel, reply.usage)]
  {
    var framesFormatted := if frames != [] && c.visionEnabled then LegacyText.ConvertFramesToMessageFormat(frames) else [];
    var reviewContent := Prompt.FormatPrompt(c.templates.review,
                                             [("previous_reviews", LegacyText.FormatPreviousReviews(previousReviews)),
                                              ("video_code", code), ("execution_logs", logs)]);
    var reviewMessage := [Prompt.Message("user", Prompt.Parts([Prompt.TextPart(reviewContent)] + framesFormatted))];
    var reply := w.reply(|tracker.steps|, c.reviewModel, reviewMessage, c.reasoning);
    tracker.AddStep(Workflow.ReviewStep(cycleNum), c.reviewModel, reply.usage);
    review := reply.content;
  }

  /** The revision half of a cycle: the focused request, one call recorded, the code block of the answer. */
  method GenerateRevision(c: BackupConfig, w: World, tracker: LegacyUsage.TokenUsageTracker, currentCode: string,
                          review: string, videoData: string, cycleNum: nat)
    returns (revisedCode: string)
    requires tracker.Valid() && UsageNumeric(w)
    modifies tracker
    ensures tracker.Valid()
    ensures var reply := w.reply(|old(tracker.steps)|, c.manimModel,
                                 RevisionMessages(c, currentCode, review, videoData), c.reasoning);
            revisedCode == Parsing.ParseCodeBlock(reply.content)
            && tracker.steps == old(tracker.steps) + [Usage.StepRecord(Workflow.RevisionStep(cycleNum), c.manimModel, reply.usage)]
  {
    var systemPrompt := Prompt.FormatPrompt(c.templates.init, [("video_data", videoData)]);
    var revisionMessages := [Prompt.Message("system", Prompt.PlainText(systemPrompt)),
                             Prompt.Message("user", Prompt.PlainText(Workflow.RevisionPrompt(currentCode, review)))];
    var reply := w.reply(|tracker.steps|, c.manimModel, revisionMessages, c.reasoning);
    tracker.AddStep(Workflow.RevisionStep(cycleNum), c.manimModel, reply.usage);
    revisedCode := Parsing.ParseCodeBlock(reply.content);
  }

  /** The body of the cycle loop: review, revise, run, and keep the revision only if it rendered. */
  method RunReviewCycle(ghost step: (Workflow.Snapshot, nat) -> Workflow.Snapshot, c: BackupConfig, w: World,
                        tracker: LegacyUsage.TokenUsageTracker, videoData: string, code: string, logs: string,
                        frames: seq<string>, working: Option<string>, previousReviews: seq<string>,
                        ghost executions: nat, ghost successes: nat, cycle: nat)
    returns (code': string, logs': string, frames': seq<string>, working': Option<string>, reviews': seq<string>,
             ghost executions': nat, ghost successes': nat)
    requires tracker.Valid() && UsageNumeric(w) && IsCycleOf(step, c, w, videoData)
    modifies tracker
    ensures tracker.Valid()
    ensures Workflow.Snapshot(code', logs', frames', [], working', reviews', tracker.steps, executions', successes')
            == step(Workflow.Snapshot(code, logs, frames, [], working, previousReviews, old(tracker.steps),
                                      executions, successes), cycle)
  {
    ghost var before := Workflow.Snapshot(code, logs, frames, [], working, previousReviews, tracker.steps,
                                          executions, successes);
    var review := GenerateReview(c, w, tracker, code, logs, frames, previousReviews, cycle + 1);
    ghost var reviewed := tracker.steps;
    reviews' := previousReviews + [review];
    code' := GenerateRevision(c, w, tracker, code, review, videoData, cycle + 1);
    var success;
    success, frames', logs' := LegacyCode.RunManimMultiscene(w.images(|tracker.steps|), code');
    ghost var report := LegacyCode.CodeReport(success, frames', logs');
    assert report == LegacyCode.MultisceneReport(w.images(|tracker.steps|), code');
    working' := if success then Some(code') else working;
    executions' := executions + 1;
    successes' := successes + (if success then 1 else 0);
    CycleUnfolds(step, c, w, videoData, before, cycle, review, reviewed, code', tracker.steps, report);
  }

  /**
   * `review_and_update_code`: the fold `Workflow.Cycles` of this script's
   * cycle over `review_cycles` cycles (none when it is not positive), from
   * the given script, logs and frames with no working code and no reviews.
   * The conversation passed in is not used.
   */
  method ReviewAndUpdateCode(ghost step: (Workflow.Snapshot, nat) -> Workflow.Snapshot, c: BackupConfig, w: World,
                             tracker: LegacyUsage.TokenUsageTracker, currentCode: string,
                             mainMessages: seq<Prompt.Message>, combinedLogs: string, lastFrames: seq<string>,
                             videoData: string)
    returns (finalCode: string, workingCode: Option<string>, finalLogs: string)
    requires tracker.Valid() && UsageNumeric(w) && IsCycleOf(step, c, w, videoData)
    modifies tracker
    ensures tracker.Valid()
    ensures var start := Workflow.Snapshot(currentCode, combinedLogs, lastFrames, [], None, [], old(tracker.steps), 0, 0);
            var end := Workflow.Cycles(step, start, Workflow.CycleCount(c.reviewCycles));
            finalCode == end.code && workingCode == end.working && finalLogs == end.logs && tracker.steps == end.steps
  {
    ghost var start := Workflow.Snapshot(currentCode, combinedLogs, lastFrames, [], None, [], tracker.steps, 0, 0);
    var code, logs, frames := currentCode, combinedLogs, lastFrames;
    workingCode := None;
    var previousReviews: seq<string> := [];
    ghost var executions: nat, successes: nat := 0, 0;
    var cycles := Workflow.CycleCount(c.reviewCycles);
    var cycle := 0;
    while cycle < cycles
      invariant 0 <= cycle <= cycles
      invariant tracker.Valid()
      invariant Workflow.Snapshot(code, logs, frames, [], workingCode, previousReviews, tracker.steps,
                                  executions, successes)
                == Workflow.Cycles(step, start, cycle)
    {
      ghost var before := Workflow.Cycles(step, start, cycle);
      code, logs, frames, workingCode, previousReviews, executions, successes :=
        RunReviewCycle(step, c, w, tracker, videoData, code, logs, frames, workingCode, previousReviews,
                       executions, successes, cycle);
      assert Workflow.Cycles(step, start, cycle + 1) == step(before, cycle);
      cycle := cycle + 1;
    }
    finalCode, finalLogs := code, logs;
  }

  // ---------------------------------------------------------------------
  // The whole run
  // ---------------------------------------------------------------------

  /** What the run ends with: the working code if any, the last script and its logs, the tracking dictionary. */
  datatype BackupResult = BackupResult(workingCode: Option<string>, finalCode: string, finalLogs: string,
                                       tracking: LegacyUsage.Tracking)

  function InitialReply(c: BackupConfig, w: World, videoData: string): Llm.Completion
  {
    w.reply(0, c.manimModel, InitialMessages(c, videoData), c.reasoning)
  }

  function InitialCode(c: BackupConfig, w: World, videoData: string): string
  {
    Parsing.ParseCodeBlock(InitialReply(c, w, videoData).content)
  }

  function InitialReport(c: BackupConfig, w: World, videoData: string): LegacyCode.CodeReport
  {
    LegacyCode.MultisceneReport(w.images(1), InitialCode(c, w, videoData))
  }

  function InitialState(c: BackupConfig, w: World, videoData: string): Workflow.Snapshot
  {
    var report := InitialReport(c, w, videoData);
    Workflow.Snapshot(InitialCode(c, w, videoData), report.logs, report.frames, [], None, [],
                      [Usage.StepRecord(Workflow.InitialStep, c.manimModel, InitialReply(c, w, videoData).usage)], 0, 0)
  }

  function FinalState(c: BackupConfig, w: World, videoData: string): Workflow.Snapshot
  {
    Workflow.Cycles(CycleStep(c, w, videoData), InitialState(c, w, videoData), Workflow.CycleCount(c.reviewCycles))
  }

  /** The initial script when it ran. */
  function InitialWorking(c: BackupConfig, w: World, videoData: string): Option<string>
  {
    if InitialReport(c, w, videoData).success then Some(InitialCode(c, w, videoData)) else None
  }

  /**
   * `main` from the parsed arguments on (the video description is given):
   * the exit status of a bad reasoning combination, or the run's result.
   */
  method RunBackup(args: Arguments, reviewSupportsVision: bool, templates: Workflow.Templates, w: World,
                   videoData: string) returns (r: Result<BackupResult, int>)
    requires UsageNumeric(w)
    ensures r.Err? <==> Config.EffortGiven(args.reasoningEffort) && Config.MaxTokensGiven(args.reasoningMaxTokens)
    ensures r.Err? ==> r.error == Config.ExitFailure
    ensures r.Ok? ==> exists c: BackupConfig ::
              && c.manimModel == args.manimModel && c.reviewModel == args.reviewModel
              && c.reviewCycles == args.reviewCycles && c.templates == templates
              && (c.visionEnabled <==> reviewSupportsVision || args.forceVision)
              && Config.IsReasoningOf(args.reasoningEffort, args.reasoningMaxTokens, args.reasoningExclude, c.reasoning)
              && var end := FinalState(c, w, videoData);
                 && r.value.workingCode == (if Pipeline.Truthy(end.working) then end.working else InitialWorking(c, w, videoData))
                 && r.value.finalCode == end.code && r.value.finalLogs == end.logs
                 && r.value.tracking.steps == end.steps && LegacyUsage.Tallied(r.value.tracking)
  {
    var parsed := ParseArguments(args, reviewSupportsVision, templates);
    if parsed.Err? {
      return Err(parsed.error);
    }
    var c := parsed.value;
    var tracker := new LegacyUsage.TokenUsageTracker();
    var currentCode, mainMessages := GenerateInitialCode(c, w, tracker, videoData);
    var success, lastFrames, combinedLogs := LegacyCode.RunManimMultiscene(w.images(|tracker.steps|), currentCode);
    var workingCode := if success then Some(currentCode) else None;
    assert Workflow.Snapshot(currentCode, combinedLogs, lastFrames, [], None, [], tracker.steps, 0, 0)
           == InitialState(c, w, videoData);
    ghost var step := CycleStep(c, w, videoData);
    CycleStepIsCycle(c, w, videoData);
    var newWorkingCode;
    currentCode, newWorkingCode, combinedLogs :=
      ReviewAndUpdateCode(step, c, w, tracker, currentCode, mainMessages, combinedLogs, lastFrames, videoData);
    workingCode := if Pipeline.Truthy(newWorkingCode) then newWorkingCode else workingCode;
    r := Ok(BackupResult(workingCode, currentCode, combinedLogs, tracker.GetTrackingData()));
  }

  // ---------------------------------------------------------------------
  // Properties
  // ---------------------------------------------------------------------

  /**
   * The configuration `RunBackup` runs under is the one the arguments
   * describe: any two configurations with its models, cycles, templates,
   * vision rule and reasoning dictionary are the same.
   */
  lemma RunConfigDetermined(args: Arguments, reviewSupportsVision: bool, templates: Workflow.Templates,
                            c: BackupConfig, d: BackupConfig)
    requires c.manimModel == d.manimModel == args.manimModel && c.reviewModel == d.reviewModel == args.reviewModel
    requires c.reviewCycles == d.reviewCycles == args.reviewCycles && c.templates == d.templates == templates
    requires (c.visionEnabled <==> reviewSupportsVision || args.forceVision)
             && (d.visionEnabled <==> reviewSupportsVision || args.forceVision)
    requires Config.IsReasoningOf(args.reasoningEffort, args.reasoningMaxTokens, args.reasoningExclude, c.reasoning)
             && Config.IsReasoningOf(args.reasoningEffort, args.reasoningMaxTokens, args.reasoningExclude, d.reasoning)
    ensures c == d
  {
    Config.ReasoningDetermined(args.reasoningEffort, args.reasoningMaxTokens, args.reasoningExclude,
                               c.reasoning, d.reasoning);
  }

  /** A cycle's result, given the review, the revision, the usage steps recorded by each call and the run's report. */
  lemma CycleUnfolds(step: (Workflow.Snapshot, nat) -> Workflow.Snapshot, c: BackupConfig, w: World,
                     videoData: string, s: Workflow.Snapshot, cycle: nat, review: string, reviewed: seq<Usage.Record>,
                     code: string, revised: seq<Usage.Record>, report: LegacyCode.CodeReport)
    requires IsCycleOf(step, c, w, videoData)
    requires var reply := w.reply(|s.steps|, c.reviewModel, ReviewMessages(c, s.code, s.logs, s.reviews, s.frames), c.reasoning);
             review == reply.content
             && reviewed == s.steps + [Usage.StepRecord(Workflow.ReviewStep(cycle + 1), c.reviewModel, reply.usage)]
    requires var reply := w.reply(|reviewed|, c.manimModel, RevisionMessages(c, s.code, review, videoData), c.reasoning);
             code == Parsing.ParseCodeBlock(reply.content)
             && revised == reviewed + [Usage.StepRecord(Workflow.RevisionStep(cycle + 1), c.manimModel, reply.usage)]
    requires report == LegacyCode.MultisceneReport(w.images(|revised|), code)
    ensures step(s, cycle)
            == Workflow.Snapshot(code, report.logs, report.frames, [],
                                 if report.success then Some(code) else s.working,
                                 s.reviews + [review], revised,
                                 s.executions + 1, s.successes + (if report.success then 1 else 0))
  {
    assert step(s, cycle) == Cycle(c, w, videoData, s, cycle);
  }

  lemma CycleStepIsCycle(c: BackupConfig, w: World, videoData: string)
    ensures IsCycleOf(CycleStep(c, w, videoData), c, w, videoData)
  {
  }

  /**
   * This script's cycle obeys the package's cycle laws: one review
   * appended, two usage steps, one execution, and the working code
   * replaced exactly when the revision rendered, kept otherwise.
   */
  lemma CycleObeysLaws(step: (Workflow.Snapshot, nat) -> Workflow.Snapshot, c: BackupConfig, w: World,
                       videoData: string)
    requires IsCycleOf(step, c, w, videoData)
    ensures Workflow.CycleLaws(step)
  {
    forall s: Workflow.Snapshot, cycle: nat
      ensures |step(s, cycle).reviews| == |s.reviews| + 1
      ensures step(s, cycle).reviews[..|s.reviews|] == s.reviews
      ensures |step(s, cycle).steps| == |s.steps| + 2
      ensures step(s, cycle).executions == s.executions + 1
      ensures step(s, cycle).successes == s.successes + 1 || step(s, cycle).successes == s.successes
      ensures step(s, cycle).successes == s.successes + 1 ==> step(s, cycle).working == Some(step(s, cycle).code)
      ensures step(s, cycle).successes == s.successes ==> step(s, cycle).working == s.working
    {
      var next := Cycle(c, w, videoData, s, cycle);
      assert step(s, cycle) == next;
      assert next.reviews[..|s.reviews|] == s.reviews;
    }
  }

  /**
   * The whole run records the first script's step and two steps per cycle,
   * and after the loop the working code is absent exactly when no revision
   * rendered, otherwise the latest revision that did: a failed later cycle
   * does not erase an earlier success.
   */
  lemma RunResults(c: BackupConfig, w: World, videoData: string)
    ensures var step := CycleStep(c, w, videoData);
            var start := InitialState(c, w, videoData);
            var n := Workflow.CycleCount(c.reviewCycles);
            var end := FinalState(c, w, videoData);
            && |end.steps| == 1 + 2 * n
            && |end.reviews| == n
            && (end.working.None? <==> forall j :: 0 <= j < n ==> !Workflow.RevisionSucceeded(step, start, j))
            && (end.working.Some? ==>
                  exists j :: 0 <= j < n && Workflow.RevisionSucceeded(step, start, j)
                              && end.working.value == Workflow.Cycles(step, start, j + 1).code
                              && forall i :: j < i < n ==> !Workflow.RevisionSucceeded(step, start, i))
  {
    var step := CycleStep(c, w, videoData);
    var start := InitialState(c, w, videoData);
    CycleStepIsCycle(c, w, videoData);
    CycleObeysLaws(step, c, w, videoData);
    Workflow.CyclesCounts(step, start, Workflow.CycleCount(c.reviewCycles));
    Workflow.WorkingIsLatestSuccess(step, start, Workflow.CycleCount(c.reviewCycles));
  }

  /**
   * The run's working code: the initial script's when no revision rendered,
   * and the latest successful revision when it is a non-empty script.
   */
  lemma WorkingCodeCombination(c: BackupConfig, w: World, videoData: string)
    ensures var step := CycleStep(c, w, videoData);
            var start := InitialState(c, w, videoData);
            var n := Workflow.CycleCount(c.reviewCycles);
            var fromLoop := FinalState(c, w, videoData).working;
            var working := if Pipeline.Truthy(fromLoop) then fromLoop else InitialWorking(c, w, videoData);
            && ((forall j :: 0 <= j < n ==> !Workflow.RevisionSucceeded(step, start, j)) ==> working == InitialWorking(c, w, videoData))
            && (forall j :: 0 <= j < n && Workflow.RevisionSucceeded(step, start, j)
                             && Workflow.Cycles(step, start, j + 1).code != []
                             && (forall i :: j < i < n ==> !Workflow.RevisionSucceeded(step, start, i)) ==>
                  working == Some(Workflow.Cycles(step, start, j + 1).code))
  {
    var step := CycleStep(c, w, videoData);
    CycleStepIsCycle(c, w, videoData);
    CycleObeysLaws(step, c, w, videoData);
    var fromLoop := FinalState(c, w, videoData).working;
    Pipeline.LoopWorkingRule(step, InitialState(c, w, videoData), Workflow.CycleCount(c.reviewCycles),
                             InitialWorking(c, w, videoData),
                             if Pipeline.Truthy(fromLoop) then fromLoop else InitialWorking(c, w, videoData));
  }

  /**
   * The review request is one user message: the prompt, then one bare
   * `image_url` item per frame when there are frames and vision is on. The
   * revision request is the system prompt and the review of the current
   * script only, whatever the conversation holds.
   */
  lemma RequestShapes(c: BackupConfig, code: string, logs: string, previousReviews: seq<string>, frames: seq<string>,
                      review: string, videoData: string)
    ensures var m := ReviewMessages(c, code, logs, previousReviews, frames);
            && |m| == 1 && m[0].role == "user" && m[0].content.Parts?
            && m[0].content.parts[0] == Prompt.TextPart(ReviewPrompt(c, code, logs, previousReviews))
            && (frames != [] && c.visionEnabled ==>
                  |m[0].content.parts| == 1 + |frames|
                  && forall k :: 0 <= k < |frames| ==> m[0].content.parts[1 + k] == Prompt.BareImagePart(frames[k]))
            && (frames == [] || !c.visionEnabled ==> |m[0].content.parts| == 1)
    ensures var m := RevisionMessages(c, code, review, videoData);
            && |m| == 2 && m[0].role == "system" && m[1].role == "user"
            && m[0].content == Prompt.PlainText(InitPrompt(c, videoData))
            && m[1].content == Prompt.PlainText(Workflow.RevisionPrompt(code, review))
  {
    var prompt := ReviewPrompt(c, code, logs, previousReviews);
    var images := ReviewImages(c, frames);
    var parts := [Prompt.TextPart(prompt)] + images;
    assert Workflow.ReviewRequest(prompt, images) == [Prompt.Message("user", Prompt.Parts(parts))];
    if frames != [] && c.visionEnabled {
      forall k | 0 <= k < |frames| ensures parts[1 + k] == Prompt.BareImagePart(frames[k]) {
        assert parts[1 + k] == images[k];
      }
    }
  }

  /**
   * Vision here needs only the review model's support: whenever the
   * package's rule turns vision on this one does, and a review model with
   * vision behind a code model without it is where they differ.
   */
  lemma VisionWiderThanPackage(mainSupportsVision: bool, reviewSupportsVision: bool, forceVision: bool)
    ensures Config.VisionEnabled(mainSupportsVision, reviewSupportsVision, forceVision)
            ==> BackupVision(reviewSupportsVision, forceVision)
    ensures BackupVision(true, false) && !Config.VisionEnabled(false, true, false)
  {
  }
}
