/**
 * The first script of the project (`manim_generator.py`): a fixed
 * configuration, one conversation with the code model that grows in place
 * by a feedback message and the model's answer per cycle, a review request
 * sent with the `system` role, and a working code that each cycle resets,
 * so a failed revision erases an earlier success.
 *
 * The model answers with bare text here. Replies and render results are
 * inputs indexed by the number of model calls made before them; `calls`
 * carries that number through the methods.
 */
module LegacyGenerator {
  import opened Wrappers
  import Parsing
  import Prompt
  import LegacyCode
  import LegacyText
  import Workflow
  import Pipeline

  /** The settings `CONFIG` fixes and the prompt files read by name. */
  datatype GeneratorConfig = GeneratorConfig(manimModel: string, reviewModel: string, reviewCycles: int,
                                             templates: Workflow.Templates)

  const DefaultModel := "openrouter/openai/o3-mini"
  const DefaultReviewCycles := 3

  /** `CONFIG` with the given prompt files. */
  function DefaultConfig(templates: Workflow.Templates): (c: GeneratorConfig)
    ensures c.reviewCycles == 3 && c.manimModel == c.reviewModel == DefaultModel
  {
    GeneratorConfig(DefaultModel, DefaultModel, DefaultReviewCycles, templates)
  }

  /**
   * Everything outside the script: the text of the model's reply to a call,
   * the image world of an execution, and litellm's `supports_vision`.
   */
  datatype World = World(
    reply: (nat, string, seq<Prompt.Message>) -> string,
    images: nat -> LegacyCode.ImageWorld,
    supportsVision: string -> bool)

  function InitialMessages(c: GeneratorConfig, videoData: string): seq<Prompt.Message>
  {
    [Prompt.Message("system", Prompt.PlainText(Prompt.ApplyReplacements(c.templates.init, [("video_data", videoData)])))]
  }

  const FeedbackIntro := "Here is some feedback on your code. \n\n"
  const FeedbackOpen := "<review"
  const FeedbackClose := "</review>"
  const FeedbackRequest := "\n\nPlease implement the suggestions and respond with the whole script."

  /** The feedback appended to the conversation: the review follows `<review` with no `>`. */
  function FeedbackText(review: string): string
  {
    FeedbackIntro + FeedbackOpen + review + FeedbackClose + FeedbackRequest
  }

  function ReviewPrompt(c: GeneratorConfig, code: string, logs: string, previousReviews: seq<string>): string
  {
    Prompt.ApplyReplacements(c.templates.review,
                             [("previous_reviews", LegacyText.FormatPreviousReviews(previousReviews)),
                              ("video_code", code), ("execution_logs", logs)])
  }

  /** The review request: one `system` message, the prompt, then the frames when there are some and vision is on. */
  function ReviewMessage(c: GeneratorConfig, vision: bool, code: string, logs: string, previousReviews: seq<string>,
                         frames: seq<string>): seq<Prompt.Message>
  {
    var images := if frames != [] && vision then LegacyText.ConvertFramesToMessageFormat(frames) else [];
    [Prompt.Message("system", Prompt.Parts([Prompt.TextPart(ReviewPrompt(c, code, logs, previousReviews))] + images))]
  }

  /** The loop state: the latest script and its results, the working code, the reviews, the conversation, the calls made. */
  datatype GenState = GenState(code: string, logs: string, frames: seq<string>, working: Option<string>,
                               reviews: seq<string>, messages: seq<Prompt.Message>, calls: nat)

  function FeedbackMessage(review: string): Prompt.Message
  {
    Prompt.Message("user", Prompt.PlainText(FeedbackText(review)))
  }

  /** What a cycle leaves once the revision is known: the revised script, its run, the grown conversation. */
  function AfterRevision(w: World, s: GenState, review: string, revised: string): GenState
  {
    var code := Parsing.ParseCodeBlock(revised);
    var report := LegacyCode.MultisceneReport(w.images(s.calls + 2), code);
    GenState(code, report.logs, report.frames, if report.success then Some(code) else None,
             s.reviews + [review], s.messages + [FeedbackMessage(review), Prompt.Message("assistant", Prompt.PlainText(revised))],
             s.calls + 2)
  }

  /** One review cycle. */
  function Cycle(c: GeneratorConfig, w: World, s: GenState): GenState
  {
    var review := w.reply(s.calls, c.reviewModel,
                          ReviewMessage(c, w.supportsVision(c.reviewModel), s.code, s.logs, s.reviews, s.frames));
    var revised := w.reply(s.calls + 1, c.manimModel, s.messages + [FeedbackMessage(review)]);
    AfterRevision(w, s, review, revised)
  }

  function CycleStep(c: GeneratorConfig, w: World): GenState -> GenState
  {
    (s: GenState) => Cycle(c, w, s)
  }

  /** `step` is the review cycle of this configuration and world. */
  ghost predicate IsCycleOf(step: GenState -> GenState, c: GeneratorConfig, w: World)
  {
    forall s: GenState {:trigger Cycle(c, w, s)} :: step(s) == Cycle(c, w, s)
  }

  /** The state after `k` cycles of `step`. */
  function Run(step: GenState -> GenState, s: GenState, k: nat): GenState
  {
    if k == 0 then s else step(Run(step, s, k - 1))
  }

  /** What a cycle does to the conversation, the reviews and the calls whatever the models answer. */
  ghost predicate CycleLaws(step: GenState -> GenState)
  {
    forall s: GenState {:trigger step(s)} ::
      && |step(s).messages| == |s.messages| + 2
      && step(s).messages[..|s.messages|] == s.messages
      && step(s).messages[|s.messages|].role == "user" && step(s).messages[|s.messages| + 1].role == "assistant"
      && |step(s).reviews| == |s.reviews| + 1 && step(s).calls == s.calls + 2
  }

  /** The conversation with the code model, which `review_and_update_code` extends in place. */
  class Conversation {
    var messages: seq<Prompt.Message>

    constructor (messages: seq<Prompt.Message>)
      ensures this.messages == messages
    {
      this.messages := messages;
    }
  }

  /** `generate_initial_code`: the first model call, on a new conversation holding the system prompt. */
  method GenerateInitialCode(c: GeneratorConfig, w: World, videoData: string)
    returns (code: string, conversation: Conversation)
    ensures fresh(conversation) && conversation.messages == InitialMessages(c, videoData)
    ensures code == Parsing.ParseCodeBlock(w.reply(0, c.manimModel, InitialMessages(c, videoData)))
  {
    var prompt := Prompt.FormatPrompt(c.templates.init, [("video_data", videoData)]);
    conversation := new Conversation([Prompt.Message("system", Prompt.PlainText(prompt))]);
    var response := w.reply(0, c.manimModel, conversation.messages);
    code := Parsing.ParseCodeBlock(response);
  }

  /** The review call of a cycle: the standard prompt, with the frames when there are some and vision is on. */
  method RequestReview(c: GeneratorConfig, w: World, vision: bool, code: string, logs: string, frames: seq<string>,
                       previousReviews: seq<string>, calls: nat) returns (review: string)
    ensures review == w.reply(calls, c.reviewModel, ReviewMessage(c, vision, code, logs, previousReviews, frames))
  {
    var reviewContent := Prompt.FormatPrompt(c.templates.review,
                                             [("previous_reviews", LegacyText.FormatPreviousReviews(previousReviews)),
                                              ("video_code", code), ("execution_logs", logs)]);
    var images := if frames != [] && vision then LegacyText.ConvertFramesToMessageFormat(frames) else [];
    var reviewMessage := [Prompt.Message("system", Prompt.Parts([Prompt.TextPart(reviewContent)] + images))];
    review := w.reply(calls, c.reviewModel, reviewMessage);
  }

  /** The body of the cycle loop, with the conversation extended in place. */
  method RunReviewCycle(ghost step: GenState -> GenState, c: GeneratorConfig, w: World, vision: bool,
                        conversation: Conversation, code: string, logs: string, frames: seq<string>,
                        previousReviews: seq<string>, calls: nat)
    returns (code': string, logs': string, frames': seq<string>, working': Option<string>,
             reviews': seq<string>, calls': nat)
    requires IsCycleOf(step, c, w) && vision == w.supportsVision(c.reviewModel)
    modifies conversation
    ensures GenState(code', logs', frames', working', reviews', conversation.messages, calls')
            == step(GenState(code, logs, frames, None, previousReviews, old(conversation.messages), calls))
  {
    ghost var s := GenState(code, logs, frames, None, previousReviews, conversation.messages, calls);
    var review := RequestReview(c, w, vision, code, logs, frames, previousReviews, calls);
    reviews' := previousReviews + [review];
    conversation.messages := conversation.messages + [FeedbackMessage(review)];
    var revisedResponse := w.reply(calls + 1, c.manimModel, conversation.messages);
    conversation.messages := conversation.messages + [Prompt.Message("assistant", Prompt.PlainText(revisedResponse))];
    code' := Parsing.ParseCodeBlock(revisedResponse);
    var success;
    success, frames', logs' := LegacyCode.RunManimMultiscene(w.images(calls + 2), code');
    working' := if success then Some(code') else None;
    calls' := calls + 2;
    ghost var report := LegacyCode.CodeReport(success, frames', logs');
    assert report == LegacyCode.MultisceneReport(w.images(calls + 2), code');
    CycleUnfolds(step, c, w, s, review, revisedResponse, report);
  }

  /**
   * `review_and_update_code`: `Run` over `CONFIG["review_cycles"]` cycles
   * (none when it is not positive) from the given script, logs, frames and
   * conversation, with no working code and no reviews yet.
   */
  method ReviewAndUpdateCode(ghost step: GenState -> GenState, c: GeneratorConfig, w: World, currentCode: string,
                             conversation: Conversation, combinedLogs: string, lastFrames: seq<string>, calls: nat)
    returns (finalCode: string, workingCode: Option<string>, finalLogs: string, calls': nat)
    requires IsCycleOf(step, c, w)
    modifies conversation
    ensures var end := Run(step, GenState(currentCode, combinedLogs, lastFrames, None, [], old(conversation.messages), calls),
                           Workflow.CycleCount(c.reviewCycles));
            finalCode == end.code && workingCode == end.working && finalLogs == end.logs
            && conversation.messages == end.messages && calls' == end.calls
  {
    ghost var start := GenState(currentCode, combinedLogs, lastFrames, None, [], conversation.messages, calls);
    var code, logs, frames := currentCode, combinedLogs, lastFrames;
    workingCode := None;
    var previousReviews: seq<string> := [];
    calls' := calls;
    var vision := w.supportsVision(c.reviewModel);
    var cycles := Workflow.CycleCount(c.reviewCycles);
    for cycle := 0 to cycles
      invariant GenState(code, logs, frames, workingCode, previousReviews, conversation.messages, calls')
                == Run(step, start, cycle)
    {
      CycleIgnoresWorking(step, c, w, Run(step, start, cycle));
      code, logs, frames, workingCode, previousReviews, calls' :=
        RunReviewCycle(step, c, w, vision, conversation, code, logs, frames, previousReviews, calls');
    }
    finalCode, finalLogs := code, logs;
  }

  // ---------------------------------------------------------------------
  // The whole run
  // ---------------------------------------------------------------------

  /** What `main` prints as the result: the working code if any, the last script and its logs. */
  datatype GeneratorResult = GeneratorResult(workingCode: Option<string>, finalCode: string, finalLogs: string)

  function InitialCode(c: GeneratorConfig, w: World, videoData: string): string
  {
    Parsing.ParseCodeBlock(w.reply(0, c.manimModel, InitialMessages(c, videoData)))
  }

  function InitialReport(c: GeneratorConfig, w: World, videoData: string): LegacyCode.CodeReport
  {
    LegacyCode.MultisceneReport(w.images(1), InitialCode(c, w, videoData))
  }

  function InitialState(c: GeneratorConfig, w: World, videoData: string): GenState
  {
    var report := InitialReport(c, w, videoData);
    GenState(InitialCode(c, w, videoData), report.logs, report.frames, None, [], InitialMessages(c, videoData), 1)
  }

  function FinalState(c: GeneratorConfig, w: World, videoData: string): GenState
  {
    Run(CycleStep(c, w), InitialState(c, w, videoData), Workflow.CycleCount(c.reviewCycles))
  }

  /** The loop's working code when it is a non-empty script, otherwise the initial script if it ran. */
  function MainResult(c: GeneratorConfig, w: World, videoData: string): GeneratorResult
  {
    var end := FinalState(c, w, videoData);
    var initialWorking := if InitialReport(c, w, videoData).success then Some(InitialCode(c, w, videoData)) else None;
    GeneratorResult(if Pipeline.Truthy(end.working) then end.working else initialWorking, end.code, end.logs)
  }

  /** `main`, from the loaded video description on. */
  method RunGenerator(c: GeneratorConfig, w: World, videoData: string) returns (result: GeneratorResult)
    ensures result == MainResult(c, w, videoData)
  {
    var currentCode, mainMessages := GenerateInitialCode(c, w, videoData);
    var success, lastFrames, combinedLogs := LegacyCode.RunManimMultiscene(w.images(1), currentCode);
    var workingCode := if success then Some(currentCode) else None;
    ghost var step := CycleStep(c, w);
    CycleStepIsCycle(c, w);
    var newWorkingCode, callsMade;
    currentCode, newWorkingCode, combinedLogs, callsMade :=
      ReviewAndUpdateCode(step, c, w, currentCode, mainMessages, combinedLogs, lastFrames, 1);
    workingCode := if Pipeline.Truthy(newWorkingCode) then newWorkingCode else workingCode;
    result := GeneratorResult(workingCode, currentCode, combinedLogs);
  }

  // ---------------------------------------------------------------------
  // Properties
  // ---------------------------------------------------------------------

  /** A cycle's result, once the review and the revised answer are known. */
  lemma CycleUnfolds(step: GenState -> GenState, c: GeneratorConfig, w: World, s: GenState, review: string, revised: string,
                     report: LegacyCode.CodeReport)
    requires IsCycleOf(step, c, w)
    requires review == w.reply(s.calls, c.reviewModel,
                               ReviewMessage(c, w.supportsVision(c.reviewModel), s.code, s.logs, s.reviews, s.frames))
    requires revised == w.reply(s.calls + 1, c.manimModel, s.messages + [FeedbackMessage(review)])
    requires report == LegacyCode.MultisceneReport(w.images(s.calls + 2), Parsing.ParseCodeBlock(revised))
    ensures var code := Parsing.ParseCodeBlock(revised);
            step(s) == GenState(code, report.logs, report.frames, if report.success then Some(code) else None,
                                s.reviews + [review],
                                s.messages + [FeedbackMessage(review), Prompt.Message("assistant", Prompt.PlainText(revised))],
                                s.calls + 2)
  {
    assert step(s) == Cycle(c, w, s);
  }

  lemma CycleStepIsCycle(c: GeneratorConfig, w: World)
    ensures IsCycleOf(CycleStep(c, w), c, w)
  {
  }

  /** A cycle does not look at the working code it is given. */
  lemma CycleIgnoresWorking(step: GenState -> GenState, c: GeneratorConfig, w: World, s: GenState)
    requires IsCycleOf(step, c, w)
    ensures step(s.(working := None)) == step(s)
  {
    var t := s.(working := None);
    assert step(s) == Cycle(c, w, s);
    assert step(t) == Cycle(c, w, t);
    CycleReadsNoWorking(c, w, s, t);
  }

  lemma CycleReadsNoWorking(c: GeneratorConfig, w: World, s: GenState, t: GenState)
    requires t == s.(working := None)
    ensures Cycle(c, w, t) == Cycle(c, w, s)
  {
    assert t.code == s.code && t.logs == s.logs && t.reviews == s.reviews && t.frames == s.frames;
    assert t.messages == s.messages && t.calls == s.calls;
    var review := w.reply(s.calls, c.reviewModel,
                          ReviewMessage(c, w.supportsVision(c.reviewModel), s.code, s.logs, s.reviews, s.frames));
    var revised := w.reply(s.calls + 1, c.manimModel, s.messages + [FeedbackMessage(review)]);
    assert Cycle(c, w, s) == AfterRevision(w, s, review, revised);
    assert Cycle(c, w, t) == AfterRevision(w, t, review, revised);
  }

  /** This script's cycle obeys the cycle laws. */
  lemma CycleObeysLaws(step: GenState -> GenState, c: GeneratorConfig, w: World)
    requires IsCycleOf(step, c, w)
    ensures CycleLaws(step)
  {
    forall s: GenState
      ensures |step(s).messages| == |s.messages| + 2
      ensures step(s).messages[..|s.messages|] == s.messages
      ensures step(s).messages[|s.messages|].role == "user" && step(s).messages[|s.messages| + 1].role == "assistant"
      ensures |step(s).reviews| == |s.reviews| + 1 && step(s).calls == s.calls + 2
    {
      var review := w.reply(s.calls, c.reviewModel,
                            ReviewMessage(c, w.supportsVision(c.reviewModel), s.code, s.logs, s.reviews, s.frames));
      var revised := w.reply(s.calls + 1, c.manimModel, s.messages + [FeedbackMessage(review)]);
      CycleUnfolds(step, c, w, s, review, revised,
                   LegacyCode.MultisceneReport(w.images(s.calls + 2), Parsing.ParseCodeBlock(revised)));
      assert (s.messages + [FeedbackMessage(review), Prompt.Message("assistant", Prompt.PlainText(revised))])[..|s.messages|]
             == s.messages;
    }
  }

  /**
   * The conversation only grows: after `k` cycles it holds the earlier
   * messages followed by a user feedback message and the model's answer
   * per cycle; the reviews grow by one per cycle and two calls are made per
   * cycle.
   */
  lemma {:induction false} ConversationGrows(step: GenState -> GenState, s: GenState, k: nat)
    requires CycleLaws(step)
    ensures var end := Run(step, s, k);
            && |end.messages| == |s.messages| + 2 * k
            && end.messages[..|s.messages|] == s.messages
            && (forall j :: 0 <= j < k ==>
                  end.messages[|s.messages| + 2 * j].role == "user"
                  && end.messages[|s.messages| + 2 * j + 1].role == "assistant")
            && |end.reviews| == |s.reviews| + k
            && end.calls == s.calls + 2 * k
  {
    if k > 0 {
      ConversationGrows(step, s, k - 1);
      var prev := Run(step, s, k - 1);
      var end := Run(step, s, k);
      assert end == step(prev);
      assert end.messages[..|prev.messages|] == prev.messages;
      assert end.messages[..|s.messages|] == prev.messages[..|s.messages|];
      forall j | 0 <= j < k
        ensures end.messages[|s.messages| + 2 * j].role == "user"
        ensures end.messages[|s.messages| + 2 * j + 1].role == "assistant"
      {
        if j < k - 1 {
          assert end.messages[|s.messages| + 2 * j] == prev.messages[|s.messages| + 2 * j];
          assert end.messages[|s.messages| + 2 * j + 1] == prev.messages[|s.messages| + 2 * j + 1];
        }
      }
    }
  }

  /** The whole run's conversation: the system prompt, then two messages per cycle. */
  lemma RunConversationLength(c: GeneratorConfig, w: World, videoData: string)
    ensures |FinalState(c, w, videoData).messages| == 1 + 2 * Workflow.CycleCount(c.reviewCycles)
  {
    CycleStepIsCycle(c, w);
    CycleObeysLaws(CycleStep(c, w), c, w);
    ConversationGrows(CycleStep(c, w), InitialState(c, w, videoData), Workflow.CycleCount(c.reviewCycles));
  }

  /**
   * Each cycle resets the working code: after at least one cycle it is the
   * last revision exactly when that revision rendered, and nothing
   * otherwise, whatever the earlier cycles did, so a failed later cycle
   * erases an earlier success (the package's loop keeps it).
   */
  lemma WorkingIsLastOnly(step: GenState -> GenState, c: GeneratorConfig, w: World, s: GenState, k: nat)
    requires IsCycleOf(step, c, w) && k > 0
    ensures var end := Run(step, s, k);
            var prev := Run(step, s, k - 1);
            && (end.working.Some? <==> LegacyCode.MultisceneReport(w.images(prev.calls + 2), end.code).success)
            && (end.working.Some? ==> end.working.value == end.code)
  {
    var prev := Run(step, s, k - 1);
    var review := w.reply(prev.calls, c.reviewModel,
                          ReviewMessage(c, w.supportsVision(c.reviewModel), prev.code, prev.logs, prev.reviews, prev.frames));
    var revised := w.reply(prev.calls + 1, c.manimModel, prev.messages + [FeedbackMessage(review)]);
    CycleUnfolds(step, c, w, prev, review, revised,
                 LegacyCode.MultisceneReport(w.images(prev.calls + 2), Parsing.ParseCodeBlock(revised)));
  }

  /** The feedback's opening tag is `<review>` only when the review itself starts with `>`. */
  lemma MalformedReviewTag(review: string)
    ensures var text := FeedbackText(review);
            var at := |FeedbackIntro|;
            && |text| >= at + 8
            && (text[at..at + 8] == "<review>" <==> review != [] && review[0] == '>')
            && text[..at] == FeedbackIntro && text[at..at + 7] == FeedbackOpen
  {
    var text := FeedbackText(review);
    var at := |FeedbackIntro|;
    assert text == FeedbackIntro + FeedbackOpen + (review + FeedbackClose + FeedbackRequest);
    assert text[at..at + 8] == FeedbackOpen + [text[at + 7]];
    if review == [] {
      assert text[at + 7] == FeedbackClose[0] == '<';
    } else {
      assert text[at + 7] == review[0];
    }
  }

  /**
   * The review request is one `system` message whose parts are the prompt
   * followed by one bare `image_url` item per frame when there are frames
   * and the review model supports vision, and the prompt alone otherwise.
   */
  lemma ReviewRequestShape(c: GeneratorConfig, vision: bool, code: string, logs: string, previousReviews: seq<string>,
                           frames: seq<string>)
    ensures var m := ReviewMessage(c, vision, code, logs, previousReviews, frames);
            && |m| == 1 && m[0].role == "system" && m[0].content.Parts?
            && m[0].content.parts[0] == Prompt.TextPart(ReviewPrompt(c, code, logs, previousReviews))
            && (frames != [] && vision ==>
                  |m[0].content.parts| == 1 + |frames|
                  && forall k :: 0 <= k < |frames| ==> m[0].content.parts[1 + k] == Prompt.BareImagePart(frames[k]))
            && (frames == [] || !vision ==> |m[0].content.parts| == 1)
  {
    var images := if frames != [] && vision then LegacyText.ConvertFramesToMessageFormat(frames) else [];
    var parts := [Prompt.TextPart(ReviewPrompt(c, code, logs, previousReviews))] + images;
    if frames != [] && vision {
      forall k | 0 <= k < |frames| ensures parts[1 + k] == Prompt.BareImagePart(frames[k]) {
        assert parts[1 + k] == images[k];
      }
    }
  }

  /**
   * The result's working code: the loop's when it is a non-empty script,
   * otherwise the initial script when it ran. With at least one cycle the
   * loop's is the last revision's, so a failed last revision falls back to
   * the initial script even after an earlier revision succeeded.
   */
  lemma WorkingCodeCombination(c: GeneratorConfig, w: World, videoData: string)
    ensures var end := FinalState(c, w, videoData);
            var initialWorking := if InitialReport(c, w, videoData).success then Some(InitialCode(c, w, videoData)) else None;
            var result := MainResult(c, w, videoData);
            && (Pipeline.Truthy(end.working) ==> result.workingCode == end.working)
            && (!Pipeline.Truthy(end.working) ==> result.workingCode == initialWorking)
            && (c.reviewCycles > 0 && end.working.None? ==> result.workingCode == initialWorking)
            && (c.reviewCycles <= 0 ==> result.workingCode == initialWorking && result.finalCode == InitialCode(c, w, videoData))
  {
  }
}
