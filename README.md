# manim-generator, modelled in Dafny

manim-generator writes Manim animation scripts with a language model:

1. A "manim model" writes a first script for a video description.
2. Each `Scene` class of the script is rendered.
3. A "review model" reads the render logs, and optionally a few frames sampled from the videos, then writes a review.
4. The manim model revises the script from that review.
5. The revision is rendered again, and steps 3 to 5 repeat for the configured number of review cycles.
6. The run ends with the last script that rendered.

Along the way the program records the token usage and cost of every model call. It can show a headless progress bar.

This project models the program's core and proves properties of it:

- the extraction of the code block from a reply;
- prompt formatting;
- configuration parsing and validation;
- the usage tracker;
- the model-call wrapper with its retry rules;
- the multi-scene rendering runner and frame sampling;
- the progress manager;
- the review/revision loop and the entry point.

It covers the current package (`src/manim_generator/`), the older `src/` layout, and the top-level legacy scripts (`manim_workflow.py`, `manim_generator.py`, `manim_generator_backup.py` and the `utils/` helpers).

## How the model is built

- **The outside world is an input.** Each orchestrating operation takes a `Workflow.World` value. It records what the program cannot decide itself:
  - the reply of the n-th model call, as a function of the call index, the model and the messages;
  - how Python parses a script;
  - the outcome of rendering each scene at each execution;
  - the frames of a video;
  - the text Python prints for a float.

  The n-th model call of a run is the world's reply number n. The k-th execution sees the world's k-th render outcome. So the model is deterministic, while every reply and render result stays arbitrary.
- **The review loop is a fold.** `Workflow.Cycles(step, start, k)` applies one review cycle k times to a `Workflow.Snapshot`. A snapshot holds the current code, logs, frames, working code, usage steps and execution tallies.
  - Every orchestrator (the package's `ManimWorkflow`, the `src/` layout's `ManimWorkflow`, the legacy scripts' loops) is a class or method with a loop. Each is proved to produce exactly the fold of its own cycle step.
  - Each cycle step is proved to obey `Workflow.CycleLaws`. The laws say what one cycle adds: two usage steps, one execution, and a success exactly when the revision rendered.
  - The generic fold lemmas, such as counts and working-code rules, then hold for every layout.
- **Objects with state are classes.** The usage trackers, the progress manager and the workflows are classes, with `modifies` frames on their methods. Their fields are `seq` and `map` values that the methods reassign.
- **Pure helpers are functions.** Parsing, prompt formatting, configuration and frame sampling are functions with lemmas about them.

| file | module | models |
|---|---|---|
| wrappers.dfy | Wrappers | Option and Result |
| strings.dfy | Strings | Python's `strip`, `split`, `startswith`, `in` and `replace` |
| parsing.dfy | Parsing | `src/manim_generator/utils/parsing.py` |
| prompt.dfy | Prompt | `src/manim_generator/utils/prompt.py` |
| config.dfy | Config | `src/manim_generator/utils/config.py` |
| usage.dfy | Usage | `src/manim_generator/utils/usage.py` |
| llm.dfy | Llm | `src/manim_generator/utils/llm.py` |
| frames.dfy | Frames | frame sampling in `src/manim_generator/utils/rendering.py` |
| rendering.dfy | Rendering | `src/manim_generator/utils/rendering.py` |
| console.dfy | Console | `src/manim_generator/console.py` |
| workflow.dfy | Workflow | `src/manim_generator/workflow.py` |
| main.dfy | Pipeline | `src/manim_generator/main.py` |
| legacy_text.dfy | LegacyText | `utils/text.py` |
| legacy_llm.dfy | LegacyLlm | `utils/llm.py` |
| legacy_usage.dfy | LegacyUsage | `utils/usage.py` |
| legacy_code.dfy | LegacyCode | `utils/code.py` |
| legacy_rendering.dfy | LegacyRendering | `src/utils/rendering.py` |
| legacy_workflow.dfy | LegacyWorkflow | `src/workflow.py` |
| legacy_main.dfy | LegacyMain | `src/main.py` |
| legacy_manim_workflow.dfy | LegacyManimWorkflow | `manim_workflow.py` |
| legacy_generator.dfy | LegacyGenerator | `manim_generator.py` |
| legacy_backup.dfy | LegacyBackup | `manim_generator_backup.py` |

### Where the code and its documentation differ

The model follows the code in each of these cases:

- `parse_code_block` (`src/manim_generator/utils/parsing.py:22`) returns the reply unchanged when it has no fenced block. Its docstring says it returns `None`.
- `src/utils/rendering.py` builds the log text only outside headless mode. However, `src/main.py` never hands the workflow a progress manager, so from `main` the runner always logs (`LegacyMain.RendersHeadless`). It samples frames from every scene it discovered, the failed ones too.
- In `src/workflow.py` the initial run is named "Initial" and is not counted as an execution. In the package it is counted, so the `src/` layout always reports one execution fewer (`LegacyMain.OneExecutionFewerThanPackage`).
- Several legacy helpers are the package's code under another name, and share its model:
  - `utils/code.py`'s `parse_code_block` has the same expression as the package's, so the model uses `Parsing.ParseCodeBlock`;
  - `utils/text.py`'s `format_prompt` is the same replacement loop as `Prompt.FormatPrompt`;
  - the `extract_frames_from_video` of `src/utils/rendering.py` follows the same rules as the package's and is the `Frames` module;
  - `manim_workflow.py` defines its own `TokenUsageTracker` class (`manim_workflow.py:23-46`) with the same code as the one in `utils/usage.py`, so both are modelled by `LegacyUsage.TokenUsageTracker`.
- The legacy review messages are modelled as written:
  - in `utils/text.py`, the closing `</review_n` tag missing its `>`;
  - in `manim_generator.py`, the opening `<review` tag missing its `>`.
- `manim_workflow.py` imports `calculate_scene_success_rate` from `utils/code.py`, which does not define it. The success rate that gates a revision is therefore an input of that model (`LegacyManimWorkflow.World.rate`).

## Model

| member | source | states |
|---|---|---|
| Parsing.SearchBlock | src/manim_generator/utils/parsing.py:17-21 | the leftmost match of the fenced-block pattern: the capture ends at a fence and no fence starts inside it (the lazy group) |
| Parsing.ParseCodeBlock | src/manim_generator/utils/parsing.py:11-22 | a reply without a match comes back unchanged; an extracted block is shorter than the reply and holds no fence |
| Parsing.ParseCodeBlockUnfenced | src/manim_generator/utils/parsing.py:22 | a reply without a fence is returned unchanged |
| Parsing.ParseCodeBlockClean | src/manim_generator/utils/parsing.py:17-22 | an extracted block holds no fence and has no whitespace at either end |
| Parsing.ParseCodeBlockIdempotent | src/manim_generator/utils/parsing.py:11-22 | extracting again from an extracted block changes nothing |
| Parsing.FencedScriptRecovered | src/manim_generator/utils/parsing.py:17-22 | a script in a `python`-tagged or untagged fence after prose without backticks is recovered exactly, whatever follows |
| Parsing.ExtractSceneClassNames | src/manim_generator/utils/parsing.py:36-53 | the loop over the breadth-first walk returns the scene names of the walk, or the syntax error as a value |
| Parsing.HasSceneBase | src/manim_generator/utils/parsing.py:45-50 | the loop over the bases finds a base exactly when some base's identifier ends with "Scene" |
| Parsing.WalkListsEveryClassOnce | src/manim_generator/utils/parsing.py:43-50 | the walk reports every scene class of the tree exactly once (same multiset as the source-order enumeration) |
| Parsing.DiscoveredIff | src/manim_generator/utils/parsing.py:43-49 | a name is discovered exactly when some class anywhere in the module has it and a base ending with "Scene" |
| Parsing.WalkLevelOrder | src/manim_generator/utils/parsing.py:43 | `ast.walk` is breadth-first: a queue is reported before everything below it |
| Parsing.TopLevelScenesFirst | src/manim_generator/utils/parsing.py:43-50 | module-level scene classes come first, in source order, then the nested ones |
| Parsing.SyntaxErrorReported | src/manim_generator/utils/parsing.py:36-39 | a syntax error is returned as a `SceneParsingError` whose message is "Syntax error in code: " and the parser's message |
| Parsing.NestedSceneReportedLater | src/manim_generator/utils/parsing.py:43-50 | a scene nested in a block is listed after a module-level scene that follows the block |
| Parsing.SceneSuffixExample | src/manim_generator/utils/parsing.py:47-48 | only the final identifier's suffix counts: `SceneHelperMixin` is not a scene base, `MovingCameraScene` is, and a base with no name or attribute is not |
| Prompt.FormatPrompt | src/manim_generator/utils/prompt.py:18-20 | the loop over the replacements gives the template rewritten by each pair in turn, every `{key}` replaced by its value |
| Prompt.FormatWithoutPlaceholders | src/manim_generator/utils/prompt.py:18-20 | a template without braces comes back unchanged whatever the replacements |
| Prompt.FormatWithNothing | src/manim_generator/utils/prompt.py:18-20 | no replacements leave the template as it is |
| Prompt.ReplaceSkipsOtherPlaceholder | src/manim_generator/utils/prompt.py:19 | replacing one placeholder skips a different placeholder whole |
| Prompt.FillTwoPlaceholders | src/manim_generator/utils/prompt.py:18-20 | a template with two distinct placeholders and brace-free text and values is filled with both values in place |
| Prompt.LaterKeyRewritesEarlierValue | src/manim_generator/utils/prompt.py:18-20 | substitution is sequential: a value naming a later placeholder is rewritten by the later pair |
| Prompt.FormatPreviousReviews | src/manim_generator/utils/prompt.py:35-39 | the history is "" exactly when there are no reviews, and otherwise opens with the `<review_0>` block of the first review |
| Prompt.FormatPreviousReviewsGrows | src/manim_generator/utils/prompt.py:35-39 | no reviews give "", one gives its `<review_0>` block, each further review adds a newline and its block numbered by its position |
| Prompt.ConvertFramesToMessageFormat | src/manim_generator/utils/prompt.py:54-57 | one `image_url` item per frame, in order, with that frame's URL and the format `image/png` |
| Prompt.FramesRoundTrip | src/manim_generator/utils/prompt.py:54-57 | reading the URLs back from the converted items gives the frames, in order |
| Config.ValidateReasoningArguments | src/manim_generator/utils/config.py:176-182 | the run ends with status 1 exactly when both an effort and a token budget were given |
| Config.BuildReasoningConfig | src/manim_generator/utils/config.py:220-227 | each flag that was given adds its key with its value, no other key, and an empty dictionary becomes None (line 257) |
| Config.ReasoningDetermined | src/manim_generator/utils/config.py:220-227 | the flags determine the reasoning dictionary: two dictionaries that each have exactly the keys and values of the same flags are equal |
| Config.SceneTimeout | src/manim_generator/utils/config.py:263 | a timeout of 0 disables the limit; any other value is kept |
| Config.VisionEnabled | src/manim_generator/utils/config.py:215-218 | vision is on exactly when it is forced or both models support it |
| Config.OutputDirectory | src/manim_generator/utils/config.py:201-214 | the directory given, else `output/<model>_<description>_<timestamp>` |
| Config.ShortFileDescription | src/manim_generator/utils/config.py:201-207 | the description part is never empty, and a description without words gives "output" |
| Config.ModelDirectoryName | src/manim_generator/utils/config.py:210 | once every `openrouter/` is removed, each character is kept except a slash, which becomes `_`, so the length is kept; a model name without a slash is used as it is |
| Config.OpenRouterPrefixDropped | src/manim_generator/utils/config.py:210 | a leading `openrouter/` makes no difference to the directory name |
| Config.ModelDirectoryNameFlat | src/manim_generator/utils/config.py:210 | the model part of an automatic directory holds no slash, whatever the model name |
| Config.ShortFileDescriptionHasNoSpace | src/manim_generator/utils/config.py:202-208 | the description part holds no whitespace and is the first at most four words joined by `_` |
| Config.ShortFileDescriptionAvoidsSlash | src/manim_generator/utils/config.py:202-207 | a description without a slash gives a description part without one |
| Config.AutomaticDirectoryFlat | src/manim_generator/utils/config.py:201-213 | an automatic directory begins with `output/` and has no further slash when the description and the timestamp have none |
| Config.OneWordDescriptionKept | src/manim_generator/utils/config.py:202-207 | a one-word description is kept as it is, so a slash in it nests the automatic directory below `output/` |
| Config.FormatBool | src/manim_generator/utils/config.py:345-356 | the label for the value inside tags of its colour, green for true |
| Config.FormatReasoningSummary | src/manim_generator/utils/config.py:363-374 | "Disabled" for an empty dictionary, else `effort=…` and `max_tokens=…` for the keys given, joined by ", " |
| Usage.StepRecordFields | src/manim_generator/utils/usage.py:18-22 | a step record holds the step and model labels and every usage field, a usage field of the same name winning over a label |
| Usage.TokenUsageTracker.constructor | src/manim_generator/utils/usage.py:8-14 | a new tracker has no steps and zero totals |
| Usage.TokenUsageTracker.AddStep | src/manim_generator/utils/usage.py:16-26 | appends the step record and adds its `total_tokens`, `cost` and `llm_time` (0 when absent), keeping the totals equal to the sums over the steps |
| Usage.TokenUsageTracker.GetTrackingData | src/manim_generator/utils/usage.py:28-30 | the tracking data holds the tracker's steps and, on a valid tracker, totals that are the sums over them |
| Usage.GetUsageTotals | src/manim_generator/utils/usage.py:33-41 | the prompt and completion sums are non-negative when every step's are, and make up the total when every step's do |
| Llm.BuildLitellmArgs | src/manim_generator/utils/llm.py:92-118 | the four core arguments always; no reasoning key without a reasoning setting; an `openai/` model gets only `reasoning_effort` (a missing `effort` key is an error), any other model the whole dictionary; a provider becomes `{"order": [p]}` |
| Llm.ArgsAlwaysHaveCoreKeys | src/manim_generator/utils/llm.py:102-107 | model, messages, temperature and stream are always present |
| Llm.WaitTime | src/manim_generator/utils/llm.py:196-210 | every sleep after a rate limit lasts at least two seconds |
| Llm.WaitWithoutHint | src/manim_generator/utils/llm.py:205-210 | a message without the `try again in` hint waits the default 2 seconds |
| Llm.WaitFromHint | src/manim_generator/utils/llm.py:198-204 | a hint with a whole number of seconds waits that many seconds plus two |
| Llm.FromResponse | src/manim_generator/utils/llm.py:164-193 | the reply text, the token counts (0 without usage), the cost (0.0 when it cannot be computed), the reasoning only when non-empty |
| Llm.GetCompletionWithRetry | src/manim_generator/utils/llm.py:121-223 | the retry loop's reply and sleeps are those of the attempt-by-attempt definition `RetryFrom` |
| Llm.RetryCeiling | src/manim_generator/utils/llm.py:151-223 | the call raises exactly when every allowed attempt was rate-limited, after one sleep per attempt; never more sleeps than attempts |
| Llm.RetryStopsAtFirstAnswer | src/manim_generator/utils/llm.py:152-221 | the first attempt that is not rate-limited decides the reply (the answer, or the sentinel for any other error) after one sleep per earlier attempt |
| Llm.SleepsAtLeastTwo | src/manim_generator/utils/llm.py:195-211 | every sleep of the retry loop lasts at least two seconds |
| Llm.MissingEffortAnswersSentinel | src/manim_generator/utils/llm.py:108-112 | an OpenAI model with a reasoning setting lacking `effort` fails inside the `try` and is answered with the sentinel, without sleeping |
| Llm.Tokens | src/manim_generator/utils/llm.py:280 | a chunk without content contributes the empty token |
| Llm.StreamChunks | src/manim_generator/utils/llm.py:269-290 | the loop over the chunks yields the items of `StreamItems`: one per chunk, then the final item |
| Llm.GetStreamingCompletionWithRetry | src/manim_generator/utils/llm.py:226-308 | the items yielded, how the generator ended and the sleeps are those of the attempt-by-attempt definition `StreamFrom` |
| Llm.StreamItemsShape | src/manim_generator/utils/llm.py:278-290 | n chunks yield n+1 items, each carrying its token and the text streamed so far, the last `("", full response, zero usage)` |
| Llm.StreamRetryCeiling | src/manim_generator/utils/llm.py:256-308 | the generator yields something exactly when an attempt streamed, ending with the final empty token, and sleeps at most once per allowed attempt, at least two seconds each |
| Rendering.ModeOf | src/manim_generator/utils/rendering.py:291-340 | the extraction mode is "highest density" or "fixed count" exactly for those two names, anything else an unknown mode |
| Rendering.EncodeFrames | src/manim_generator/utils/rendering.py:158-168 | the encoding loop keeps one named data URL per frame that encodes, in order |
| Rendering.AppendSceneLog | src/manim_generator/utils/rendering.py:108-122 | one scene's entry, with the timeout notice when it timed out, extends the log of the scenes before it |
| Rendering.RenderScenes | src/manim_generator/utils/rendering.py:70-137 | the scene loop: success exactly when every scene exited 0 without timing out, the log of every scene, the rendered scenes in order |
| Rendering.CollectFrames | src/manim_generator/utils/rendering.py:147-188 | the frame loop: the encoded frames of each successful scene whose video exists, in order |
| Rendering.RunManimMultiscene | src/manim_generator/utils/rendering.py:24-234 | the report is the whole-run definition `MultisceneReport` of the script, the mode, the frame count and the timeout |
| Rendering.MultisceneReport | src/manim_generator/utils/rendering.py:60-234 | only a script that parses can succeed, and every scene reported as rendered is a scene class discovered in it |
| Rendering.RenderedScenesFilter | src/manim_generator/utils/rendering.py:72-137 | the successful scenes are exactly the rendered ones, in discovery order, and all of them exactly when all rendered |
| Rendering.RenderSuccessIff | src/manim_generator/utils/rendering.py:70-137 | a script that parses succeeds exactly when every discovered scene rendered, and then the successful scenes are all of them |
| Rendering.ParseFailureReported | src/manim_generator/utils/rendering.py:63-68 | a script that does not parse renders nothing and returns the parsing error message |
| Rendering.NoScenesVacuousSuccess | src/manim_generator/utils/rendering.py:70-234 | a script without scene classes succeeds with no frames, an empty log and no scenes |
| Rendering.MissingVideoDirectory | src/manim_generator/utils/rendering.py:149-232 | a missing video directory costs the frames but not the success flag |
| Rendering.SceneLogShape | src/manim_generator/utils/rendering.py:108-120 | a scene's log entry carries its two streams and ends with the timeout notice exactly when it timed out |
| Rendering.EncodedFramesShape | src/manim_generator/utils/rendering.py:158-168 | every encoded frame is a PNG data URL named after its scene; a single frame is named by the scene alone |
| Rendering.FramesOfRenderedScenes | src/manim_generator/utils/rendering.py:149-188 | every frame is a PNG data URL named after a scene that rendered; highest-density mode keeps at most one per scene |
| Rendering.ReportFramesFromSuccessfulScenes | src/manim_generator/utils/rendering.py:149-234 | frames come only from successful scenes: none without one, at most one per scene in highest-density mode |
| Rendering.CalculateSceneSuccessRate | src/manim_generator/utils/rendering.py:237-261 | a parse error or no scenes give (0.0, 0, 0); otherwise the rate is rendered/total times 100 |
| Rendering.SuccessRateBounds | src/manim_generator/utils/rendering.py:254-261 | the rate is 100 exactly when every scene rendered, lies in [0, 100], and is 0 exactly when none rendered |
| Rendering.RateOfReport | src/manim_generator/utils/rendering.py:237-261 | after a render the rate is 100 exactly when the render succeeded with at least one scene |
| Frames.ExtractFramesFromVideo | src/manim_generator/utils/rendering.py:264-344 | the loops of `extract_frames_from_video` give the frames of the definition `ExtractedFrames` |
| Frames.ExtractedFrames | src/manim_generator/utils/rendering.py:264-344 | an empty list is never returned (it becomes None), and an unknown mode returns nothing |
| Frames.SampleIndicesShape | src/manim_generator/utils/rendering.py:293-295 | the integer `linspace` gives n strictly increasing indices from 0 to total-1, no frame sampled twice |
| Frames.DensityPositive | src/manim_generator/utils/rendering.py:309-312 | a frame's density is non-negative and positive exactly when it has a bright pixel |
| Frames.BestDominates | src/manim_generator/utils/rendering.py:297-316 | the kept density is the kept frame's and at least that of every measured frame |
| Frames.BestNoneIff | src/manim_generator/utils/rendering.py:314-319 | no frame is kept exactly when no read frame has a bright pixel |
| Frames.BestIsFirstMaximum | src/manim_generator/utils/rendering.py:314-316 | the kept frame is the first maximum: every earlier measured frame is strictly darker |
| Frames.ReadFramesAreReads | src/manim_generator/utils/rendering.py:327-333 | fixed-count mode keeps only successful reads, at most one per sample |
| Frames.ReadFramesInOrder | src/manim_generator/utils/rendering.py:327-333 | the kept frames are the successful reads in sampling order: the reads of a split sampling are those of its first part then of its second, a failed read keeps nothing and a successful one keeps its frame |
| Frames.FixedCountAllReadable | src/manim_generator/utils/rendering.py:321-336 | when every read succeeds fixed-count mode returns exactly min(frame_count, total) frames |
| Frames.FixedCountBound | src/manim_generator/utils/rendering.py:321-336 | fixed-count mode never returns more than frame_count frames, nor an empty list |
| Frames.HighestDensityAtMostOne | src/manim_generator/utils/rendering.py:291-340 | highest-density mode returns one bright frame or nothing; an unknown mode returns nothing |
| Frames.UnreadableVideo | src/manim_generator/utils/rendering.py:283-289 | a video that does not open or has no frames yields nothing in every mode |
| Console.Description | src/manim_generator/console.py:52-59 | the bar text is the phase, then ` | ` and the extra information when it is given, then ` | Executions: n (m successful)` exactly when the execution count n is above 0 |
| Console.HeadlessProgressManager.constructor | src/manim_generator/console.py:14-29 | a manager for the given cycle count, on cycle 0 with no executions, not started and without a task |
| Console.HeadlessProgressManager.Start | src/manim_generator/console.py:31-38 | the first call adds one task of `2 + 3 * cycles` steps labelled "Initializing..." at step 0; a later call changes nothing |
| Console.HeadlessProgressManager.Update | src/manim_generator/console.py:44-62 | starts the bar if needed, then shows the description of the phase and the step `_get_current_step` assigns it, leaving the counters alone; a first call creates a new task whose total is every step of the run, a later one keeps the task and its total |
| Console.HeadlessProgressManager.SetCycle | src/manim_generator/console.py:80-82 | only the current cycle changes |
| Console.HeadlessProgressManager.IncrementExecution | src/manim_generator/console.py:84-88 | one more execution, and one more success exactly when it succeeded; nothing else changes |
| Console.HeadlessProgressManager.Stop | src/manim_generator/console.py:90-94 | a running bar stops and keeps its task, total, description and completed steps; a stopped one is left as it is; the counters never change |
| Console.CyclePhasesWithinBar | src/manim_generator/console.py:64-78 | during a cycle 1..total, a review, revision or execution phase gets a step between 0 and the total |
| Console.StepOfInitialGeneration | src/manim_generator/console.py:66-67 | the generation phase is step 0 |
| Console.StepOfFinalization | src/manim_generator/console.py:76-77 | the finalization phase is the last step, the total |
| Console.StepOfReviewCycle | src/manim_generator/console.py:70-71 | `Review Cycle k` is step `2 + 3(k-1)` |
| Console.StepOfCodeRevision | src/manim_generator/console.py:72-73 | `Code Revision k` is step `2 + 3(k-1) + 1` |
| Console.ExecutionStepAsWritten | src/manim_generator/workflow.py:125 | the phase `execute_code` passes is the bare step name ("Initial", "Revision k"), which matches no rule and gives step 0 |
| Console.ProgressRegressesAsWritten | src/manim_generator/console.py:64-78 | in every cycle the bar goes from the revision step back to 0 at the execution |
| Console.InitialExecutionStep | src/manim_generator/console.py:68-69 | "Initial Execution" is step 1 |
| Console.ExecutionStepCorrected | src/manim_generator/console.py:74-75 | with " Execution" after the step name, the initial run is step 1 and the run of cycle k is step `2 + 3(k-1) + 2` |
| Console.CorrectedProgressAdvances | src/manim_generator/console.py:64-78 | with the corrected labels the i-th phase of a run is step i, from 0 up to the total |
| Workflow.ManimWorkflow.constructor | src/manim_generator/workflow.py:32-42 | a workflow with the configuration and world given, no cycles, no executions, no initial success and an empty usage tracker |
| Workflow.ManimWorkflow.GenerateInitialCode | src/manim_generator/workflow.py:51-112 | one system message with the init prompt; the code is the parsed reply and exactly one step "Initial Code Generation" is recorded for the code model |
| Workflow.ManimWorkflow.ExecuteCode | src/manim_generator/workflow.py:114-155 | the report is the multiscene run of the code; one more execution, one more success exactly when it rendered, nothing else changes |
| Workflow.ManimWorkflow.GenerateReview | src/manim_generator/workflow.py:257-355 | the review is the reply of the review model to the review request, and exactly one step `Review Cycle n` is recorded |
| Workflow.ManimWorkflow.GenerateCodeRevision | src/manim_generator/workflow.py:357-420 | the revision is the parsed reply of the code model to the system prompt plus the revision request, and exactly one step `Code Revision n` is recorded |
| Workflow.ManimWorkflow.RunReviewCycle | src/manim_generator/workflow.py:210-253 | one pass of the loop body takes the state exactly to the next state of the review cycle |
| Workflow.ManimWorkflow.ReviewAndUpdateCode | src/manim_generator/workflow.py:186-255 | the result is the review cycle applied `review_cycles` times from no working code and no reviews; `cycles_completed` is the cycle count when positive |
| Workflow.EnhancedPromptGate | src/manim_generator/workflow.py:279-320 | the enhanced template is used exactly when the success rate reaches the threshold; only it receives the rate and the two scene counts |
| Workflow.ReviewMessageShape | src/manim_generator/workflow.py:270-274 | the request is one user message: the prompt, then one `image/png` item per frame when there are frames and vision is on, otherwise the prompt alone |
| Workflow.RevisionRequestShowsCode | src/manim_generator/workflow.py:369-377 | two messages, the init prompt as system and the request as user, and the code block of the request parses back to the current code |
| Workflow.CycleStepIsCycle | src/manim_generator/workflow.py:209-253 | the step function handed to the loop is the review cycle |
| Workflow.CycleObeysLaws | src/manim_generator/workflow.py:215-253 | each cycle adds one review, two usage steps and one execution and sets the working code only to the successful revision |
| Workflow.CyclesCounts | src/manim_generator/workflow.py:209-253 | after k cycles: k more reviews, 2k more usage steps, k more executions, of which at most k more succeeded |
| Workflow.ReviewsOnlyGrow | src/manim_generator/workflow.py:223 | the review history only grows at its end, so cycle j+1 sees the reviews of cycles 1..j in order |
| Workflow.WorkingIsLatestSuccess | src/manim_generator/workflow.py:206-251 | the working code is absent exactly when no revision rendered, and otherwise is the latest one that did |
| Workflow.CycleReplacesResults | src/manim_generator/workflow.py:243-251 | code, logs, frames and successful scenes are replaced by the revision's run whether it rendered or not |
| Pipeline.RunWorkflow | src/manim_generator/main.py:30-103 | the summary of a run is the first script, its run, the review loop from there and the combined working code, as `MainSummary` defines |
| Pipeline.RunCounts | src/manim_generator/main.py:85-100 | `review_cycles + 1` executions including the initial one, at most that many successes, the cycle count (0 for a non-positive setting) and `1 + 2n` usage steps |
| Pipeline.FinalSuccessRule | src/manim_generator/main.py:36-50 | success is recorded exactly when there is working code, that is when the initial script ran or the loop kept a non-empty revision |
| Pipeline.LoopWorkingRule | src/manim_generator/main.py:50 | for any cycle obeying the cycle laws, the fallback survives unless a revision rendered, and a non-empty latest rendered revision replaces it |
| Pipeline.WorkingCodeCombination | src/manim_generator/main.py:37-50 | the working code is the initial script (if it ran) unless a later revision rendered, in which case the latest non-empty one wins |
| Pipeline.EmptyRevisionIgnored | src/manim_generator/main.py:50 | a rendered but empty revision does not replace the initial working code |
| Pipeline.TokenTotals | src/manim_generator/main.py:81-100 | prompt and completion totals add up to the total when every step's counts do |
| LegacyText.UnterminatedClosingTag | utils/text.py:35-38 | each review block of this layout is the package's block without its final `>`: the closing tag `</review_N` is never closed |
| LegacyText.FormatPreviousReviews | utils/text.py:35-39 | the history is "" exactly when there are no reviews, and otherwise opens with the first review's unterminated block |
| LegacyText.FormatPreviousReviewsGrows | utils/text.py:35-39 | no reviews give "", one review gives its block, and each further review adds a newline and its numbered block |
| LegacyText.ConvertFramesToMessageFormat | utils/text.py:42-47 | one `image_url` item per frame, in order, carrying only the URL |
| LegacyText.SameUrlsAsPackage | utils/text.py:47 | reading the URLs back gives the frames, the same as from the package's items |
| LegacyLlm.GetCompletionWithRetry | utils/llm.py:10-62 | the outcome and the sleeps are those of the retry loop over the attempts |
| LegacyLlm.RetryCeiling | utils/llm.py:33-62 | all allowed attempts rate-limited: "Max retries exceeded" raised after one sleep each; otherwise the first other attempt decides, returning its content or raising its error |
| LegacyLlm.AgreesWithPackage | utils/llm.py:33-62 | both layouts sleep alike on the same attempts and give up together; an answer gives the same content, and an error this layout raises is the one the package answers with its sentinel |
| LegacyLlm.YieldChunks | utils/llm.py:97-102 | one `(token, text so far)` pair per chunk, the text accumulated from "" with a missing token read as "" |
| LegacyLlm.GetStreamingCompletionWithRetry | utils/llm.py:65-123 | the pairs yielded, how the generator ended and the sleeps are those of the streaming retry loop |
| LegacyLlm.StreamHasNoFinalItem | utils/llm.py:97-106 | n chunks give n pairs, which are the package's stream items without its final summary item |
| LegacyLlm.RetryRestartsAccumulation | utils/llm.py:89-121 | a rate limit mid-stream keeps what was yielded and restarts the accumulated text with the retry's first token, after one sleep |
| LegacyLlm.StreamCeiling | utils/llm.py:88-123 | when every allowed call is rate-limited the generator raises after one sleep per call |
| LegacyUsage.TokenUsageTracker.constructor | utils/usage.py:11-12 | no steps, zero tokens and zero cost |
| LegacyUsage.TokenUsageTracker.AddStep | utils/usage.py:14-23 | the step record is appended and its `total_tokens` and `cost` (0 when absent) added to the totals |
| LegacyUsage.TokenUsageTracker.GetTrackingData | utils/usage.py:25-27 | the steps recorded, with totals that are the sums over them |
| LegacyUsage.ReportTotals | utils/usage.py:40-84 | prompt and completion sums over the steps (absent counts 0) and the tracked totals; the two sums add up to the total on consistent steps and are non-negative on non-negative steps |
| LegacyUsage.SameTotalsAsPackage | utils/usage.py:14-23 | over the same steps the totals agree with the package tracker's |
| LegacyCode.ExtractSceneClassNames | utils/code.py:114-120 | every name found is a non-empty word, listed in textual order |
| LegacyCode.NoKeywordNoScenes | utils/code.py:119-120 | a text without "class" lists no scene |
| LegacyCode.WholeTextMatch | utils/code.py:119-120 | a match spanning the whole text lists exactly its name |
| LegacyCode.OneLineDefinitionListed | utils/code.py:119 | `class N(B):` on one line is listed as `[N]` whenever B mentions "Scene" |
| LegacyCode.SceneHelperContrast | utils/code.py:119 | a base such as `SceneHelper` is accepted here though the package's discovery rejects it |
| LegacyCode.ReadFrames | utils/code.py:92-102 | one `data:image/png;base64,` URL per PNG that was read, every one when all were read |
| LegacyCode.EncodePngs | utils/code.py:87-110 | the frames of the PNGs read, whether or not their removal succeeded, and a flag that is true exactly when every PNG was read and removed |
| LegacyCode.RunManimMultiscene | utils/code.py:36-112 | logs of every scene in order; success exactly when every scene exited 0, the images directory exists and every PNG was read and removed; frames from every PNG read |
| LegacyCode.RemovalFailureKeepsFrame | utils/code.py:97-107 | a PNG that is read but cannot be removed still gives its frame, while the run is no longer a success |
| LegacyCode.PlainStreamsKept | utils/code.py:73-79 | a stream without the literal `\n\n` text appears in its log entry unchanged |
| LegacyRendering.ExitedZeroEvery | src/utils/rendering.py:119-120 | the scene condition of the success flag holds exactly when every scene exited 0 |
| LegacyRendering.SampledEvery | src/utils/rendering.py:144-190 | the frame condition of the success flag holds exactly when every scene was sampled |
| LegacyRendering.AppendLegacyLog | src/utils/rendering.py:107-117 | the log extended by the tagged `<Scene>` entry of the next scene |
| LegacyRendering.RenderAll | src/utils/rendering.py:73-130 | whether every scene exited 0, and the log of every scene in order outside headless mode, empty in headless mode |
| LegacyRendering.EncodeSceneFrames | src/utils/rendering.py:154-172 | the frames of one scene named `Scene_i` when there are several and `Scene` alone otherwise, and whether each encoded |
| LegacyRendering.SampleScene | src/utils/rendering.py:146-190 | the named frames of one scene and whether its video existed and gave encodable frames |
| LegacyRendering.SampleAll | src/utils/rendering.py:144-191 | the frames of every discovered scene in order and whether every scene was sampled |
| LegacyRendering.RunManimMultiscene | src/utils/rendering.py:23-237 | the report of the runner: a parse failure, the scene loop, the frame loop and the flag combined as `LegacyMultisceneReport` |
| LegacyRendering.SameEntryAsPackage | src/utils/rendering.py:107-116 | a scene's tagged entry is the package's entry for the same outcome when there was no timeout |
| LegacyRendering.LegacyReportCases | src/utils/rendering.py:61-67 | a parse failure gives the failure log only; a headless run logs nothing; a missing video directory fails the run with no frames (232-235) |
| LegacyRendering.FailedScenesStillSampled | src/utils/rendering.py:144-190 | when no scene exits 0 the package keeps no frame, while this runner still samples every scene whose video exists |
| LegacyRendering.OneFramePerSampledScene | src/utils/rendering.py:305-333 | in highest-density mode every sampled scene gives exactly one frame |
| LegacyRendering.CalculateSceneSuccessRate | src/utils/rendering.py:240-275 | 0 for a parse error or no scenes; otherwise the rendered count is capped at the total, the rate lies in [0, 100], rate times total is 100 times rendered, and the rate is 100 exactly when the uncapped count reaches the total |
| LegacyRendering.HighestDensitySuccessIsFull | src/utils/rendering.py:266-274 | after a successful highest-density render the rate is 100 |
| LegacyRendering.FractionalSceneCount | src/utils/rendering.py:266-267 | three frames at two per scene count as 1.5 scenes, a rate of 75 |
| LegacyWorkflow.ManimWorkflow.constructor | src/workflow.py:30-42 | a workflow with the configuration given, no cycles, no executions, no initial success and an empty usage tracker |
| LegacyWorkflow.ManimWorkflow.GenerateInitialCode | src/workflow.py:44-120 | one system message with the init prompt; the code is the parsed reply and exactly one "Initial Code Generation" step is recorded |
| LegacyWorkflow.ManimWorkflow.ExecuteCode | src/workflow.py:122-185 | the result is this layout's multiscene run; the status display raises exactly outside headless mode with `frame_count` 0, and then nothing is counted; otherwise a step named "Initial" leaves both counters alone and any other counts once and once more as a success when it rendered |
| LegacyWorkflow.ManimWorkflow.GenerateReview | src/workflow.py:291-383 | the review is the reply of the review model to the review request, and exactly one `Review Cycle n` step is recorded |
| LegacyWorkflow.ManimWorkflow.GenerateCodeRevision | src/workflow.py:385-469 | the revision is the parsed reply to the system prompt plus the revision request carrying the frames, and exactly one `Code Revision n` step is recorded |
| LegacyWorkflow.ManimWorkflow.ReviseAndExecute | src/workflow.py:273-279 | the revision, then its run as `Revision n`, counted once unless the status display raised |
| LegacyWorkflow.ManimWorkflow.RunReviewCycle | src/workflow.py:230-283 | one pass of the loop body takes the state exactly to the next state of this layout's review cycle; when the revision's status display raises, the review and revision steps are recorded and nothing is counted |
| LegacyWorkflow.ManimWorkflow.ReviewAndUpdateCode | src/workflow.py:209-289 | the result is this layout's cycle applied `review_cycles` times from no working code and no reviews; with `frame_count` 0 outside headless mode the first revision's status display raises and the loop stops there |
| LegacyWorkflow.CycleUnfolds | src/workflow.py:246-283 | a cycle appends the review and two usage steps, replaces code, logs and frames by the revision's run, and keeps the revision as working code exactly when it rendered |
| LegacyWorkflow.CycleStepIsCycle | src/workflow.py:230-283 | the step function handed to the loop is this layout's review cycle |
| LegacyWorkflow.LegacyCycleObeysLaws | src/workflow.py:230-283 | this layout's cycle obeys the package's cycle laws, so the fold lemmas of the package apply |
| LegacyWorkflow.EnhancedPromptGate | src/workflow.py:306-349 | the enhanced prompt is used exactly when the frame-count rate reaches the threshold, and only it gets the rate, the rendered count and the scene count; the rate lies in [0, 100] |
| LegacyWorkflow.RevisionCarriesFrames | src/workflow.py:395-422 | two messages; the user one carries the revision prompt and one image item per frame when there are frames and vision is on, and the plain prompt otherwise |
| LegacyWorkflow.RevisionNamesAreCounted | src/workflow.py:158-161 | no revision is named "Initial", so every revision's run is counted |
| LegacyMain.RunWorkflow | src/main.py:30-92 | the outcome of a run is the `ZeroDivisionError` of the first status display when `frame_count` is 0, else the summary of the first script, its run, the review loop and the combined working code, as `MainSummary` defines |
| LegacyMain.AbortsIffZeroFrameCount | src/workflow.py:156-185 | since `main` passes no progress manager, a run ends with the division error exactly when `frame_count` is 0; any other frame count gives the summary |
| LegacyMain.RunCounts | src/main.py:80-92 | only the cycles' runs are counted: `review_cycles` executions, at most that many successes, and `1 + 2n` usage steps |
| LegacyMain.OneExecutionFewerThanPackage | src/main.py:33 | for the same configuration and world this layout reports exactly one execution fewer than the package |
| LegacyMain.FinalSuccessRule | src/main.py:34-48 | success is recorded exactly when there is working code, that is when the initial script ran or the loop kept a non-empty revision |
| LegacyMain.WorkingCodeCombination | src/main.py:35-48 | the initial script (if it ran) unless a later revision rendered, in which case the latest non-empty one wins |
| LegacyMain.InitialLogsRecorded | src/main.py:30 | the workflow has no progress manager, so the first review sees the full log of every scene whatever the `headless` setting |
| LegacyManimWorkflow.ManimWorkflow.constructor | manim_workflow.py:52-59 | a workflow with the configuration given and an empty tracker: no steps, zero tokens, zero cost |
| LegacyManimWorkflow.ManimWorkflow.GenerateInitialCode | manim_workflow.py:61-106 | one system message with the init prompt; the code is the parsed reply and exactly one "Initial Code Generation" step is recorded |
| LegacyManimWorkflow.ManimWorkflow.ExecuteCode | manim_workflow.py:108-126 | the flag, frames and log are those of the `utils/code.py` runner for the script; nothing is counted |
| LegacyManimWorkflow.ManimWorkflow.BuildReviewPrompt | manim_workflow.py:236-265 | the enhanced template exactly when the success rate reaches the threshold, the standard one otherwise |
| LegacyManimWorkflow.ManimWorkflow.GenerateReview | manim_workflow.py:219-289 | the review is the reply of the review model to the review request, and exactly one `Review Cycle n` step is recorded |
| LegacyManimWorkflow.ManimWorkflow.GenerateCodeRevision | manim_workflow.py:291-337 | the revision is the parsed reply to the system prompt plus the plain revision request, and exactly one `Code Revision n` step is recorded |
| LegacyManimWorkflow.ManimWorkflow.ReviseAndExecute | manim_workflow.py:203-212 | the revision, then its run as `Revision n` |
| LegacyManimWorkflow.ManimWorkflow.RunReviewCycle | manim_workflow.py:176-215 | one pass of the loop body takes the state exactly to the next state of this layout's review cycle |
| LegacyManimWorkflow.ManimWorkflow.ReviewAndUpdateCode | manim_workflow.py:153-217 | the result is this layout's cycle applied `review_cycles` times from no working code and no reviews; the conversation passed in is not used |
| LegacyManimWorkflow.CycleUnfolds | manim_workflow.py:176-215 | a cycle appends the review and two usage steps, replaces code, logs and frames by the revision's run, and keeps the revision as working code exactly when it rendered |
| LegacyManimWorkflow.CycleStepIsCycle | manim_workflow.py:176-215 | the step function handed to the loop is this layout's review cycle |
| LegacyManimWorkflow.CycleObeysLaws | manim_workflow.py:176-215 | this layout's cycle obeys the package's cycle laws |
| LegacyManimWorkflow.LoopResults | manim_workflow.py:173-217 | one review and two usage steps per cycle; the working code is absent exactly when no revision rendered, else the latest that did |
| LegacyManimWorkflow.EnhancedPromptGate | manim_workflow.py:236-265 | the enhanced prompt exactly when the rate reaches the threshold, and only it gets the rate and the scene counts; both number the previous reviews with this layout's blocks |
| LegacyManimWorkflow.RequestShapes | manim_workflow.py:226-233 | one user message with the prompt and one bare `image_url` item per frame when there are frames and vision is on; the revision request (295-304) never carries images |
| LegacyGenerator.DefaultConfig | manim_generator.py:19-26 | three review cycles and the same default model for code and review |
| LegacyGenerator.Conversation.constructor | manim_generator.py:31-54 | a conversation holding the messages given |
| LegacyGenerator.GenerateInitialCode | manim_generator.py:31-54 | a new conversation holding only the system prompt, and the code block of the first reply |
| LegacyGenerator.RequestReview | manim_generator.py:78-92 | the review is the review model's reply to the one review message |
| LegacyGenerator.RunReviewCycle | manim_generator.py:77-112 | one pass of the loop body, with the conversation extended in place, takes the state exactly to the next cycle state |
| LegacyGenerator.ReviewAndUpdateCode | manim_generator.py:57-116 | the result is the cycle applied `review_cycles` times from the given script, logs, frames and conversation |
| LegacyGenerator.RunGenerator | manim_generator.py:119-135 | the result of a run is the initial script, its run, the review loop and the combined working code |
| LegacyGenerator.CycleUnfolds | manim_generator.py:78-112 | a cycle appends the review, the user feedback and the assistant's answer; code, logs and frames come from the answer's run, and the working code is that code exactly when it rendered |
| LegacyGenerator.CycleStepIsCycle | manim_generator.py:76-112 | the step function handed to the loop is this script's cycle |
| LegacyGenerator.CycleIgnoresWorking | manim_generator.py:112 | a cycle does not read the working code it is given |
| LegacyGenerator.CycleObeysLaws | manim_generator.py:93-104 | each cycle keeps the conversation as a prefix, adds a user and an assistant message, one review and two calls |
| LegacyGenerator.ConversationGrows | manim_generator.py:97-104 | after k cycles the conversation is the earlier one followed by k user/assistant pairs; k more reviews and 2k more calls |
| LegacyGenerator.RunConversationLength | manim_generator.py:120-134 | the final conversation holds the system prompt and two messages per cycle |
| LegacyGenerator.WorkingIsLastOnly | manim_generator.py:112 | after a cycle the working code is the last revision exactly when it rendered and nothing otherwise, so a failed later cycle erases an earlier success |
| LegacyGenerator.MalformedReviewTag | manim_generator.py:99 | the feedback text opens with `<review` directly followed by the review, which forms a `<review>` tag only when the review starts with `>` |
| LegacyGenerator.ReviewRequestShape | manim_generator.py:86-91 | one `system` message: the prompt, then one bare `image_url` item per frame when there are frames and the review model supports vision |
| LegacyGenerator.WorkingCodeCombination | manim_generator.py:128-135 | the loop's working code if it is a non-empty script, else the initial script if it ran; with cycles a failed last revision falls back to the initial script |
| LegacyBackup.DefaultArguments | manim_generator_backup.py:27-35 | the default model for code and review, five cycles, no vision forcing and no reasoning setting |
| LegacyBackup.ParseArguments | manim_generator_backup.py:133-166 | status 1 exactly when both an effort and a token budget are given; otherwise the models and cycles as given, vision from the review model or the force flag, and the reasoning dictionary holding exactly the given flags' keys with their values (None when there is none) |
| LegacyBackup.GenerateInitialCode | manim_generator_backup.py:174-230 | one system message with the init prompt; the code is the parsed reply and exactly one "Initial Code Generation" step is recorded |
| LegacyBackup.GenerateReview | manim_generator_backup.py:262-306 | the review is the review model's reply to the review request, and exactly one `Review Cycle n` step is recorded |
| LegacyBackup.GenerateRevision | manim_generator_backup.py:327-370 | the revision is the parsed reply to the system prompt and the focused request, and exactly one `Code Revision n` step is recorded |
| LegacyBackup.RunReviewCycle | manim_generator_backup.py:259-395 | one pass of the loop body takes the state exactly to the next state of this script's cycle |
| LegacyBackup.ReviewAndUpdateCode | manim_generator_backup.py:233-413 | the result is this script's cycle applied `review_cycles` times from no working code and no reviews; the conversation passed in is not used |
| LegacyBackup.RunBackup | manim_generator_backup.py:416-474 | status 1 for both reasoning settings; otherwise a run under the configuration the arguments describe, reasoning values included, whose working code is the loop's non-empty one or else the initial script's, with tracked totals that are the sums over the steps |
| LegacyBackup.RunConfigDetermined | manim_generator_backup.py:145-166 | the arguments determine the configuration: two configurations with their models, cycles, templates, vision rule and reasoning dictionary are equal |
| LegacyBackup.CycleUnfolds | manim_generator_backup.py:259-395 | a cycle appends the review and two usage steps, replaces code, logs and frames by the revision's run, and keeps the revision as working code exactly when it rendered |
| LegacyBackup.CycleStepIsCycle | manim_generator_backup.py:259-395 | the step function handed to the loop is this script's cycle |
| LegacyBackup.CycleObeysLaws | manim_generator_backup.py:259-395 | this script's cycle obeys the package's cycle laws |
| LegacyBackup.RunResults | manim_generator_backup.py:256-413 | `1 + 2n` usage steps and n reviews; the working code is absent exactly when no revision rendered, otherwise the latest that did |
| LegacyBackup.WorkingCodeCombination | manim_generator_backup.py:460-474 | the initial script's working code when no revision rendered, the latest successful non-empty revision otherwise |
| LegacyBackup.RequestShapes | manim_generator_backup.py:269-285 | one user review message with the prompt and one bare `image_url` item per frame when vision is on; the revision request (327-336) is the system prompt and the focused request only |
| LegacyBackup.VisionWiderThanPackage | manim_generator_backup.py:141 | vision needs only the review model's support here: whenever the package turns it on this script does, but not the converse |
| Strings.TrimStart | src/manim_generator/utils/parsing.py:22 | `lstrip`: a suffix of the input that does not start with whitespace, everything dropped being whitespace |
| Strings.TrimEnd | src/manim_generator/utils/parsing.py:22 | `rstrip`: a prefix of the input that does not end with whitespace, everything dropped being whitespace |
| Strings.StripIdempotent | src/manim_generator/utils/parsing.py:22 | stripping twice is stripping once |
| Strings.SplitWhitespaceWords | src/manim_generator/utils/config.py:204 | `split()` with no separator yields only non-empty words, none of which holds whitespace |
| Config.ReplaceCharRemoves | src/manim_generator/utils/config.py:210 | replacing every `/` by a text without one leaves no `/` |
| Llm.FindDelay | src/manim_generator/utils/llm.py:198 | the delay found by the `try again in <n>s` hint is never negative |
| LegacyCode.MatchAt | utils/code.py:119 | a match at p starts with "class", has a non-empty word as its name after it and ends inside the text |
| LegacyCode.FindAll | utils/code.py:120 | `findall` lists only non-empty words |

## Left out

- Terminal output, Rich panels, syntax-highlighted code, rules and status spinners: these only display, with one exception that is modelled. Outside headless mode, the execution status of `src/workflow.py` (`_display_execution_status`, lines 174-185) divides the frame count by `frame_count`, so a `frame_count` of 0 raises `ZeroDivisionError` on the first run and ends `main` (`LegacyWorkflow.StatusDisplayRaises`, `LegacyMain.MainOutcome`). The Rich `Progress` object behind the headless manager is reduced to the state of its one task (description, completed steps, total).
- The interactive `Confirm` prompts of `main`, and the settings table and confirmation prompt in `config.py:266-361`: these are user interaction. The model continues as if the user confirmed.
- Subprocesses: running `manim` and `ffmpeg`/OpenCV video decoding are oracles of the world (scene outcomes, frames).
- File system effects: writing scripts, logs, artifacts and metadata (`save_code_to_file`, `finalize_output`, the artifact directories), and reading a description file (`load_video_data`, `config.py:187-199`). Only the values handed to these functions are modelled.
- `check_and_register_models`: in the package (`src/manim_generator/utils/llm.py:18-20`) it registers model prices with the LiteLLM library, which is not part of this model.
  - The legacy `utils/llm.py` defines no such function: it defines only `get_completion_with_retry` (line 10) and `get_streaming_completion_with_retry` (line 65). `manim_workflow.py:20` imports it when the module is loaded, and `manim_generator_backup.py:420` imports it inside `main` straight after `parse_arguments`. Both therefore raise `ImportError` before any generation. This crash is not modelled: `LegacyManimWorkflow.ManimWorkflow` and `LegacyBackup.RunBackup` model the run these scripts are meant to make.
- Clocks and sleeping: `time.time`, `time.sleep` between retries, and the `llm_time` measurements. The retry delays are modelled as values, not waited for.
- `display_usage_summary` (`usage.py:44-76`) and `format_duration` (`usage.py:79-91`): text formatting for display only.
- Python float arithmetic is modelled with `real`. The text Python prints for a float is an oracle (`floatText`/`floatRepr`).
- Frames.SampleIndices: `numpy.linspace(0, total - 1, n, dtype=int)` (`src/manim_generator/utils/rendering.py:293-295`, `323-325`) computes each index as a float product and truncates it. The model uses the exact floor of `i * (total - 1) / (n - 1)`, and the two can differ by one. With 31 frames and a `frame_count` of 23, index 11 is `int(11 * (30 / 22))`, which is `int(14.999999999999998)` = 14 in floats, while the model gives 15.
- The language model itself: `get_response_with_status` and `get_completion_with_retry` are modelled as one model call whose reply comes from the world.
  - The package workflow passes a `headless_manager=` keyword argument (`workflow.py:82`) that `get_response_with_status` (`console.py:95-105`) does not accept. The model treats each such call as the model call it is meant to be.
  - Even with that argument accepted, `get_response_with_status` reads attributes that the package's `llm.py` does not provide. Its streaming branch reads `chunk.reasoning_token`, `.token`, `.response`, `.usage` and `.reasoning_content` (`console.py:131-144`) from the plain tuples that `get_completion_with_retry` yields (`llm.py:278-290`). Its other branches read `result.content`, `.usage` and `.reasoning` (`console.py:157-159`, `console.py:180-182`) from the 3-tuple it returns (`llm.py:193`, `llm.py:221`). Each of these raises `AttributeError`. The model does not capture this crash and treats the call as the model call it is meant to be.
  - `utils/console.py`'s `get_response_with_status` (line 8) takes six parameters. `manim_workflow.py` passes it `reasoning=` and `provider=` as well (lines 84-85, 282-283, 315-316), and `manim_generator_backup.py` passes `reasoning=` (lines 203, 294, 346), so each of these calls raises `TypeError` before anything is returned. Even without those arguments it returns one string, which the callers unpack into three values. Its `print_code_with_syntax` (line 23) takes two arguments where `manim_workflow.py:104` passes three. These crashes are not modelled: `LegacyManimWorkflow.ManimWorkflow` and `LegacyBackup.RunBackup` treat each call as the model call it is meant to be, with a reply, its usage and its reasoning.
- LegacyCode.ExtractSceneClassNames: `\w` is taken as the ASCII word characters (`LegacyCode.IsWordChar`), while Python's `re` matches Unicode word characters. A class such as `class Café(Scene):` is found by `utils/code.py:119-120` but missed by the model.
- Llm.HintedDelay: `\d` is taken as the ASCII digits (`Llm.IsDigit`), while Python's `re` also matches other Unicode decimal digits. A `try again in` hint written with such digits (`src/manim_generator/utils/llm.py:198`) is read as a delay by the source but not by the model.
- An exception raised in the middle of a stream (`llm.py:283-287`) is not modelled: a streamed attempt always finishes.
- The generic `except Exception` of `extract_scene_class_names` (`parsing.py:51-52`) is not modelled beyond a syntax error: the walk over a parsed tree is taken not to raise.
- Exceptions that escape the workflow once the retry ceiling is reached are not modelled. The workflows see the reply the world gives.
- `src/utils/parsing.py`, `src/utils/prompt.py`, `src/utils/usage.py` and `src/utils/llm.py` are not part of this model. The `src/` layout imports them (`src/workflow.py:7`, `17`, `23`, `24`) and is modelled with the package's parsing, prompt, usage and LLM functions (`Parsing`, `Prompt`, `Usage`, `Llm`).
- The legacy configuration modules and the command-line entry points (`argparse` wiring) are not part of this model. The parsed configuration is an input.
- `manim_generator.py` records no token usage, so its model has no usage steps.
- The tests target a newer `llm.py` (`LiteLLMParams`, `CompletionResult`) than the one modelled. The model follows the code of `llm.py`.

## Findings

| source | as written | input that shows it | evidently intended | confidence | as-written member | corrected member |
|---|---|---|---|---|---|---|
| src/manim_generator/workflow.py:125 | `execute_code` updates the headless bar with the bare step name, "Initial" or "Revision k" (`main.py:33-35`, `workflow.py:247-248`). None of the rules of `_get_current_step` (`console.py:64-78`) match it, so the bar falls back to step 0 | a headless run with one review cycle: the bar goes to step 3 at "Code Revision 1", then back to 0 when the revision runs | the execution phases get step 1 ("Initial Execution") and step `2 + 3(k-1) + 2` ("Revision k Execution"), so the bar only moves forward | not executed | Console.ExecutionStepAsWritten, Console.ProgressRegressesAsWritten | Console.ExecutionStepCorrected, Console.CorrectedProgressAdvances |
