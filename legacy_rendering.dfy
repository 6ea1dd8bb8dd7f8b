/**
 * The runner of the `src/` layout (`src/utils/rendering.py`): scenes are
 * discovered from the parsed tree as in the package, run without a
 * timeout, logged only outside headless mode, and sampled for frames
 * whether or not they rendered; any missing video, empty extraction or
 * failed encoding clears the flag. Its success rate counts frames rather
 * than successful scenes. Frame sampling itself is `Frames.ExtractedFrames`.
 */
module LegacyRendering {
  import opened Wrappers
  import opened Parsing
  import opened Frames
  import opened Rendering

  /**
   * One scene's log entry: the package's entry without a timeout notice
   * (there is no timeout here; the outcome's `timedOut` is never read).
   */
  function LegacySceneLog(scene: string, o: SceneOutcome): string
  {
    TagOpen + scene + StdoutOpen + o.stdout + StderrOpen + o.stderr + CloseOpen + scene + CloseEnd
  }

  /** The combined log of the first `k` scenes outside headless mode. */
  function LegacyLogsUpTo(world: RenderWorld, scenes: seq<string>, k: nat): string
    requires k <= |scenes|
  {
    if k == 0 then "" else LegacyLogsUpTo(world, scenes, k - 1) + LegacySceneLog(scenes[k - 1], world.run(scenes[k - 1]))
  }

  /** The first `k` scenes all exited with code 0. */
  predicate ExitedZeroUpTo(world: RenderWorld, scenes: seq<string>, k: nat)
    requires k <= |scenes|
  {
    k == 0 || (ExitedZeroUpTo(world, scenes, k - 1) && world.run(scenes[k - 1]).returnCode == 0)
  }

  /** The first `k` frames all encoded to PNG. */
  predicate EncodedUpTo(frames: seq<PixelFrame>, k: nat)
    requires k <= |frames|
  {
    k == 0 || (EncodedUpTo(frames, k - 1) && frames[k - 1].png.Some?)
  }

  /** A scene's video exists, some frames were extracted from it and all of them encoded. */
  predicate SceneSampled(world: RenderWorld, scene: string, mode: FrameMode, frameCount: int)
  {
    world.video(scene).Some?
    && ExtractedFrames(world.video(scene).value, mode, frameCount, MaxFrames).Some?
    && var frames := ExtractedFrames(world.video(scene).value, mode, frameCount, MaxFrames).value;
       EncodedUpTo(frames, |frames|)
  }

  /** The first `k` scenes were all sampled. */
  predicate SampledUpTo(world: RenderWorld, scenes: seq<string>, k: nat, mode: FrameMode, frameCount: int)
    requires k <= |scenes|
  {
    k == 0 || (SampledUpTo(world, scenes, k - 1, mode, frameCount) && SceneSampled(world, scenes[k - 1], mode, frameCount))
  }

  /** The success flag's scene condition: every scene exited zero. */
  lemma {:induction false} ExitedZeroEvery(world: RenderWorld, scenes: seq<string>, k: nat)
    requires k <= |scenes|
    ensures ExitedZeroUpTo(world, scenes, k) <==> forall j :: 0 <= j < k ==> world.run(scenes[j]).returnCode == 0
  {
    if k > 0 {
      ExitedZeroEvery(world, scenes, k - 1);
    }
  }

  /** The success flag's frame condition: every scene was sampled. */
  lemma {:induction false} SampledEvery(world: RenderWorld, scenes: seq<string>, k: nat, mode: FrameMode, frameCount: int)
    requires k <= |scenes|
    ensures SampledUpTo(world, scenes, k, mode, frameCount) <==> forall j :: 0 <= j < k ==> SceneSampled(world, scenes[j], mode, frameCount)
  {
    if k > 0 {
      SampledEvery(world, scenes, k - 1, mode, frameCount);
    }
  }

  /** The three values this runner returns. */
  datatype LegacyReport = LegacyReport(success: bool, frameUrls: seq<string>, logs: string)

  /** What `run_manim_multiscene` returns for a script; `headless` stands for a headless progress manager. */
  function LegacyMultisceneReport(world: RenderWorld, code: string, mode: string, frameCount: int, headless: bool): LegacyReport
  {
    match DiscoveredScenes(world.parse(code))
    case Err(e) => LegacyReport(false, [], ParseFailureLog(e.message))
    case Ok(scenes) =>
      var m := ModeOf(mode);
      var logs := if headless then "" else LegacyLogsUpTo(world, scenes, |scenes|);
      var frames := if world.videoDirExists then FramesOf(world, scenes, m, frameCount) else [];
      var success := ExitedZeroUpTo(world, scenes, |scenes|) && world.videoDirExists
                     && SampledUpTo(world, scenes, |scenes|, m, frameCount);
      LegacyReport(success, Urls(frames), logs)
  }

  /** Adds the entry of scene `i` to the log of the scenes before it. */
  method AppendLegacyLog(world: RenderWorld, scenes: seq<string>, i: nat, combinedLogs: string) returns (extended: string)
    requires i < |scenes| && combinedLogs == LegacyLogsUpTo(world, scenes, i)
    ensures extended == LegacyLogsUpTo(world, scenes, i + 1)
  {
    extended := combinedLogs + LegacySceneLog(scenes[i], world.run(scenes[i]));
  }

  /** The scene loop: the log (outside headless mode) and whether every scene exited zero. */
  method RenderAll(world: RenderWorld, scenes: seq<string>, headless: bool) returns (exitedZero: bool, combinedLogs: string)
    ensures exitedZero == ExitedZeroUpTo(world, scenes, |scenes|)
    ensures combinedLogs == if headless then "" else LegacyLogsUpTo(world, scenes, |scenes|)
  {
    combinedLogs := "";
    exitedZero := true;
    var i := 0;
    while i < |scenes|
      invariant 0 <= i <= |scenes|
      invariant exitedZero == ExitedZeroUpTo(world, scenes, i)
      invariant headless ==> combinedLogs == ""
      invariant !headless ==> combinedLogs == LegacyLogsUpTo(world, scenes, i)
    {
      if !headless {
        combinedLogs := AppendLegacyLog(world, scenes, i, combinedLogs);
      }
      if world.run(scenes[i]).returnCode != 0 {
        exitedZero := false;
      }
      i := i + 1;
    }
  }

  /** The encoding loop of one scene: the named frames, and whether every frame encoded. */
  method EncodeSceneFrames(scene: string, frames: seq<PixelFrame>) returns (named: seq<NamedFrame>, allEncoded: bool)
    ensures named == EncodedFrames(scene, frames, |frames|)
    ensures allEncoded == EncodedUpTo(frames, |frames|)
  {
    named := [];
    allEncoded := true;
    var idx := 0;
    while idx < |frames|
      invariant 0 <= idx <= |frames|
      invariant named == EncodedFrames(scene, frames, idx)
      invariant allEncoded == EncodedUpTo(frames, idx)
    {
      var frame := frames[idx];
      if frame.png.Some? {
        named := named + [NamedFrame(FrameName(scene, idx, |frames|), DataUrlPrefix + frame.png.value)];
      } else {
        allEncoded := false;
      }
      idx := idx + 1;
    }
  }

  /** One scene of the frame loop: its frames and whether it was sampled. */
  method SampleScene(world: RenderWorld, scene: string, mode: FrameMode, frameCount: int)
    returns (named: seq<NamedFrame>, sampled: bool)
    ensures named == SceneFrames(world, scene, mode, frameCount)
    ensures sampled == SceneSampled(world, scene, mode, frameCount)
  {
    var video := world.video(scene);
    if video.None? {
      return [], false;
    }
    var extracted := ExtractFramesFromVideo(video.value, mode, frameCount, MaxFrames);
    if extracted.None? {
      return [], false;
    }
    named, sampled := EncodeSceneFrames(scene, extracted.value);
  }

  lemma FramesOfStep(world: RenderWorld, scenes: seq<string>, j: nat, mode: FrameMode, frameCount: int)
    requires j < |scenes|
    ensures FramesOf(world, scenes[..j + 1], mode, frameCount)
            == FramesOf(world, scenes[..j], mode, frameCount) + SceneFrames(world, scenes[j], mode, frameCount)
    ensures SampledUpTo(world, scenes, j + 1, mode, frameCount)
            == (SampledUpTo(world, scenes, j, mode, frameCount) && SceneSampled(world, scenes[j], mode, frameCount))
  {
    assert scenes[..j + 1][..j] == scenes[..j];
  }

  /** The frame loop over every discovered scene: the frames kept and whether each scene was sampled. */
  method SampleAll(world: RenderWorld, scenes: seq<string>, mode: FrameMode, frameCount: int)
    returns (frames: seq<NamedFrame>, sampled: bool)
    ensures frames == FramesOf(world, scenes, mode, frameCount)
    ensures sampled == SampledUpTo(world, scenes, |scenes|, mode, frameCount)
  {
    frames := [];
    sampled := true;
    var j := 0;
    while j < |scenes|
      invariant 0 <= j <= |scenes|
      invariant frames == FramesOf(world, scenes[..j], mode, frameCount)
      invariant sampled == SampledUpTo(world, scenes, j, mode, frameCount)
    {
      FramesOfStep(world, scenes, j, mode, frameCount);
      var named, ok := SampleScene(world, scenes[j], mode, frameCount);
      frames := frames + named;
      sampled := sampled && ok;
      j := j + 1;
    }
    assert scenes[..j] == scenes;
  }

  method RunManimMultiscene(world: RenderWorld, code: string, mode: string, frameCount: int, headless: bool)
    returns (report: LegacyReport)
    ensures report == LegacyMultisceneReport(world, code, mode, frameCount, headless)
  {
    var sceneNames := ExtractSceneClassNames(world.parse(code));
    if sceneNames.Err? {
      return LegacyReport(false, [], ParseFailureLog(sceneNames.error.message));
    }
    var scenes := sceneNames.value;
    var overallSuccess, combinedLogs := RenderAll(world, scenes, headless);
    var frames: seq<NamedFrame> := [];
    if world.videoDirExists {
      var sampled;
      frames, sampled := SampleAll(world, scenes, ModeOf(mode), frameCount);
      overallSuccess := overallSuccess && sampled;
    } else {
      overallSuccess := false;
    }
    report := LegacyReport(overallSuccess, Urls(frames), combinedLogs);
  }

  // ---------------------------------------------------------------------
  // Properties of a legacy render
  // ---------------------------------------------------------------------

  /** A scene's entry is the package's entry for the same outcome when the package saw no timeout. */
  lemma SameEntryAsPackage(scene: string, o: SceneOutcome, timeout: Option<int>)
    requires !o.timedOut
    ensures LegacySceneLog(scene, o) == SceneLog(scene, o, timeout)
  {
  }

  /**
   * A parse failure reports the package's parse-failure log and nothing else; a headless
   * run logs nothing at all; a missing video directory fails the run and
   * yields no frames.
   */
  lemma LegacyReportCases(world: RenderWorld, code: string, mode: string, frameCount: int, headless: bool)
    ensures var report := LegacyMultisceneReport(world, code, mode, frameCount, headless);
            && (world.parse(code).SyntaxError? ==>
                  report == LegacyReport(false, [], MultisceneReport(world, code, mode, frameCount, None).logs))
            && (headless && world.parse(code).Parsed? ==> report.logs == "")
            && (!world.videoDirExists ==> !report.success && report.frameUrls == [])
  {
  }

  /**
   * Frames are drawn from every discovered scene: when no scene exits zero
   * the package keeps no frame, while this runner still keeps the frames of
   * every scene whose video exists.
   */
  lemma FailedScenesStillSampled(world: RenderWorld, code: string, scenes: seq<string>, mode: string,
                                  frameCount: int, timeout: Option<int>, headless: bool)
    requires world.parse(code).Parsed? && scenes == SceneNames(Walk(world.parse(code).stmts)) && world.videoDirExists
    requires forall j :: 0 <= j < |scenes| ==> world.run(scenes[j]).returnCode != 0
    ensures MultisceneReport(world, code, mode, frameCount, timeout).frameUrls == []
    ensures LegacyMultisceneReport(world, code, mode, frameCount, headless).frameUrls
            == Urls(FramesOf(world, scenes, ModeOf(mode), frameCount))
  {
    NothingRendered(world, scenes, |scenes|);
  }

  lemma {:induction false} NothingRendered(world: RenderWorld, scenes: seq<string>, k: nat)
    requires k <= |scenes|
    requires forall j :: 0 <= j < |scenes| ==> world.run(scenes[j]).returnCode != 0
    ensures RenderedUpTo(world, scenes, k) == []
  {
    if k > 0 {
      NothingRendered(world, scenes, k - 1);
    }
  }

  /** In highest-density mode a sampled scene contributes exactly one frame. */
  lemma {:induction false} OneFramePerSampledScene(world: RenderWorld, scenes: seq<string>, k: nat, frameCount: int)
    requires k <= |scenes| && SampledUpTo(world, scenes, k, HighestDensity, frameCount)
    ensures |FramesOf(world, scenes[..k], HighestDensity, frameCount)| == k
  {
    if k > 0 {
      assert scenes[..k][..k - 1] == scenes[..k - 1];
      OneFramePerSampledScene(world, scenes, k - 1, frameCount);
      var scene := scenes[k - 1];
      var v := world.video(scene).value;
      HighestDensityAtMostOne(v, frameCount, MaxFrames, "highest_density");
      var extracted := ExtractedFrames(v, HighestDensity, frameCount, MaxFrames).value;
      assert |extracted| == 1 && extracted[0].png.Some?;
      assert EncodedFrames(scene, extracted, 0) == [];
    }
  }

  // ---------------------------------------------------------------------
  // Frame-count success rate
  // ---------------------------------------------------------------------

  /** A Python number: `scenes_rendered` is an int or a float depending on the branch taken. */
  datatype Number = IntNum(i: int) | FloatNum(x: real)

  function NumberValue(n: Number): real
  {
    match n
    case IntNum(i) => i as real
    case FloatNum(x) => x
  }

  /** `(success_rate, scenes_rendered, total_scenes)`. */
  datatype LegacyRate = LegacyRate(rate: real, rendered: Number, total: int)

  /** `min(value, total)`: Python returns the first argument unless the second is smaller. */
  function MinWithTotal(value: Number, total: int): Number
  {
    if (total as real) < NumberValue(value) then IntNum(total) else value
  }

  const FixedCountName := "fixed_count"

  /**
   * `calculate_scene_success_rate` of the `src/` layout: no rate for a parse
   * error or no scene; otherwise the frames, divided by the frames per scene
   * in fixed-count mode with a positive count, capped at the scene count,
   * as a percentage of it. The rate lies in `[0, 100]` and is 100 exactly
   * when the uncapped count reaches the number of scenes.
   */
  function CalculateSceneSuccessRate(frameTotal: nat, discovered: Result<seq<string>, SceneParsingError>,
                                     framesPerScene: int, extractionMode: string): (r: LegacyRate)
    ensures discovered.Err? || |discovered.value| == 0 ==> r == LegacyRate(0.0, IntNum(0), 0)
    ensures discovered.Ok? && |discovered.value| > 0 ==>
              && r.total == |discovered.value|
              && 0.0 <= NumberValue(r.rendered) <= r.total as real
              && r.rate * (r.total as real) == 100.0 * NumberValue(r.rendered)
              && 0.0 <= r.rate <= 100.0
    ensures discovered.Ok? && |discovered.value| > 0 ==>
              var uncapped := if extractionMode == FixedCountName && framesPerScene > 0
                              then frameTotal as real / framesPerScene as real else frameTotal as real;
              (r.rate == 100.0 <==> uncapped >= |discovered.value| as real)
  {
    match discovered
    case Err(_) => LegacyRate(0.0, IntNum(0), 0)
    case Ok(scenes) =>
      var total := |scenes|;
      if total == 0 then LegacyRate(0.0, IntNum(0), 0)
      else
        var counted := if extractionMode == FixedCountName && framesPerScene > 0
                       then FloatNum(frameTotal as real / framesPerScene as real) else IntNum(frameTotal);
        var rendered := MinWithTotal(counted, total);
        RateFacts(NumberValue(rendered), total as real);
        LegacyRate((NumberValue(rendered) / total as real) * 100.0, rendered, total)
  }

  lemma RateFacts(rendered: real, total: real)
    requires 0.0 <= rendered <= total && total > 0.0
    ensures var rate := (rendered / total) * 100.0;
            && rate * total == 100.0 * rendered
            && 0.0 <= rate <= 100.0
            && (rate == 100.0 <==> rendered == total)
  {
    var rate := (rendered / total) * 100.0;
    assert rate * total == 100.0 * rendered;
    if rate == 100.0 {
      assert 100.0 * total == 100.0 * rendered;
    }
    assert rate * total <= 100.0 * total;
  }

  /**
   * After a successful render in highest-density mode the rate is 100:
   * every scene gave exactly one frame. Half as many frames as scenes in
   * fixed-count mode with two frames per scene gives a fractional count.
   */
  lemma HighestDensitySuccessIsFull(world: RenderWorld, code: string, frameCount: int, headless: bool)
    requires world.parse(code).Parsed? && SceneNames(Walk(world.parse(code).stmts)) != []
    requires LegacyMultisceneReport(world, code, "highest_density", frameCount, headless).success
    ensures var report := LegacyMultisceneReport(world, code, "highest_density", frameCount, headless);
            CalculateSceneSuccessRate(|report.frameUrls|, DiscoveredScenes(world.parse(code)), frameCount, "highest_density").rate == 100.0
  {
    var scenes := SceneNames(Walk(world.parse(code).stmts));
    OneFramePerSampledScene(world, scenes, |scenes|, frameCount);
    assert scenes[..|scenes|] == scenes;
  }

  /** Three frames at two per scene count as one and a half scenes. */
  lemma FractionalSceneCount(scenes: seq<string>)
    requires |scenes| == 2
    ensures CalculateSceneSuccessRate(3, Ok(scenes), 2, FixedCountName) == LegacyRate(75.0, FloatNum(1.5), 2)
  {
  }
}
