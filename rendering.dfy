/**
 * Scene-by-scene rendering of a generated script (`run_manim_multiscene`)
 * and the scene success rate (`calculate_scene_success_rate`), as in
 * `src/manim_generator/utils/rendering.py`.
 *
 * Everything outside the process is a parameter: how Python parses the
 * script, what `manim -ql` reports for each scene, whether the video
 * directory exists and what each scene's video holds. Writing the script
 * to disk, the console, the frame artifacts and the video clean-up are
 * not modelled.
 */
module Rendering {
  import opened Wrappers
  import opened Strings
  import opened Parsing
  import opened Frames

  /** What one `manim` subprocess reports: its output streams, its exit code, and whether it timed out. */
  datatype SceneOutcome = SceneOutcome(stdout: string, stderr: string, returnCode: int, timedOut: bool)

  /**
   * The world a render runs in: `ast.parse`, the `manim` run of each scene
   * of the saved script, whether `<media>/videos/video/480p15` exists, and
   * the video file of each scene (`None` when it does not exist).
   */
  datatype RenderWorld = RenderWorld(
    parse: string -> ParseOutcome,
    run: string -> SceneOutcome,
    videoDirExists: bool,
    video: string -> Option<Video>)

  /** A PNG kept for review: its scene-derived name and its data URL. */
  datatype NamedFrame = NamedFrame(name: string, dataUrl: string)

  /** The four values `run_manim_multiscene` returns. */
  datatype RenderReport = RenderReport(
    success: bool,
    frameUrls: seq<string>,
    logs: string,
    successfulScenes: seq<string>)

  const DataUrlPrefix: string := "data:image/png;base64,"

  /** The `frame_extraction_mode` setting, as `extract_frames_from_video` dispatches on it. */
  function ModeOf(name: string): (mode: FrameMode)
    ensures mode == HighestDensity <==> name == "highest_density"
    ensures mode == FixedCount <==> name == "fixed_count"
  {
    if name == "highest_density" then HighestDensity
    else if name == "fixed_count" then FixedCount
    else OtherMode(name)
  }

  /** `f"{scene_timeout}"`: the integer, or `None` when rendering has no timeout. */
  function TimeoutText(timeout: Option<int>): string
  {
    match timeout
    case None => "None"
    case Some(t) => IntToString(t)
  }

  /** A scene counts as rendered when it neither timed out nor exited non-zero. */
  predicate Rendered(o: SceneOutcome)
  {
    !o.timedOut && o.returnCode == 0
  }

  /**
   * The fixed text of a log entry: the scene's opening tag around its
   * standard output and standard error, its closing tag, and the timeout
   * notice.
   */
  const TagOpen: string := "<"
  const StdoutOpen: string := ">\n\t<STDOUT>\n\t\t"
  const StderrOpen: string := "\n\t</STDOUT>\n\t<STDERR>\n\t\t"
  const CloseOpen: string := "\n\t</STDERR>\n</"
  const CloseEnd: string := ">\n\n"
  const NoticeOpen: string := "<!> Scene "
  const NoticeMiddle: string := " timed out after "
  const NoticeEnd: string := " seconds\n\n"

  function TimeoutNotice(scene: string, timedOut: bool, timeout: Option<int>): string
  {
    if timedOut then NoticeOpen + scene + NoticeMiddle + TimeoutText(timeout) + NoticeEnd else ""
  }

  /** The log entry of one scene: its tagged output streams, then the timeout notice when it timed out. */
  function SceneLog(scene: string, o: SceneOutcome, timeout: Option<int>): string
  {
    TagOpen + scene + StdoutOpen + o.stdout + StderrOpen + o.stderr + CloseOpen + scene + CloseEnd
    + TimeoutNotice(scene, o.timedOut, timeout)
  }

  /** The combined log of the first `k` scenes. */
  function LogsUpTo(world: RenderWorld, scenes: seq<string>, k: nat, timeout: Option<int>): string
    requires k <= |scenes|
  {
    if k == 0 then ""
    else LogsUpTo(world, scenes, k - 1, timeout) + SceneLog(scenes[k - 1], world.run(scenes[k - 1]), timeout)
  }

  function RenderLogs(world: RenderWorld, scenes: seq<string>, timeout: Option<int>): string
  {
    LogsUpTo(world, scenes, |scenes|, timeout)
  }

  /** The scenes among the first `k` that rendered, in order. */
  function RenderedUpTo(world: RenderWorld, scenes: seq<string>, k: nat): seq<string>
    requires k <= |scenes|
  {
    if k == 0 then []
    else RenderedUpTo(world, scenes, k - 1) + (if Rendered(world.run(scenes[k - 1])) then [scenes[k - 1]] else [])
  }

  function RenderedScenes(world: RenderWorld, scenes: seq<string>): seq<string>
  {
    RenderedUpTo(world, scenes, |scenes|)
  }

  predicate AllRendered(world: RenderWorld, scenes: seq<string>)
  {
    forall k :: 0 <= k < |scenes| ==> Rendered(world.run(scenes[k]))
  }

  /** `f"{scene}_{idx + 1}"` when the video gave several frames, the scene name otherwise. */
  function FrameName(scene: string, index: nat, count: nat): string
  {
    if count > 1 then scene + "_" + NatToString(index + 1) else scene
  }

  /** The first `k` frames of one scene that encode to PNG, named by their position among all of them. */
  function EncodedFrames(scene: string, frames: seq<PixelFrame>, k: nat): seq<NamedFrame>
    requires k <= |frames|
  {
    if k == 0 then []
    else
      var piece := match frames[k - 1].png
        case None => []
        case Some(b) => [NamedFrame(FrameName(scene, k - 1, |frames|), DataUrlPrefix + b)];
      EncodedFrames(scene, frames, k - 1) + piece
  }

  /** The frames kept from one successfully rendered scene. */
  function SceneFrames(world: RenderWorld, scene: string, mode: FrameMode, frameCount: int): seq<NamedFrame>
  {
    match world.video(scene)
    case None => []
    case Some(v) =>
      match ExtractedFrames(v, mode, frameCount, MaxFrames)
      case None => []
      case Some(frames) => EncodedFrames(scene, frames, |frames|)
  }

  function FramesOf(world: RenderWorld, scenes: seq<string>, mode: FrameMode, frameCount: int): seq<NamedFrame>
  {
    if scenes == [] then []
    else
      FramesOf(world, scenes[..|scenes| - 1], mode, frameCount)
      + SceneFrames(world, scenes[|scenes| - 1], mode, frameCount)
  }

  function Urls(frames: seq<NamedFrame>): seq<string>
  {
    seq(|frames|, k requires 0 <= k < |frames| => frames[k].dataUrl)
  }

  function ParseFailureLog(message: string): string
  {
    "Code parsing failed: " + message + "\n\nGenerated code has syntax errors and cannot be executed."
  }

  /**
   * What `run_manim_multiscene` returns for a script in a given world: only a
   * script that parses can succeed, and every scene it reports as rendered is
   * one of the scene classes discovered in it.
   */
  function MultisceneReport(world: RenderWorld, code: string, mode: string, frameCount: int, timeout: Option<int>): (r: RenderReport)
    ensures r.success ==> world.parse(code).Parsed?
    ensures forall s :: s in r.successfulScenes ==>
              world.parse(code).Parsed? && s in SceneNames(Walk(world.parse(code).stmts))
  {
    match DiscoveredScenes(world.parse(code))
    case Err(e) => RenderReport(false, [], ParseFailureLog(e.message), [])
    case Ok(scenes) =>
      RenderedScenesFilter(world, scenes);
      var rendered := RenderedScenes(world, scenes);
      var frames := if world.videoDirExists then FramesOf(world, rendered, ModeOf(mode), frameCount) else [];
      RenderReport(AllRendered(world, scenes), Urls(frames), RenderLogs(world, scenes, timeout), rendered)
  }

  method EncodeFrames(scene: string, frames: seq<PixelFrame>) returns (named: seq<NamedFrame>)
    ensures named == EncodedFrames(scene, frames, |frames|)
  {
    named := [];
    var idx := 0;
    while idx < |frames|
      invariant 0 <= idx <= |frames|
      invariant named == EncodedFrames(scene, frames, idx)
    {
      var frame := frames[idx];
      if frame.png.Some? {
        named := named + [NamedFrame(FrameName(scene, idx, |frames|), DataUrlPrefix + frame.png.value)];
      }
      idx := idx + 1;
    }
  }

  /** Adds the log entry of scene `i` to the log of the scenes before it. */
  method AppendSceneLog(world: RenderWorld, scenes: seq<string>, i: nat, timeout: Option<int>, combinedLogs: string)
    returns (extended: string)
    requires i < |scenes| && combinedLogs == LogsUpTo(world, scenes, i, timeout)
    ensures extended == LogsUpTo(world, scenes, i + 1, timeout)
  {
    extended := combinedLogs + SceneLog(scenes[i], world.run(scenes[i]), timeout);
  }

  /** The scene loop: run each scene in turn, collecting the log and the scenes that rendered. */
  method RenderScenes(world: RenderWorld, scenes: seq<string>, timeout: Option<int>)
    returns (renderingSuccess: bool, combinedLogs: string, successfulScenes: seq<string>)
    ensures renderingSuccess == AllRendered(world, scenes)
    ensures combinedLogs == RenderLogs(world, scenes, timeout)
    ensures successfulScenes == RenderedScenes(world, scenes)
  {
    combinedLogs := "";
    renderingSuccess := true;
    successfulScenes := [];
    var i := 0;
    while i < |scenes|
      invariant 0 <= i <= |scenes|
      invariant combinedLogs == LogsUpTo(world, scenes, i, timeout)
      invariant successfulScenes == RenderedUpTo(world, scenes, i)
      invariant renderingSuccess == forall k :: 0 <= k < i ==> Rendered(world.run(scenes[k]))
    {
      var scene := scenes[i];
      var outcome := world.run(scene);
      combinedLogs := AppendSceneLog(world, scenes, i, timeout, combinedLogs);
      if outcome.timedOut {
        renderingSuccess := false;
      } else if outcome.returnCode != 0 {
        renderingSuccess := false;
      } else {
        successfulScenes := successfulScenes + [scene];
      }
      i := i + 1;
    }
  }

  /** The frame loop: extract and encode the frames of each successful scene whose video exists. */
  method CollectFrames(world: RenderWorld, scenes: seq<string>, mode: FrameMode, frameCount: int)
    returns (frames: seq<NamedFrame>)
    ensures frames == FramesOf(world, scenes, mode, frameCount)
  {
    frames := [];
    var j := 0;
    while j < |scenes|
      invariant 0 <= j <= |scenes|
      invariant frames == FramesOf(world, scenes[..j], mode, frameCount)
    {
      assert scenes[..j + 1][..j] == scenes[..j];
      var scene := scenes[j];
      var video := world.video(scene);
      if video.Some? {
        var extracted := ExtractFramesFromVideo(video.value, mode, frameCount, MaxFrames);
        if extracted.Some? {
          var named := EncodeFrames(scene, extracted.value);
          frames := frames + named;
        }
      }
      j := j + 1;
    }
    assert scenes[..j] == scenes;
  }

  method RunManimMultiscene(world: RenderWorld, code: string, mode: string, frameCount: int, timeout: Option<int>)
    returns (report: RenderReport)
    ensures report == MultisceneReport(world, code, mode, frameCount, timeout)
  {
    var sceneNames := ExtractSceneClassNames(world.parse(code));
    if sceneNames.Err? {
      return RenderReport(false, [], ParseFailureLog(sceneNames.error.message), []);
    }
    var renderingSuccess, combinedLogs, successfulScenes := RenderScenes(world, sceneNames.value, timeout);
    var frames: seq<NamedFrame> := [];
    if world.videoDirExists {
      frames := CollectFrames(world, successfulScenes, ModeOf(mode), frameCount);
    }
    report := RenderReport(renderingSuccess, Urls(frames), combinedLogs, successfulScenes);
  }

  // ---------------------------------------------------------------------
  // Properties of a render
  // ---------------------------------------------------------------------

  lemma {:induction false} RenderedUpToFilter(world: RenderWorld, scenes: seq<string>, k: nat)
    requires k <= |scenes|
    ensures |RenderedUpTo(world, scenes, k)| <= k
    ensures forall s :: s in RenderedUpTo(world, scenes, k) <==> s in scenes[..k] && Rendered(world.run(s))
    ensures (|RenderedUpTo(world, scenes, k)| == k) == (forall j :: 0 <= j < k ==> Rendered(world.run(scenes[j])))
    ensures (RenderedUpTo(world, scenes, k) == scenes[..k]) == (forall j :: 0 <= j < k ==> Rendered(world.run(scenes[j])))
    decreases k
  {
    if k > 0 {
      RenderedUpToFilter(world, scenes, k - 1);
      assert scenes[..k] == scenes[..k - 1] + [scenes[k - 1]];
    }
  }

  /**
   * The successful scenes are exactly the rendered ones, in the order they
   * were discovered; they are all of them exactly when as many rendered as
   * were discovered.
   */
  lemma RenderedScenesFilter(world: RenderWorld, scenes: seq<string>)
    ensures |RenderedScenes(world, scenes)| <= |scenes|
    ensures forall s :: s in RenderedScenes(world, scenes) <==> s in scenes && Rendered(world.run(s))
    ensures RenderedScenes(world, scenes) == scenes <==> AllRendered(world, scenes)
    ensures |RenderedScenes(world, scenes)| == |scenes| <==> AllRendered(world, scenes)
  {
    RenderedUpToFilter(world, scenes, |scenes|);
    assert scenes[..|scenes|] == scenes;
  }

  /**
   * A script that parses reports success exactly when every discovered
   * scene rendered; then the successful scenes are all of them.
   */
  lemma RenderSuccessIff(world: RenderWorld, code: string, mode: string, frameCount: int, timeout: Option<int>)
    requires world.parse(code).Parsed?
    ensures var report := MultisceneReport(world, code, mode, frameCount, timeout);
            var scenes := SceneNames(Walk(world.parse(code).stmts));
            && (report.success <==> forall s :: s in scenes ==> Rendered(world.run(s)))
            && (report.success <==> report.successfulScenes == scenes)
            && (forall s :: s in report.successfulScenes <==> s in scenes && Rendered(world.run(s)))
  {
    var scenes := SceneNames(Walk(world.parse(code).stmts));
    RenderedScenesFilter(world, scenes);
  }

  /** A script that does not parse renders nothing and reports why. */
  lemma ParseFailureReported(world: RenderWorld, code: string, mode: string, frameCount: int, timeout: Option<int>)
    requires world.parse(code).SyntaxError?
    ensures MultisceneReport(world, code, mode, frameCount, timeout)
            == RenderReport(false, [],
                 "Code parsing failed: " + ("Syntax error in code: " + world.parse(code).message)
                 + "\n\nGenerated code has syntax errors and cannot be executed.", [])
  {
  }

  /** A script without scene classes counts as a success with nothing rendered and an empty log. */
  lemma NoScenesVacuousSuccess(world: RenderWorld, code: string, mode: string, frameCount: int, timeout: Option<int>)
    requires world.parse(code).Parsed? && SceneNames(Walk(world.parse(code).stmts)) == []
    ensures MultisceneReport(world, code, mode, frameCount, timeout) == RenderReport(true, [], "", [])
  {
  }

  /** A missing video directory costs the frames but not the success flag. */
  lemma MissingVideoDirectory(world: RenderWorld, code: string, mode: string, frameCount: int, timeout: Option<int>)
    requires !world.videoDirExists
    ensures var report := MultisceneReport(world, code, mode, frameCount, timeout);
            report.frameUrls == []
            && report.success == MultisceneReport(world.(videoDirExists := true), code, mode, frameCount, timeout).success
  {
  }

  lemma EndsWithAppend(a: string, b: string)
    ensures EndsWith(a + b, b)
  {
    assert (a + b)[|a|..] == b;
  }

  /**
   * A scene's log entry holds its two output streams, and ends with the
   * timeout notice exactly when the scene timed out, with its closing tag
   * otherwise.
   */
  lemma SceneLogShape(scene: string, o: SceneOutcome, timeout: Option<int>)
    ensures StartsWith(SceneLog(scene, o, timeout), TagOpen + scene + StdoutOpen + o.stdout + StderrOpen + o.stderr)
    ensures o.timedOut ==>
              EndsWith(SceneLog(scene, o, timeout), NoticeOpen + scene + NoticeMiddle + TimeoutText(timeout) + NoticeEnd)
    ensures !o.timedOut ==> EndsWith(SceneLog(scene, o, timeout), scene + CloseEnd)
  {
    var streams := TagOpen + scene + StdoutOpen + o.stdout + StderrOpen + o.stderr;
    var z := streams + CloseOpen;
    var entry := z + scene + CloseEnd;
    var notice := TimeoutNotice(scene, o.timedOut, timeout);
    EndsWithAppend(entry, notice);
    AppendAssoc(z, scene, CloseEnd);
    AppendAssoc(streams, CloseOpen, scene + CloseEnd);
    AppendAssoc(streams, CloseOpen + (scene + CloseEnd), notice);
    StartsWithAppend(streams, CloseOpen + (scene + CloseEnd) + notice);
    if !o.timedOut {
      assert entry + notice == entry;
      EndsWithAppend(z, scene + CloseEnd);
    }
  }

  lemma StartsWithAppend(a: string, b: string)
    ensures StartsWith(a + b, a)
  {
    assert (a + b)[..|a|] == a;
  }

  lemma {:induction false} EncodedFramesShape(scene: string, frames: seq<PixelFrame>, k: nat)
    requires k <= |frames|
    ensures |EncodedFrames(scene, frames, k)| <= k
    ensures forall f :: f in EncodedFrames(scene, frames, k) ==>
              StartsWith(f.dataUrl, DataUrlPrefix) && StartsWith(f.name, scene)
    ensures |frames| == 1 && k == 1 && frames[0].png.Some? ==>
              EncodedFrames(scene, frames, k) == [NamedFrame(scene, DataUrlPrefix + frames[0].png.value)]
    decreases k
  {
    if k > 0 {
      EncodedFramesShape(scene, frames, k - 1);
      var n := FrameName(scene, k - 1, |frames|);
      assert StartsWith(n, scene) by {
        if |frames| > 1 {
          assert n[..|scene|] == scene;
        }
      }
      if frames[k - 1].png.Some? {
        assert (DataUrlPrefix + frames[k - 1].png.value)[..|DataUrlPrefix|] == DataUrlPrefix;
      }
    }
  }

  /**
   * Every kept frame is a PNG data URL named after a scene that rendered;
   * in highest-density mode there is at most one per rendered scene.
   */
  lemma {:induction false} FramesOfRenderedScenes(world: RenderWorld, scenes: seq<string>, mode: FrameMode, frameCount: int)
    ensures forall f :: f in FramesOf(world, scenes, mode, frameCount) ==>
              StartsWith(f.dataUrl, DataUrlPrefix) && exists s :: s in scenes && StartsWith(f.name, s)
    ensures mode == HighestDensity ==> |FramesOf(world, scenes, mode, frameCount)| <= |scenes|
    decreases |scenes|
  {
    if scenes != [] {
      var prefix := scenes[..|scenes| - 1];
      var last := scenes[|scenes| - 1];
      FramesOfRenderedScenes(world, prefix, mode, frameCount);
      assert last in scenes;
      forall s | s in prefix ensures s in scenes {
      }
      match world.video(last)
      case None =>
      case Some(v) =>
        match ExtractedFrames(v, mode, frameCount, MaxFrames)
        case None =>
        case Some(frames) =>
          EncodedFramesShape(last, frames, |frames|);
          if mode == HighestDensity {
            HighestDensityAtMostOne(v, frameCount, MaxFrames, "");
          }
    }
  }

  /** The report's frames come only from successful scenes, and only when the video directory exists. */
  lemma ReportFramesFromSuccessfulScenes(world: RenderWorld, code: string, mode: string, frameCount: int, timeout: Option<int>)
    ensures var report := MultisceneReport(world, code, mode, frameCount, timeout);
            && (forall u :: u in report.frameUrls ==> StartsWith(u, DataUrlPrefix))
            && (mode == "highest_density" ==> |report.frameUrls| <= |report.successfulScenes|)
            && (report.successfulScenes == [] ==> report.frameUrls == [])
  {
    var report := MultisceneReport(world, code, mode, frameCount, timeout);
    if DiscoveredScenes(world.parse(code)).Ok? && world.videoDirExists {
      var frames := FramesOf(world, report.successfulScenes, ModeOf(mode), frameCount);
      FramesOfRenderedScenes(world, report.successfulScenes, ModeOf(mode), frameCount);
      forall u | u in report.frameUrls ensures StartsWith(u, DataUrlPrefix) {
        var k :| 0 <= k < |frames| && frames[k].dataUrl == u;
        assert frames[k] in frames;
      }
    }
  }

  // ---------------------------------------------------------------------
  // Scene success rate
  // ---------------------------------------------------------------------

  /** `(success_rate, scenes_rendered, total_scenes)`; the rate is a percentage. */
  datatype SuccessRate = SuccessRate(rate: real, rendered: int, total: int)

  function CalculateSceneSuccessRate(successful: seq<string>, discovered: Result<seq<string>, SceneParsingError>): (r: SuccessRate)
    ensures discovered.Err? || |discovered.value| == 0 ==> r == SuccessRate(0.0, 0, 0)
    ensures discovered.Ok? && |discovered.value| > 0 ==>
              r.total == |discovered.value| && r.rendered == |successful|
              && r.rate * (r.total as real) == 100.0 * (r.rendered as real)
  {
    match discovered
    case Err(_) => SuccessRate(0.0, 0, 0)
    case Ok(scenes) =>
      if |scenes| == 0 then SuccessRate(0.0, 0, 0)
      else SuccessRate((|successful| as real / |scenes| as real) * 100.0, |successful|, |scenes|)
  }

  /**
   * The rate is 100 exactly when as many scenes rendered as were found,
   * lies in `[0, 100]` when no more rendered than were found, and is 0
   * when none rendered.
   */
  lemma SuccessRateBounds(successful: seq<string>, scenes: seq<string>)
    requires |scenes| > 0
    ensures var r := CalculateSceneSuccessRate(successful, Ok(scenes));
            && (r.rate == 100.0 <==> |successful| == |scenes|)
            && (|successful| <= |scenes| ==> 0.0 <= r.rate <= 100.0)
            && (|successful| == 0 <==> r.rate == 0.0)
  {
    var r := CalculateSceneSuccessRate(successful, Ok(scenes));
    var t, n := |scenes| as real, |successful| as real;
    assert r.rate * t == 100.0 * n;
    if r.rate == 100.0 {
      assert 100.0 * t == 100.0 * n;
    }
    if |successful| <= |scenes| {
      assert r.rate * t <= 100.0 * t;
    }
  }

  /** After a render, the rate is 100 exactly when the render succeeded with at least one scene. */
  lemma RateOfReport(world: RenderWorld, code: string, mode: string, frameCount: int, timeout: Option<int>)
    ensures var report := MultisceneReport(world, code, mode, frameCount, timeout);
            var r := CalculateSceneSuccessRate(report.successfulScenes, DiscoveredScenes(world.parse(code)));
            r.rate == 100.0 <==> report.success && r.total > 0
  {
    var report := MultisceneReport(world, code, mode, frameCount, timeout);
    if world.parse(code).Parsed? {
      var scenes := SceneNames(Walk(world.parse(code).stmts));
      RenderedScenesFilter(world, scenes);
      if |scenes| > 0 {
        SuccessRateBounds(report.successfulScenes, scenes);
      }
    }
  }
}
