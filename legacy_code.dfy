/**
 * Code helpers of the first layout of the project (`utils/code.py`): scene
 * discovery by the regular expression `class\s+(\w+)\(.*Scene.*\):` and a
 * runner that renders each scene's last frame and collects every PNG of
 * the images directory. Fenced-block extraction uses the same expression as
 * the package (`Parsing.ParseCodeBlock`).
 */
module LegacyCode {
  import opened Wrappers
  import opened Strings
  import Parsing
  import Rendering

  /** `\w` on ASCII text: letters, digits and the underscore. */
  predicate IsWordChar(c: char)
  {
    ('a' <= c <= 'z') || ('A' <= c <= 'Z') || ('0' <= c <= '9') || c == '_'
  }

  /** The end of the whitespace run starting at `i`. */
  function SpaceEnd(s: string, i: nat): (j: nat)
    requires i <= |s|
    ensures i <= j <= |s|
    ensures forall k :: i <= k < j ==> IsSpace(s[k])
    ensures j == |s| || !IsSpace(s[j])
    decreases |s| - i
  {
    if i < |s| && IsSpace(s[i]) then SpaceEnd(s, i + 1) else i
  }

  /** The end of the word run starting at `i`. */
  function WordEnd(s: string, i: nat): (j: nat)
    requires i <= |s|
    ensures i <= j <= |s|
    ensures forall k :: i <= k < j ==> IsWordChar(s[k])
    ensures j == |s| || !IsWordChar(s[j])
    decreases |s| - i
  {
    if i < |s| && IsWordChar(s[i]) then WordEnd(s, i + 1) else i
  }

  /** The end of the line holding position `i`: the next newline, or the end of the text. */
  function LineEnd(s: string, i: nat): (j: nat)
    requires i <= |s|
    ensures i <= j <= |s|
    ensures forall k :: i <= k < j ==> s[k] != '\n'
    ensures j == |s| || s[j] == '\n'
    decreases |s| - i
  {
    if i < |s| && s[i] != '\n' then LineEnd(s, i + 1) else i
  }

  /** The first occurrence of `sub` inside `s[lo..hi]`. */
  function FirstOccurrence(s: string, sub: string, lo: nat, hi: nat): (a: Option<nat>)
    requires lo <= hi <= |s|
    ensures a.Some? ==> lo <= a.value && a.value + |sub| <= hi && OccursAt(s, sub, a.value)
    ensures a.Some? ==> (forall b :: lo <= b < a.value ==> !OccursAt(s, sub, b))
    ensures a.None? ==> (forall b :: lo <= b && b + |sub| <= hi ==> !OccursAt(s, sub, b))
    decreases hi - lo
  {
    if lo + |sub| > hi then None
    else if OccursAt(s, sub, lo) then Some(lo)
    else FirstOccurrence(s, sub, lo + 1, hi)
  }

  /** The last occurrence of `sub` inside `s[lo..hi]`. */
  function LastOccurrence(s: string, sub: string, lo: nat, hi: nat): (a: Option<nat>)
    requires lo <= hi <= |s|
    ensures a.Some? ==> lo <= a.value && a.value + |sub| <= hi && OccursAt(s, sub, a.value)
    ensures a.Some? ==> (forall b :: a.value < b && b + |sub| <= hi ==> !OccursAt(s, sub, b))
    ensures a.None? ==> (forall b :: lo <= b && b + |sub| <= hi ==> !OccursAt(s, sub, b))
    decreases hi
  {
    if lo + |sub| > hi then None
    else if OccursAt(s, sub, hi - |sub|) then Some(hi - |sub|)
    else LastOccurrence(s, sub, lo, hi - 1)
  }

  /** A match of the class pattern: the bounds of the captured name and where the match ends. */
  datatype ClassMatch = ClassMatch(nameStart: nat, nameEnd: nat, end: nat)

  const ClassKeyword := "class"
  const SceneWord := "Scene"
  const CloseColon := "):"

  /**
   * The pattern tried at position `p`. `\s+` and `\w+` can only match their
   * maximal runs, since neither class holds the character that follows; `.`
   * stops at a newline, so "Scene" and a later "):" must lie on the line of
   * the opening parenthesis, and the greedy `.*` makes the match end at that
   * line's last "):".
   */
  function MatchAt(s: string, p: nat): (m: Option<ClassMatch>)
    requires p <= |s|
    ensures m.Some? ==> p < m.value.nameStart < m.value.nameEnd < m.value.end <= |s|
    ensures m.Some? ==> OccursAt(s, ClassKeyword, p)
    ensures m.Some? ==> (forall k :: m.value.nameStart <= k < m.value.nameEnd ==> IsWordChar(s[k]))
  {
    if !OccursAt(s, ClassKeyword, p) then None
    else MatchName(s, p, SpaceEnd(s, p + |ClassKeyword|))
  }

  /** `\s+(\w+)` after the keyword: at least one space, then the name. */
  function MatchName(s: string, p: nat, nameStart: nat): (m: Option<ClassMatch>)
    requires p + |ClassKeyword| <= nameStart <= |s|
    ensures m.Some? ==> nameStart == m.value.nameStart < m.value.nameEnd < m.value.end <= |s|
    ensures m.Some? ==> (forall k :: m.value.nameStart <= k < m.value.nameEnd ==> IsWordChar(s[k]))
  {
    if nameStart == p + |ClassKeyword| then None
    else MatchParen(s, nameStart, WordEnd(s, nameStart))
  }

  /** `\(` right after a non-empty name, then the rest of the line. */
  function MatchParen(s: string, nameStart: nat, nameEnd: nat): (m: Option<ClassMatch>)
    requires nameStart <= nameEnd <= |s|
    requires forall k :: nameStart <= k < nameEnd ==> IsWordChar(s[k])
    ensures m.Some? ==> nameStart == m.value.nameStart < m.value.nameEnd < m.value.end <= |s|
    ensures m.Some? ==> nameEnd == m.value.nameEnd
  {
    if nameEnd == nameStart || nameEnd == |s| || s[nameEnd] != '(' then None
    else MatchLine(s, nameStart, nameEnd, LineEnd(s, nameEnd + 1))
  }

  /** `.*Scene.*\):` within the line: "Scene", then the line's last "):". */
  function MatchLine(s: string, nameStart: nat, nameEnd: nat, lineEnd: nat): (m: Option<ClassMatch>)
    requires nameStart < nameEnd < lineEnd + 1 <= |s| + 1 && nameEnd + 1 <= lineEnd
    ensures m.Some? ==> m == Some(ClassMatch(nameStart, nameEnd, m.value.end)) && nameEnd < m.value.end <= lineEnd
  {
    var scene := FirstOccurrence(s, SceneWord, nameEnd + 1, lineEnd);
    var close := LastOccurrence(s, CloseColon, nameEnd + 1, lineEnd);
    if scene.Some? && close.Some? && scene.value + |SceneWord| <= close.value then
      Some(ClassMatch(nameStart, nameEnd, close.value + |CloseColon|))
    else None
  }

  /** `findall` from position `p`: after a match the scan resumes at its end. */
  function FindAll(s: string, p: nat): (names: seq<string>)
    requires p <= |s|
    ensures forall k :: 0 <= k < |names| ==> names[k] != []
    ensures forall k, i :: 0 <= k < |names| && 0 <= i < |names[k]| ==> IsWordChar(names[k][i])
    decreases |s| - p
  {
    if p == |s| then []
    else match MatchAt(s, p)
      case Some(m) =>
        var name := s[m.nameStart..m.nameEnd];
        assert forall i :: 0 <= i < |name| ==> IsWordChar(name[i]) by {
          forall i | 0 <= i < |name| ensures IsWordChar(name[i]) {
            assert name[i] == s[m.nameStart + i];
          }
        }
        WordNamesCons(name, FindAll(s, m.end));
        [name] + FindAll(s, m.end)
      case None => FindAll(s, p + 1)
  }

  /** A non-empty word put in front of non-empty words keeps them all non-empty words. */
  lemma WordNamesCons(name: string, rest: seq<string>)
    requires name != [] && forall i :: 0 <= i < |name| ==> IsWordChar(name[i])
    requires forall k :: 0 <= k < |rest| ==> rest[k] != []
    requires forall k, i :: 0 <= k < |rest| && 0 <= i < |rest[k]| ==> IsWordChar(rest[k][i])
    ensures forall k :: 0 <= k < |[name] + rest| ==> ([name] + rest)[k] != []
    ensures forall k, i :: 0 <= k < |[name] + rest| && 0 <= i < |([name] + rest)[k]| ==> IsWordChar(([name] + rest)[k][i])
  {
    forall k | 0 < k < |[name] + rest| ensures ([name] + rest)[k] == rest[k - 1] {
    }
  }

  /**
   * `extract_scene_class_names`: the names of the classes whose definition
   * line matches, in textual order. Every name is a non-empty word, and a
   * text without the word "class" lists none (see `NoKeywordNoScenes`).
   */
  function ExtractSceneClassNames(code: string): (names: seq<string>)
    ensures forall k :: 0 <= k < |names| ==> names[k] != []
    ensures forall k, i :: 0 <= k < |names| && 0 <= i < |names[k]| ==> IsWordChar(names[k][i])
  {
    FindAll(code, 0)
  }

  lemma {:induction false} NoKeywordFrom(s: string, p: nat)
    requires p <= |s| && !Contains(s, ClassKeyword)
    ensures FindAll(s, p) == []
    decreases |s| - p
  {
    if p < |s| {
      assert !OccursAt(s, ClassKeyword, p);
      NoKeywordFrom(s, p + 1);
    }
  }

  /** Without the word "class" nothing is listed; discovery never reports an error. */
  lemma NoKeywordNoScenes(code: string)
    requires !Contains(code, ClassKeyword)
    ensures ExtractSceneClassNames(code) == []
  {
    NoKeywordFrom(code, 0);
  }

  const ClassSpace := "class "

  lemma WordCharIsNotSpace(c: char)
    requires IsWordChar(c)
    ensures !IsSpace(c) && c != '(' && c != '\n'
  {
  }

  /** The keyword, one space and a word followed by `(`: the name is that word. */
  lemma NameAfterKeyword(s: string, name: string)
    requires name != [] && forall i :: 0 <= i < |name| ==> IsWordChar(name[i])
    requires |s| > 6 + |name| && s[..6] == ClassSpace && s[6..6 + |name|] == name && s[6 + |name|] == '('
    ensures OccursAt(s, ClassKeyword, 0)
    ensures SpaceEnd(s, 5) == 6 && WordEnd(s, 6) == 6 + |name|
  {
    var n := |name|;
    assert s[..6][..5] == ClassKeyword;
    assert s[5] == s[..6][5];
    assert s[6] == name[0];
    WordCharIsNotSpace(name[0]);
    assert SpaceEnd(s, 6) == 6;
    assert forall k :: 6 <= k < 6 + n ==> s[k] == name[k - 6];
  }

  /**
   * A line that runs to the end of the text, mentions "Scene" and ends with
   * "):": the greedy match ends at the end of the text.
   */
  lemma SceneLineToEnd(s: string, from: nat, a: nat)
    requires from + 2 <= |s| && forall k :: from <= k < |s| ==> s[k] != '\n'
    requires from <= a && a + 5 <= |s| - 2 && OccursAt(s, SceneWord, a)
    requires s[|s| - 2..] == CloseColon
    ensures LineEnd(s, from) == |s|
    ensures var scene := FirstOccurrence(s, SceneWord, from, |s|); scene.Some? && scene.value + 5 <= |s| - 2
    ensures LastOccurrence(s, CloseColon, from, |s|) == Some(|s| - 2)
  {
    assert OccursAt(s, CloseColon, |s| - 2);
  }

  /** A match from the start to the end of the text lists exactly its name. */
  lemma WholeTextMatch(s: string, m: ClassMatch)
    requires MatchAt(s, 0) == Some(m) && m.end == |s|
    ensures ExtractSceneClassNames(s) == [s[m.nameStart..m.nameEnd]]
  {
    assert FindAll(s, |s|) == [];
  }

  /** The characters after the opening parenthesis of `class N(B):`. */
  lemma BaseLine(s: string, from: nat, base: string)
    requires from <= |s| && s[from..] == base + CloseColon && '\n' !in base
    ensures forall k :: from <= k < |s| ==> s[k] != '\n'
    ensures s[|s| - 2..] == CloseColon
    ensures forall j :: 0 <= j && j + 5 <= |base| && OccursAt(base, SceneWord, j) ==> OccursAt(s, SceneWord, from + j)
  {
    forall k | from <= k < |s| ensures s[k] != '\n' {
      assert s[k] == (base + CloseColon)[k - from];
    }
    assert s[|s| - 2..] == s[from..][|base|..];
    forall j | 0 <= j && j + 5 <= |base| && OccursAt(base, SceneWord, j) ensures OccursAt(s, SceneWord, from + j) {
      assert s[from + j..from + j + 5] == s[from..][j..j + 5];
    }
  }

  /** The line part of the pattern matches once "Scene" and a later "):" are located. */
  lemma MatchLineOf(s: string, nameStart: nat, nameEnd: nat, lineEnd: nat, scene: nat, close: nat)
    requires nameStart < nameEnd && nameEnd + 1 <= lineEnd <= |s|
    requires FirstOccurrence(s, SceneWord, nameEnd + 1, lineEnd) == Some(scene)
    requires LastOccurrence(s, CloseColon, nameEnd + 1, lineEnd) == Some(close)
    requires scene + |SceneWord| <= close
    ensures MatchLine(s, nameStart, nameEnd, lineEnd) == Some(ClassMatch(nameStart, nameEnd, close + |CloseColon|))
  {
  }

  /** After `class N(`, a rest of the line `B):` with "Scene" in B matches up to the end of the text. */
  lemma LineStage(s: string, n: nat, base: string)
    requires 0 < n && '\n' !in base && Contains(base, SceneWord)
    requires |s| == 6 + n + 1 + |base| + 2 && s[6 + n + 1..] == base + CloseColon
    ensures LineEnd(s, 6 + n + 1) == |s|
    ensures MatchLine(s, 6, 6 + n, |s|) == Some(ClassMatch(6, 6 + n, |s|))
  {
    var from := 6 + n + 1;
    BaseLine(s, from, base);
    var j :| 0 <= j <= |base| && OccursAt(base, SceneWord, j);
    SceneLineToEnd(s, from, from + j);
    MatchLineOf(s, 6, 6 + n, |s|, FirstOccurrence(s, SceneWord, from, |s|).value, |s| - 2);
  }

  /** The pattern matches the whole of a text laid out as `class N(B):`. */
  lemma OneLineMatch(s: string, name: string, base: string)
    requires name != [] && forall i :: 0 <= i < |name| ==> IsWordChar(name[i])
    requires '\n' !in base && Contains(base, SceneWord)
    requires |s| == 6 + |name| + 1 + |base| + 2
    requires s[..6] == ClassSpace && s[6..6 + |name|] == name && s[6 + |name|] == '('
    requires s[6 + |name| + 1..] == base + CloseColon
    ensures MatchAt(s, 0) == Some(ClassMatch(6, 6 + |name|, |s|))
  {
    var n := |name|;
    var m := Some(ClassMatch(6, 6 + n, |s|));
    LineStage(s, n, base);
    NameAfterKeyword(s, name);
    assert MatchParen(s, 6, 6 + n) == m;
    assert MatchName(s, 0, 6) == m;
  }

  /**
   * A one-line definition `class N(B):` is listed as `[N]` whenever the
   * base text B mentions "Scene" anywhere on the line, whatever else it
   * holds.
   */
  lemma OneLineDefinitionListed(name: string, base: string)
    requires name != [] && forall i :: 0 <= i < |name| ==> IsWordChar(name[i])
    requires '\n' !in base && Contains(base, SceneWord)
    ensures ExtractSceneClassNames(ClassSpace + name + "(" + base + CloseColon) == [name]
  {
    var s := ClassSpace + name + "(" + base + CloseColon;
    var n := |name|;
    assert s == ClassSpace + name + "(" + (base + CloseColon);
    assert s[..6] == ClassSpace && s[6..6 + n] == name && s[6 + n] == '(';
    assert s[6 + n + 1..] == base + CloseColon;
    OneLineMatch(s, name, base);
    WholeTextMatch(s, ClassMatch(6, 6 + n, |s|));
  }

  /**
   * The regular expression accepts a base that merely contains "Scene",
   * such as `SceneHelper`, which the package's discovery (a base whose
   * final identifier ends with "Scene") rejects.
   */
  lemma SceneHelperContrast(name: string)
    requires name != [] && forall i :: 0 <= i < |name| ==> IsWordChar(name[i])
    ensures ExtractSceneClassNames(ClassSpace + name + "(" + "SceneHelper" + CloseColon) == [name]
    ensures !Parsing.IsSceneBase(Parsing.NameRef("SceneHelper"))
  {
    SceneHelperMentionsScene();
    OneLineDefinitionListed(name, "SceneHelper");
    SceneHelperIsNoSceneBase();
  }

  lemma SceneHelperMentionsScene()
    ensures Contains("SceneHelper", SceneWord)
  {
    assert "SceneHelper"[0..5] == SceneWord;
    assert OccursAt("SceneHelper", SceneWord, 0);
  }

  lemma SceneHelperIsNoSceneBase()
    ensures !Parsing.IsSceneBase(Parsing.NameRef("SceneHelper"))
  {
    assert "SceneHelper"[6..] != SceneWord by { assert "SceneHelper"[6] == 'e'; }
  }

  // ---------------------------------------------------------------------
  // run_manim_multiscene
  // ---------------------------------------------------------------------

  /**
   * What the renderer and the file system give the runner: the outcome of
   * `manim` for each scene (without a timeout), whether the images
   * directory exists, and what became of each PNG the directory walk meets,
   * in walk order.
   */
  datatype ImageWorld = ImageWorld(run: string -> Rendering.SceneOutcome, imagesDirExists: bool, pngs: seq<PngFile>)

  /**
   * One PNG of the walk: reading it failed, or it was read (its Base64
   * text) and then its removal succeeded or failed. The read and the
   * removal share one `try`, so a failed removal keeps the frame.
   */
  datatype PngFile = Unreadable | Read(data: string, removed: bool)

  const LiteralBreaks := "\\n\\n"
  const SceneLabel := "Scene: "
  const StdoutLabel := "\nSTDOUT:\n"
  const StderrLabel := "\nSTDERR:\n"
  const EntryEnd := "\n\n"

  /** One scene's log entry; the literal text `\n\n` (a backslash, an n, twice) is removed from both streams. */
  function LogEntry(scene: string, o: Rendering.SceneOutcome): string
  {
    SceneLabel + scene + StdoutLabel + ReplaceAll(o.stdout, LiteralBreaks, "")
    + StderrLabel + ReplaceAll(o.stderr, LiteralBreaks, "") + EntryEnd
  }

  /** The entries of the first `k` scenes. */
  function LogsUpTo(world: ImageWorld, scenes: seq<string>, k: nat): string
    requires k <= |scenes|
  {
    if k == 0 then "" else LogsUpTo(world, scenes, k - 1) + LogEntry(scenes[k - 1], world.run(scenes[k - 1]))
  }

  /** The data URLs of the PNGs that were read, in walk order. */
  function ReadFrames(pngs: seq<PngFile>): (frames: seq<string>)
    ensures |frames| <= |pngs|
    ensures (forall j :: 0 <= j < |pngs| ==> pngs[j].Read?) ==> |frames| == |pngs|
    ensures forall j :: 0 <= j < |frames| ==> StartsWith(frames[j], Rendering.DataUrlPrefix)
  {
    if pngs == [] then []
    else
      var last := pngs[|pngs| - 1];
      ReadFrames(pngs[..|pngs| - 1])
      + (if last.Read? then [Rendering.DataUrlPrefix + last.data] else [])
  }

  /** Each of the first `k` scenes exited with code 0. */
  predicate AllExitedZero(world: ImageWorld, scenes: seq<string>, k: nat)
    requires k <= |scenes|
  {
    k == 0 || (AllExitedZero(world, scenes, k - 1) && world.run(scenes[k - 1]).returnCode == 0)
  }

  /** Each of the first `k` PNGs was read and then removed. */
  predicate AllHandled(pngs: seq<PngFile>, k: nat)
    requires k <= |pngs|
  {
    k == 0 || (AllHandled(pngs, k - 1) && pngs[k - 1].Read? && pngs[k - 1].removed)
  }

  /**
   * `run_manim_multiscene`: the success flag, the frames and the combined
   * log. The flag is false exactly when a scene exited non-zero, the images
   * directory is missing, or a PNG could not be read or removed; every PNG
   * found becomes a frame when its read succeeds, whether or not its scene
   * did and whether or not its removal did.
   */
  method RunManimMultiscene(world: ImageWorld, code: string) returns (success: bool, frames: seq<string>, logs: string)
    ensures var scenes := ExtractSceneClassNames(code);
            && logs == LogsUpTo(world, scenes, |scenes|)
            && (success <==> AllExitedZero(world, scenes, |scenes|) && world.imagesDirExists && AllHandled(world.pngs, |world.pngs|))
            && frames == (if world.imagesDirExists then ReadFrames(world.pngs) else [])
  {
    var scenes := ExtractSceneClassNames(code);
    logs := "";
    success := true;
    for i := 0 to |scenes|
      invariant logs == LogsUpTo(world, scenes, i)
      invariant success <==> AllExitedZero(world, scenes, i)
    {
      var outcome := world.run(scenes[i]);
      logs := logs + LogEntry(scenes[i], outcome);
      if outcome.returnCode != 0 {
        success := false;
      }
    }
    if world.imagesDirExists {
      var allHandled;
      frames, allHandled := EncodePngs(world.pngs);
      success := success && allHandled;
    } else {
      frames := [];
      success := false;
    }
  }

  /** What `run_manim_multiscene` returns for a script in a world: flag, frames and log. */
  datatype CodeReport = CodeReport(success: bool, frames: seq<string>, logs: string)

  function MultisceneReport(world: ImageWorld, code: string): CodeReport
  {
    var scenes := ExtractSceneClassNames(code);
    CodeReport(AllExitedZero(world, scenes, |scenes|) && world.imagesDirExists && AllHandled(world.pngs, |world.pngs|),
               if world.imagesDirExists then ReadFrames(world.pngs) else [],
               LogsUpTo(world, scenes, |scenes|))
  }

  /**
   * The walk over the images directory: one data URL per PNG read, in walk
   * order, and a flag that a failed read or a failed removal clears.
   */
  method EncodePngs(pngs: seq<PngFile>) returns (frames: seq<string>, allHandled: bool)
    ensures frames == ReadFrames(pngs)
    ensures allHandled <==> AllHandled(pngs, |pngs|)
  {
    frames := [];
    allHandled := true;
    for j := 0 to |pngs|
      invariant frames == ReadFrames(pngs[..j])
      invariant allHandled <==> AllHandled(pngs, j)
    {
      assert pngs[..j + 1][..j] == pngs[..j];
      match pngs[j]
      case Read(data, removed) =>
        frames := frames + [Rendering.DataUrlPrefix + data];
        if !removed {
          allHandled := false;
        }
      case Unreadable =>
        allHandled := false;
    }
    assert pngs[..|pngs|] == pngs;
  }

  /**
   * A PNG that was read but could not be removed still becomes a frame, yet
   * the run no longer counts as a success.
   */
  lemma RemovalFailureKeepsFrame(world: ImageWorld, code: string, data: string)
    requires world.imagesDirExists && world.pngs == [Read(data, false)]
    ensures MultisceneReport(world, code).frames == [Rendering.DataUrlPrefix + data]
    ensures !MultisceneReport(world, code).success
  {
    assert world.pngs[..0] == [];
  }

  /** A stream without the literal `\n\n` text appears in its entry unchanged. */
  lemma PlainStreamsKept(scene: string, o: Rendering.SceneOutcome)
    requires !Contains(o.stdout, LiteralBreaks) && !Contains(o.stderr, LiteralBreaks)
    ensures LogEntry(scene, o) == SceneLabel + scene + StdoutLabel + o.stdout + StderrLabel + o.stderr + EntryEnd
  {
    ReplaceAllAbsent(o.stdout, LiteralBreaks, "");
    ReplaceAllAbsent(o.stderr, LiteralBreaks, "");
  }
}
