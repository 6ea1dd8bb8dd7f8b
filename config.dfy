/**
 * The pure rules of configuration building (`src/manim_generator/utils/config.py`):
 * the reasoning-flag check, the reasoning dictionary, the scene timeout,
 * vision, the automatic output directory and the two settings-table
 * formatters. Argument parsing, file reading, `supports_vision` and the
 * confirmation prompt are left to the caller, which passes their results.
 */
module Config {
  import opened Wrappers
  import opened Strings
  import Llm

  /** The defaults that the rest of the model relies on. */
  const DefaultReviewCycles := 4
  const DefaultSuccessThreshold := 100
  const DefaultFrameExtractionMode := "highest_density"
  const DefaultFrameCount := 3
  const DefaultSceneTimeout := 120

  /** What `exit(1)` ends the run with. */
  const ExitFailure := 1

  function EffortGiven(effort: Option<string>): bool
  {
    effort.Some? && effort.value != ""
  }

  function MaxTokensGiven(maxTokens: Option<int>): bool
  {
    maxTokens.Some? && maxTokens.value != 0
  }

  /** `_validate_reasoning_arguments`: giving both an effort and a token budget ends the run with status 1. */
  function ValidateReasoningArguments(effort: Option<string>, maxTokens: Option<int>): (r: Result<(), int>)
    ensures r.Err? <==> EffortGiven(effort) && MaxTokensGiven(maxTokens)
    ensures r.Err? ==> r.error == ExitFailure
  {
    if EffortGiven(effort) && MaxTokensGiven(maxTokens) then Err(ExitFailure) else Ok(())
  }

  /**
   * `reasoning` is the dictionary `_build_config` makes of the flags: one
   * key per flag that was given (truthy), holding that flag's value, and
   * None when no flag was given.
   */
  predicate IsReasoningOf(effort: Option<string>, maxTokens: Option<int>, exclude: bool,
                          reasoning: Option<Llm.Reasoning>)
  {
    && (reasoning.None? <==> !EffortGiven(effort) && !MaxTokensGiven(maxTokens) && !exclude)
    && (reasoning.Some? ==>
          && ("effort" in reasoning.value <==> EffortGiven(effort))
          && ("max_tokens" in reasoning.value <==> MaxTokensGiven(maxTokens))
          && ("exclude" in reasoning.value <==> exclude)
          && reasoning.value.Keys <= {"effort", "max_tokens", "exclude"}
          && (EffortGiven(effort) ==> reasoning.value["effort"] == Llm.Effort(effort.value))
          && (MaxTokensGiven(maxTokens) ==> reasoning.value["max_tokens"] == Llm.MaxTokens(maxTokens.value))
          && (exclude ==> reasoning.value["exclude"] == Llm.Exclude(true)))
  }

  /** The flags determine the reasoning dictionary: two dictionaries made of the same flags are equal. */
  lemma ReasoningDetermined(effort: Option<string>, maxTokens: Option<int>, exclude: bool,
                            a: Option<Llm.Reasoning>, b: Option<Llm.Reasoning>)
    requires IsReasoningOf(effort, maxTokens, exclude, a) && IsReasoningOf(effort, maxTokens, exclude, b)
    ensures a == b
  {
    if a.Some? {
      assert a.value.Keys == b.value.Keys;
      assert forall k :: k in a.value ==> a.value[k] == b.value[k];
      assert a.value == b.value;
    }
  }

  /**
   * The reasoning dictionary of `_build_config`: each flag that was given
   * (truthy) adds its key, and a dictionary left empty becomes None.
   */
  method BuildReasoningConfig(effort: Option<string>, maxTokens: Option<int>, exclude: bool)
    returns (reasoning: Option<Llm.Reasoning>)
    ensures reasoning.None? <==> !EffortGiven(effort) && !MaxTokensGiven(maxTokens) && !exclude
    ensures reasoning.Some? ==>
              ("effort" in reasoning.value <==> EffortGiven(effort))
              && ("max_tokens" in reasoning.value <==> MaxTokensGiven(maxTokens))
              && ("exclude" in reasoning.value <==> exclude)
              && reasoning.value.Keys <= {"effort", "max_tokens", "exclude"}
    ensures reasoning.Some? && EffortGiven(effort) ==> reasoning.value["effort"] == Llm.Effort(effort.value)
    ensures reasoning.Some? && MaxTokensGiven(maxTokens) ==> reasoning.value["max_tokens"] == Llm.MaxTokens(maxTokens.value)
    ensures reasoning.Some? && exclude ==> reasoning.value["exclude"] == Llm.Exclude(true)
    ensures IsReasoningOf(effort, maxTokens, exclude, reasoning)
  {
    var reasoningConfig: Llm.Reasoning := map[];
    if EffortGiven(effort) {
      reasoningConfig := reasoningConfig["effort" := Llm.Effort(effort.value)];
    }
    if MaxTokensGiven(maxTokens) {
      reasoningConfig := reasoningConfig["max_tokens" := Llm.MaxTokens(maxTokens.value)];
    }
    if exclude {
      reasoningConfig := reasoningConfig["exclude" := Llm.Exclude(true)];
    }
    assert EffortGiven(effort) ==> "effort" in reasoningConfig;
    assert MaxTokensGiven(maxTokens) ==> "max_tokens" in reasoningConfig;
    assert exclude ==> "exclude" in reasoningConfig;
    reasoning := if reasoningConfig != map[] then Some(reasoningConfig) else None;
  }

  /** A scene timeout of 0 disables the limit; any other value is kept. */
  function SceneTimeout(sceneTimeout: int): (r: Option<int>)
    ensures r.None? <==> sceneTimeout == 0
    ensures r.Some? ==> r.value == sceneTimeout
  {
    if sceneTimeout == 0 then None else Some(sceneTimeout)
  }

  /** Vision is on only when both models support it, or when it is forced. */
  function VisionEnabled(mainSupportsVision: bool, reviewSupportsVision: bool, forceVision: bool): (enabled: bool)
    ensures enabled <==> forceVision || (mainSupportsVision && reviewSupportsVision)
  {
    (mainSupportsVision || forceVision) && (reviewSupportsVision || forceVision)
  }

  /**
   * The first at most four words of the description, joined by `_`, else
   * "output": the description part of a directory name is never empty.
   */
  function ShortFileDescription(videoData: string): (r: string)
    ensures r != []
    ensures SplitWhitespace(videoData) == [] ==> r == "output"
  {
    var words := SplitWhitespace(videoData);
    var first := if |words| <= 4 then words else words[..4];
    if first == [] then "output"
    else
      SplitWhitespaceWords(videoData);
      assert first[0] == words[0];
      var j := Join(first, "_");
      assert j != [];
      var a := ReplaceAll(j, "\n", "_");
      assert a != [];
      var b := ReplaceAll(a, "\r", "_");
      assert b != [];
      ReplaceAll(b, " ", "_")
  }

  /**
   * The model name in a directory name: every `openrouter/` removed, then
   * each remaining slash turned into `_`, one character for one. A model
   * name without a slash is used as it is.
   */
  function ModelDirectoryName(model: string): (r: string)
    ensures '/' !in model ==> r == model
    ensures var s := ReplaceAll(model, "openrouter/", "");
            |r| == |s| && forall i :: 0 <= i < |s| ==> r[i] == (if s[i] == '/' then '_' else s[i])
  {
    ModelNameRewrite(model);
    ReplaceAll(ReplaceAll(model, "openrouter/", ""), "/", "_")
  }

  lemma ModelNameRewrite(model: string)
    ensures '/' !in model ==> ReplaceAll(ReplaceAll(model, "openrouter/", ""), "/", "_") == model
    ensures var s := ReplaceAll(model, "openrouter/", "");
            var r := ReplaceAll(s, "/", "_");
            |r| == |s| && forall i :: 0 <= i < |s| ==> r[i] == (if s[i] == '/' then '_' else s[i])
  {
    if '/' !in model {
      MissingCharNotContained(model, "openrouter/", '/');
      ReplaceAllAbsent(model, "openrouter/", "");
      MissingCharNotContained(model, "/", '/');
      ReplaceAllAbsent(model, "/", "_");
    }
    ReplaceCharMap(ReplaceAll(model, "openrouter/", ""), '/', '_');
  }

  /** A leading `openrouter/` is dropped: the name is that of the rest. */
  lemma OpenRouterPrefixDropped(m: string)
    ensures ModelDirectoryName("openrouter/" + m) == ModelDirectoryName(m)
  {
    var p := "openrouter/";
    var s := p + m;
    assert s[..|p|] == p && s[|p|..] == m;
    assert ReplaceAll(s, p, "") == ReplaceAll(m, p, "");
  }

  /**
   * The output directory: the one given, else
   * `output/<model>_<description>_<timestamp>`. The clock reading is passed
   * in as the formatted timestamp.
   */
  function OutputDirectory(outputDir: Option<string>, videoData: string, model: string, timestamp: string): (dir: string)
    ensures outputDir.Some? && outputDir.value != "" ==> dir == outputDir.value
    ensures !(outputDir.Some? && outputDir.value != "") ==>
              dir == "output/" + ModelDirectoryName(model) + "_" + ShortFileDescription(videoData) + "_" + timestamp
  {
    if outputDir.Some? && outputDir.value != "" then outputDir.value
    else "output/" + ModelDirectoryName(model) + "_" + ShortFileDescription(videoData) + "_" + timestamp
  }

  /** Replacing a one-character pattern by a text without it leaves no occurrence of the character. */
  lemma {:induction false} ReplaceCharRemoves(s: string, c: char, replacement: string)
    requires c !in replacement
    ensures c !in ReplaceAll(s, [c], replacement)
    decreases |s|
  {
    if |s| >= 1 {
      ReplaceCharRemoves(s[1..], c, replacement);
      if s[..1] == [c] {
        assert s[1..] == s[|[c]|..];
      } else {
        assert s[0] != c;
      }
    }
  }

  /** Replacing one character by another maps the text character by character. */
  lemma {:induction false} ReplaceCharMap(s: string, c: char, d: char)
    ensures var r := ReplaceAll(s, [c], [d]);
            |r| == |s| && forall i :: 0 <= i < |s| ==> r[i] == (if s[i] == c then d else s[i])
    decreases |s|
  {
    if |s| >= 1 {
      ReplaceCharMap(s[1..], c, d);
      var rest := ReplaceAll(s[1..], [c], [d]);
      if s[..1] == [c] {
        assert s[|[c]|..] == s[1..];
        assert ReplaceAll(s, [c], [d]) == [d] + rest;
      } else {
        assert s[0] != c;
        assert ReplaceAll(s, [c], [d]) == [s[0]] + rest;
      }
    }
  }

  /** A character absent from a text stays absent when a pattern is replaced by a text without it. */
  lemma {:induction false} ReplaceKeepsAbsent(s: string, pattern: string, replacement: string, c: char)
    requires pattern != [] && c !in s && c !in replacement
    ensures c !in ReplaceAll(s, pattern, replacement)
    decreases |s|
  {
    if |s| >= |pattern| {
      if s[..|pattern|] == pattern {
        assert forall i :: 0 <= i < |s[|pattern|..]| ==> s[|pattern|..][i] == s[i + |pattern|];
        ReplaceKeepsAbsent(s[|pattern|..], pattern, replacement, c);
      } else {
        assert forall i :: 0 <= i < |s[1..]| ==> s[1..][i] == s[i + 1];
        ReplaceKeepsAbsent(s[1..], pattern, replacement, c);
      }
    }
  }

  /** The model part of an automatic directory name holds no slash, whatever the model name. */
  lemma ModelDirectoryNameFlat(model: string)
    ensures '/' !in ModelDirectoryName(model)
  {
    assert "/" == ['/'];
    ReplaceCharRemoves(ReplaceAll(model, "openrouter/", ""), '/', "_");
  }

  lemma {:induction false} JoinNoSpace(parts: seq<string>, sep: string)
    requires NoSpace(sep) && forall k :: 0 <= k < |parts| ==> NoSpace(parts[k])
    ensures NoSpace(Join(parts, sep))
    decreases |parts|
  {
    if |parts| > 1 {
      JoinNoSpace(parts[1..], sep);
    }
  }

  /**
   * The description part of an automatic directory name holds no whitespace:
   * its words have none, so the three replacements after the join change nothing.
   */
  lemma ShortFileDescriptionHasNoSpace(videoData: string)
    ensures NoSpace(ShortFileDescription(videoData))
    ensures var words := SplitWhitespace(videoData);
            var first := if |words| <= 4 then words else words[..4];
            first != [] ==> ShortFileDescription(videoData) == Join(first, "_")
  {
    var words := SplitWhitespace(videoData);
    var first := if |words| <= 4 then words else words[..4];
    SplitWhitespaceWords(videoData);
    if first != [] {
      assert forall k :: 0 <= k < |first| ==> first[k] == words[k];
      assert NoSpace("_");
      JoinNoSpace(first, "_");
      SpaceFreeReplacementsKeep(Join(first, "_"));
    }
  }

  /** The three whitespace replacements leave a text without whitespace as it is. */
  lemma SpaceFreeReplacementsKeep(j: string)
    requires NoSpace(j)
    ensures ReplaceAll(ReplaceAll(ReplaceAll(j, "\n", "_"), "\r", "_"), " ", "_") == j
  {
    assert IsSpace('\n') && IsSpace('\r') && IsSpace(' ');
    assert '\n' !in j && '\r' !in j && ' ' !in j;
    MissingCharNotContained(j, "\n", '\n');
    ReplaceAllAbsent(j, "\n", "_");
    MissingCharNotContained(j, "\r", '\r');
    ReplaceAllAbsent(j, "\r", "_");
    MissingCharNotContained(j, " ", ' ');
    ReplaceAllAbsent(j, " ", "_");
  }

  /** A character absent from a text is absent from each of its `str.split()` words. */
  lemma {:induction false} SplitWordsAvoid(s: string, c: char)
    requires c !in s
    ensures forall k :: 0 <= k < |SplitWhitespace(s)| ==> c !in SplitWhitespace(s)[k]
    decreases |s|
  {
    var t := TrimStart(s);
    assert c !in t;
    if t != [] {
      var n := WordLength(t);
      assert c !in t[..n] && c !in t[n..];
      SplitWordsAvoid(t[n..], c);
      var rest := SplitWhitespace(t[n..]);
      assert SplitWhitespace(s) == [t[..n]] + rest;
      ConsAvoids(t[..n], rest, c);
    }
  }

  lemma ConsAvoids(w: string, rest: seq<string>, c: char)
    requires c !in w && forall k :: 0 <= k < |rest| ==> c !in rest[k]
    ensures forall k :: 0 <= k < |[w] + rest| ==> c !in ([w] + rest)[k]
  {
    forall k | 0 <= k < |[w] + rest| ensures c !in ([w] + rest)[k] {
      if k > 0 {
        assert ([w] + rest)[k] == rest[k - 1];
      }
    }
  }

  /** Joining texts without a character, by a separator without it, gives a text without it. */
  lemma {:induction false} JoinAvoids(parts: seq<string>, sep: string, c: char)
    requires c !in sep && forall k :: 0 <= k < |parts| ==> c !in parts[k]
    ensures c !in Join(parts, sep)
    decreases |parts|
  {
    if |parts| > 1 {
      JoinAvoids(parts[1..], sep, c);
      assert c !in parts[0];
    }
  }

  /** A description without a slash gives a description part without one. */
  lemma ShortFileDescriptionAvoidsSlash(videoData: string)
    requires '/' !in videoData
    ensures '/' !in ShortFileDescription(videoData)
  {
    var words := SplitWhitespace(videoData);
    var first := if |words| <= 4 then words else words[..4];
    if first != [] {
      SplitWordsAvoid(videoData, '/');
      assert forall k :: 0 <= k < |first| ==> first[k] == words[k];
      JoinAvoids(first, "_", '/');
      var j := Join(first, "_");
      ReplaceKeepsAbsent(j, "\n", "_", '/');
      ReplaceKeepsAbsent(ReplaceAll(j, "\n", "_"), "\r", "_", '/');
      ReplaceKeepsAbsent(ReplaceAll(ReplaceAll(j, "\n", "_"), "\r", "_"), " ", "_", '/');
    }
  }

  /**
   * An automatic output directory sits directly under `output/` when the
   * video description holds no slash (the timestamp of `%Y%m%d_%H%M%S` is
   * digits and `_`): the model part never holds one.
   */
  lemma AutomaticDirectoryFlat(videoData: string, model: string, timestamp: string)
    requires '/' !in videoData && '/' !in timestamp
    ensures var dir := OutputDirectory(None, videoData, model, timestamp);
            |dir| >= 7 && dir[..7] == "output/" && '/' !in dir[7..]
  {
    var m := ModelDirectoryName(model);
    var d := ShortFileDescription(videoData);
    ModelDirectoryNameFlat(model);
    ShortFileDescriptionAvoidsSlash(videoData);
    var rest := m + "_" + d + "_" + timestamp;
    assert '/' !in "_";
    assert '/' !in rest;
    var prefix := "output/";
    assert |prefix| == 7;
    assert (prefix + rest)[..7] == prefix && (prefix + rest)[7..] == rest;
  }

  /**
   * A description of one word is used as it is, so a slash in it is kept
   * and the automatic directory is nested below `output/`.
   */
  lemma OneWordDescriptionKept(word: string)
    requires word != [] && NoSpace(word)
    ensures ShortFileDescription(word) == word
    ensures '/' in word ==> '/' in ShortFileDescription(word)
  {
    assert !IsSpace(word[0]);
    assert TrimStart(word) == word;
    assert WordLength(word) == |word|;
    assert word[|word|..] == [] && word[..|word|] == word;
    assert SplitWhitespace(word[|word|..]) == [];
    assert SplitWhitespace(word) == [word[..|word|]] + SplitWhitespace(word[|word|..]);
    assert IsSpace('\n') && IsSpace('\r') && IsSpace(' ');
    MissingCharNotContained(word, "\n", '\n');
    ReplaceAllAbsent(word, "\n", "_");
    MissingCharNotContained(word, "\r", '\r');
    ReplaceAllAbsent(word, "\r", "_");
    MissingCharNotContained(word, " ", ' ');
    ReplaceAllAbsent(word, " ", "_");
  }

  /** `_format_bool`: the label for the value, inside tags of its colour (green for true). */
  function FormatBool(value: bool, trueLabel: string, falseLabel: string, falseColor: string): (r: string)
    ensures value ==> r == "[green]" + trueLabel + "[/green]"
    ensures !value ==> r == "[" + falseColor + "]" + falseLabel + "[/" + falseColor + "]"
  {
    var color := if value then "green" else falseColor;
    var text := if value then trueLabel else falseLabel;
    "[" + color + "]" + text + "[/" + color + "]"
  }

  /** `str(value)` of a reasoning setting. */
  function SettingText(setting: Llm.Setting): string
  {
    match setting
    case Effort(level) => level
    case MaxTokens(n) => IntToString(n)
    case Exclude(flag) => if flag then "True" else "False"
  }

  /** Python truthiness of a reasoning setting. */
  predicate SettingGiven(setting: Llm.Setting)
  {
    match setting
    case Effort(level) => level != ""
    case MaxTokens(n) => n != 0
    case Exclude(flag) => flag
  }

  predicate KeyGiven(reasoning: Llm.Reasoning, key: string)
  {
    key in reasoning && SettingGiven(reasoning[key])
  }

  /**
   * `_format_reasoning_summary`: "Disabled" for an empty dictionary, else
   * `effort=…` and `max_tokens=…` for the keys given, joined by ", ".
   */
  method FormatReasoningSummary(reasoning: Llm.Reasoning) returns (summary: string)
    ensures reasoning == map[] ==> summary == "Disabled"
    ensures reasoning != map[] && !KeyGiven(reasoning, "effort") && !KeyGiven(reasoning, "max_tokens") ==> summary == ""
    ensures reasoning != map[] && KeyGiven(reasoning, "effort") && !KeyGiven(reasoning, "max_tokens") ==>
              summary == "effort=" + SettingText(reasoning["effort"])
    ensures reasoning != map[] && !KeyGiven(reasoning, "effort") && KeyGiven(reasoning, "max_tokens") ==>
              summary == "max_tokens=" + SettingText(reasoning["max_tokens"])
    ensures reasoning != map[] && KeyGiven(reasoning, "effort") && KeyGiven(reasoning, "max_tokens") ==>
              summary == "effort=" + SettingText(reasoning["effort"]) + ", " + "max_tokens=" + SettingText(reasoning["max_tokens"])
  {
    if reasoning == map[] {
      return "Disabled";
    }
    var summaryParts: seq<string> := [];
    if KeyGiven(reasoning, "effort") {
      summaryParts := summaryParts + ["effort=" + SettingText(reasoning["effort"])];
    }
    if KeyGiven(reasoning, "max_tokens") {
      summaryParts := summaryParts + ["max_tokens=" + SettingText(reasoning["max_tokens"])];
    }
    if |summaryParts| == 2 {
      assert Join(summaryParts, ", ") == summaryParts[0] + ", " + summaryParts[1];
    }
    summary := Join(summaryParts, ", ");
  }
}
