/**
 * Prompt assembly (`src/manim_generator/utils/prompt.py`): placeholder
 * substitution into a template, the review history block, and the image
 * items sent to a vision model. Reading the template from
 * `prompts/<name>.txt` is left to the caller, which passes its text.
 */
module Prompt {
  import opened Strings

  /** One item of a multi-part message body. */
  datatype Part =
    | TextPart(text: string)
    | ImagePart(url: string, format: string)
    | BareImagePart(url: string)   // an `image_url` item without a "format" key

  /** A message body: a plain string, or a list of parts. */
  datatype Content = PlainText(text: string) | Parts(parts: seq<Part>)

  /** A chat message, `{"role": ..., "content": ...}`. */
  datatype Message = Message(role: string, content: Content)

  /** The text `{name}` that stands for a placeholder in a template. */
  function Placeholder(name: string): string
  {
    "{" + name + "}"
  }

  /**
   * The template after each `(placeholder, value)` pair, in order, has
   * replaced every occurrence of its placeholder; values are already `str`-ed.
   */
  function ApplyReplacements(template: string, replacements: seq<(string, string)>): string
    decreases |replacements|
  {
    if replacements == [] then template
    else ApplyReplacements(ReplaceAll(template, Placeholder(replacements[0].0), replacements[0].1), replacements[1..])
  }

  method FormatPrompt(template: string, replacements: seq<(string, string)>) returns (prompt: string)
    ensures prompt == ApplyReplacements(template, replacements)
  {
    prompt := template;
    var i := 0;
    while i < |replacements|
      invariant 0 <= i <= |replacements|
      invariant ApplyReplacements(prompt, replacements[i..]) == ApplyReplacements(template, replacements)
    {
      assert replacements[i..][1..] == replacements[i + 1..];
      var (placeholder, value) := replacements[i];
      prompt := ReplaceAll(prompt, Placeholder(placeholder), value);
      i := i + 1;
    }
  }

  predicate NoBrace(s: string)
  {
    forall k :: 0 <= k < |s| ==> s[k] != '{' && s[k] != '}'
  }

  /** A prefix without the pattern's first character passes through a replacement untouched. */
  lemma {:induction false} ReplaceSkipsPrefix(a: string, t: string, pattern: string, replacement: string)
    requires pattern != [] && forall k :: 0 <= k < |a| ==> a[k] != pattern[0]
    ensures ReplaceAll(a + t, pattern, replacement) == a + ReplaceAll(t, pattern, replacement)
    decreases |a|
  {
    if a == [] {
      assert a + t == t;
    } else {
      var s := a + t;
      assert s[0] == a[0] != pattern[0];
      if |s| >= |pattern| {
        assert s[..|pattern|][0] == s[0];
      }
      assert s[1..] == a[1..] + t;
      ReplaceSkipsPrefix(a[1..], t, pattern, replacement);
      assert [a[0]] + (a[1..] + ReplaceAll(t, pattern, replacement)) == a + ReplaceAll(t, pattern, replacement);
    }
  }

  /** An occurrence at the head is replaced. */
  lemma ReplaceAtHead(t: string, pattern: string, replacement: string)
    requires pattern != []
    ensures ReplaceAll(pattern + t, pattern, replacement) == replacement + ReplaceAll(t, pattern, replacement)
  {
    var s := pattern + t;
    assert s[..|pattern|] == pattern;
    assert s[|pattern|..] == t;
  }

  /** A template without braces has no placeholder, so every substitution leaves it as it is. */
  lemma {:induction false} FormatWithoutPlaceholders(template: string, replacements: seq<(string, string)>)
    requires NoBrace(template)
    ensures ApplyReplacements(template, replacements) == template
    decreases |replacements|
  {
    if replacements != [] {
      var pattern := Placeholder(replacements[0].0);
      assert pattern[0] == '{';
      ReplaceSkipsPrefix(template, [], pattern, replacements[0].1);
      assert template + [] == template;
      FormatWithoutPlaceholders(template, replacements[1..]);
    }
  }

  /** No substitution at all leaves the template as it is. */
  lemma FormatWithNothing(template: string)
    ensures ApplyReplacements(template, []) == template
  {
  }

  /** Two placeholder names without braces that differ never start one another's placeholder text. */
  lemma DistinctPlaceholders(n1: string, n2: string, t: string)
    requires NoBrace(n1) && NoBrace(n2) && n1 != n2
    ensures !StartsWith(Placeholder(n2) + t, Placeholder(n1))
  {
    var p1, s := Placeholder(n1), Placeholder(n2) + t;
    if |p1| <= |s| {
      var m: nat;
      if |n1| < |n2| {
        m := |n1| + 1;
        assert p1[m] == '}' && s[m] == n2[|n1|];
      } else if |n1| > |n2| {
        m := |n2| + 1;
        assert s[m] == '}' && p1[m] == n1[|n2|];
      } else {
        var k :| 0 <= k < |n1| && n1[k] != n2[k];
        m := k + 1;
        assert p1[m] == n1[k] && s[m] == n2[k];
      }
      assert s[..|p1|][m] != p1[m];
    }
  }

  /** A placeholder other than the one being replaced is skipped over whole. */
  lemma ReplaceSkipsOtherPlaceholder(n1: string, n2: string, t: string, value: string)
    requires NoBrace(n1) && NoBrace(n2) && n1 != n2
    ensures ReplaceAll(Placeholder(n2) + t, Placeholder(n1), value) == Placeholder(n2) + ReplaceAll(t, Placeholder(n1), value)
  {
    var p1, p2 := Placeholder(n1), Placeholder(n2);
    var s := p2 + t;
    DistinctPlaceholders(n1, n2, t);
    if |s| >= |p1| {
      assert s[..|p1|] != p1;
    }
    assert s == [s[0]] + s[1..];
    assert s[1..] == n2 + ("}" + t);
    ReplaceSkipsPrefix(n2 + "}", t, p1, value);
    assert n2 + ("}" + t) == (n2 + "}") + t;
    assert [s[0]] + ((n2 + "}") + ReplaceAll(t, p1, value)) == p2 + ReplaceAll(t, p1, value);
  }

  /**
   * Filling the template `a{n1}b{n2}c` from `[(n1, v1), (n2, v2)]`, where
   * no fixed text, name or value holds a brace and the names differ, gives
   * `a v1 b v2 c`.
   */
  lemma FillTwoPlaceholders(a: string, n1: string, b: string, n2: string, c: string, v1: string, v2: string)
    requires NoBrace(a) && NoBrace(b) && NoBrace(c) && NoBrace(v1)
    requires NoBrace(n1) && NoBrace(n2) && n1 != n2
    ensures ApplyReplacements(a + Placeholder(n1) + b + Placeholder(n2) + c, [(n1, v1), (n2, v2)])
            == a + v1 + b + v2 + c
  {
    var p1, p2 := Placeholder(n1), Placeholder(n2);
    var t := a + p1 + b + p2 + c;
    var d := a + v1 + b;
    var first := FirstFill(a, n1, b, n2, c, v1);
    assert t == a + (p1 + (b + (p2 + c))) by {
      AppendAssoc(a + p1, b, p2 + c);
      AppendAssoc(a, p1, b + (p2 + c));
    }
    assert first == d + p2 + c by {
      AppendAssoc(a, v1, b + (p2 + c));
      AppendAssoc(a + v1, b, p2 + c);
    }
    NoBraceAppend(a, v1, b);
    var second := SecondFill(d, n2, c, v2);
    assert [(n1, v1), (n2, v2)][1..] == [(n2, v2)];
  }

  lemma NoBraceAppend(a: string, b: string, c: string)
    requires NoBrace(a) && NoBrace(b) && NoBrace(c)
    ensures NoBrace(a + b + c)
  {
  }

  lemma FirstFill(a: string, n1: string, b: string, n2: string, c: string, v1: string) returns (r: string)
    requires NoBrace(a) && NoBrace(b) && NoBrace(c)
    requires NoBrace(n1) && NoBrace(n2) && n1 != n2
    ensures r == ReplaceAll(a + (Placeholder(n1) + (b + (Placeholder(n2) + c))), Placeholder(n1), v1)
    ensures r == a + (v1 + (b + (Placeholder(n2) + c)))
  {
    var p1, p2 := Placeholder(n1), Placeholder(n2);
    assert p1[0] == '{';
    ReplaceSkipsPrefix(a, p1 + (b + (p2 + c)), p1, v1);
    ReplaceAtHead(b + (p2 + c), p1, v1);
    ReplaceSkipsPrefix(b, p2 + c, p1, v1);
    ReplaceSkipsOtherPlaceholder(n1, n2, c, v1);
    ReplaceSkipsPrefix(c, [], p1, v1);
    assert c + [] == c;
    r := a + (v1 + (b + (p2 + c)));
  }

  lemma SecondFill(d: string, n2: string, c: string, v2: string) returns (r: string)
    requires NoBrace(d) && NoBrace(c)
    ensures r == ApplyReplacements(d + Placeholder(n2) + c, [(n2, v2)])
    ensures r == d + v2 + c
  {
    var p2 := Placeholder(n2);
    assert p2[0] == '{';
    assert d + p2 + c == d + (p2 + c);
    ReplaceSkipsPrefix(d, p2 + c, p2, v2);
    ReplaceAtHead(c, p2, v2);
    ReplaceSkipsPrefix(c, [], p2, v2);
    assert c + [] == c;
    assert d + (v2 + c) == d + v2 + c;
    r := d + v2 + c;
  }

  /**
   * Substitution is sequential: a value that itself names a later
   * placeholder is rewritten by that later pair.
   */
  lemma LaterKeyRewritesEarlierValue(n1: string, n2: string, v: string)
    ensures ApplyReplacements(Placeholder(n1), [(n1, Placeholder(n2)), (n2, v)]) == v
  {
    var p1, p2 := Placeholder(n1), Placeholder(n2);
    ReplaceAtHead([], p1, p2);
    assert p1 + [] == p1 && p2 + [] == p2;
    assert ReplaceAll(p1, p1, p2) == p2;
    ReplaceAtHead([], p2, v);
    assert v + [] == v;
    assert ReplaceAll(p2, p2, v) == v;
    assert [(n1, p2), (n2, v)][1..] == [(n2, v)];
    assert ApplyReplacements(p2, [(n2, v)]) == ApplyReplacements(v, []);
  }

  /** `<review_i>\n{feedback}\n</review_i>`. */
  function ReviewBlock(index: nat, feedback: string): string
  {
    "<review_" + NatToString(index) + ">\n" + feedback + "\n</review_" + NatToString(index) + ">"
  }

  function ReviewBlocks(reviews: seq<string>): seq<string>
  {
    seq(|reviews|, i requires 0 <= i < |reviews| => ReviewBlock(i, reviews[i]))
  }

  /**
   * `format_previous_reviews`: the numbered review blocks joined by newlines;
   * review text is not escaped. The history is empty exactly when there are
   * no reviews, and otherwise opens with the first review's block.
   */
  function FormatPreviousReviews(reviews: seq<string>): (r: string)
    ensures r == "" <==> reviews == []
    ensures reviews != [] ==> StartsWith(r, ReviewBlock(0, reviews[0]))
  {
    Join(ReviewBlocks(reviews), "\n")
  }

  lemma {:induction false} JoinAppend(parts: seq<string>, last: string, sep: string)
    requires parts != []
    ensures Join(parts + [last], sep) == Join(parts, sep) + sep + last
    decreases |parts|
  {
    if |parts| == 1 {
      assert (parts + [last])[1..] == [last];
    } else {
      assert (parts + [last])[1..] == parts[1..] + [last];
      JoinAppend(parts[1..], last, sep);
      var j := Join(parts[1..], sep);
      assert parts[0] + sep + (j + sep + last) == parts[0] + sep + j + sep + last;
    }
  }

  /**
   * The review history grows one block at a time: no reviews give "", one
   * review gives its block, and each further review adds a newline and its
   * block numbered by its position.
   */
  lemma FormatPreviousReviewsGrows(reviews: seq<string>, review: string)
    ensures FormatPreviousReviews([]) == ""
    ensures FormatPreviousReviews([review]) == ReviewBlock(0, review)
    ensures reviews != [] ==>
              FormatPreviousReviews(reviews + [review])
              == FormatPreviousReviews(reviews) + "\n" + ReviewBlock(|reviews|, review)
  {
    assert ReviewBlocks([review]) == [ReviewBlock(0, review)];
    if reviews != [] {
      assert ReviewBlocks(reviews + [review]) == ReviewBlocks(reviews) + [ReviewBlock(|reviews|, review)];
      JoinAppend(ReviewBlocks(reviews), ReviewBlock(|reviews|, review), "\n");
    }
  }

  /** `convert_frames_to_message_format`: each data URL becomes an `image_url` item of format `image/png`. */
  function ConvertFramesToMessageFormat(frames: seq<string>): (parts: seq<Part>)
    ensures |parts| == |frames|
    ensures forall k :: 0 <= k < |frames| ==> parts[k] == ImagePart(frames[k], "image/png")
  {
    seq(|frames|, k requires 0 <= k < |frames| => ImagePart(frames[k], "image/png"))
  }

  /** The URLs of the image items, in order. */
  function ImageUrls(parts: seq<Part>): seq<string>
  {
    if parts == [] then []
    else
      var head := match parts[0]
        case TextPart(_) => []
        case ImagePart(url, _) => [url]
        case BareImagePart(url) => [url];
      head + ImageUrls(parts[1..])
  }

  /** Converting frames and reading the URLs back gives the frames, in order. */
  lemma {:induction false} FramesRoundTrip(frames: seq<string>)
    ensures ImageUrls(ConvertFramesToMessageFormat(frames)) == frames
    decreases |frames|
  {
    if frames != [] {
      assert ConvertFramesToMessageFormat(frames)[1..] == ConvertFramesToMessageFormat(frames[1..]);
      FramesRoundTrip(frames[1..]);
      assert frames == [frames[0]] + frames[1..];
    }
  }
}
