/**
 * The prompt helpers of the first layout of the project (`utils/text.py`).
 * Placeholder substitution is the same loop as the package's
 * (`Prompt.FormatPrompt`); the review history and the image items differ.
 */
module LegacyText {
  import opened Strings
  import Prompt

  const BlockOpen := "<review_"
  const BlockMiddle := ">\n"
  const BlockClose := "\n</review_"

  /** `<review_i>\n{feedback}\n</review_i`: the closing tag lacks its `>`. */
  function LegacyReviewBlock(index: nat, feedback: string): string
  {
    BlockOpen + NatToString(index) + BlockMiddle + feedback + BlockClose + NatToString(index)
  }

  function LegacyReviewBlocks(reviews: seq<string>): seq<string>
  {
    seq(|reviews|, i requires 0 <= i < |reviews| => LegacyReviewBlock(i, reviews[i]))
  }

  /**
   * `format_previous_reviews`: the numbered blocks joined by newlines. The
   * history is empty exactly when there are no reviews, and otherwise opens
   * with the first review's block.
   */
  function FormatPreviousReviews(reviews: seq<string>): (r: string)
    ensures r == "" <==> reviews == []
    ensures reviews != [] ==> StartsWith(r, LegacyReviewBlock(0, reviews[0]))
  {
    Join(LegacyReviewBlocks(reviews), "\n")
  }

  lemma NatToStringNotEmpty(n: nat)
    ensures |NatToString(n)| > 0
    ensures forall k :: 0 <= k < |NatToString(n)| ==> NatToString(n)[k] != '>'
  {
    if n >= 10 {
      NatToStringNotEmpty(n / 10);
    }
  }

  /**
   * Each legacy block is the package's block without its final `>`, and it
   * never ends in `>`: the last character is the last digit of the index.
   */
  lemma UnterminatedClosingTag(index: nat, feedback: string)
    ensures Prompt.ReviewBlock(index, feedback) == LegacyReviewBlock(index, feedback) + ">"
    ensures var b := LegacyReviewBlock(index, feedback); |b| > 0 && b[|b| - 1] != '>'
  {
    NatToStringNotEmpty(index);
    var digits := NatToString(index);
    var b := LegacyReviewBlock(index, feedback);
    assert b == (BlockOpen + digits + BlockMiddle + feedback + BlockClose) + digits;
    assert b[|b| - 1] == digits[|digits| - 1];
  }

  /** No reviews format to "", one review to its block, and the history grows one block at a time. */
  lemma FormatPreviousReviewsGrows(reviews: seq<string>, review: string)
    ensures FormatPreviousReviews([]) == ""
    ensures FormatPreviousReviews([review]) == LegacyReviewBlock(0, review)
    ensures reviews != [] ==>
              FormatPreviousReviews(reviews + [review])
              == FormatPreviousReviews(reviews) + "\n" + LegacyReviewBlock(|reviews|, review)
  {
    assert LegacyReviewBlocks([review]) == [LegacyReviewBlock(0, review)];
    if reviews != [] {
      assert LegacyReviewBlocks(reviews + [review]) == LegacyReviewBlocks(reviews) + [LegacyReviewBlock(|reviews|, review)];
      Prompt.JoinAppend(LegacyReviewBlocks(reviews), LegacyReviewBlock(|reviews|, review), "\n");
    }
  }

  /** `convert_frames_to_message_format`: `image_url` items carrying only the URL. */
  function ConvertFramesToMessageFormat(frames: seq<string>): (parts: seq<Prompt.Part>)
    ensures |parts| == |frames|
    ensures forall k :: 0 <= k < |frames| ==> parts[k] == Prompt.BareImagePart(frames[k])
  {
    seq(|frames|, k requires 0 <= k < |frames| => Prompt.BareImagePart(frames[k]))
  }

  /**
   * The legacy items carry the same URLs in the same order as the
   * package's, and reading them back gives the frames.
   */
  lemma {:induction false} SameUrlsAsPackage(frames: seq<string>)
    ensures Prompt.ImageUrls(ConvertFramesToMessageFormat(frames)) == frames
    ensures Prompt.ImageUrls(ConvertFramesToMessageFormat(frames))
            == Prompt.ImageUrls(Prompt.ConvertFramesToMessageFormat(frames))
    decreases |frames|
  {
    Prompt.FramesRoundTrip(frames);
    if frames != [] {
      assert ConvertFramesToMessageFormat(frames)[1..] == ConvertFramesToMessageFormat(frames[1..]);
      SameUrlsAsPackage(frames[1..]);
      assert frames == [frames[0]] + frames[1..];
    }
  }
}
