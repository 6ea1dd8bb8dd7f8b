/**
 * The LLM calls of the first layout of the project (`utils/llm.py`): the
 * same retry policy as the package's, without argument building, usage or
 * reasoning. An error that is not a rate limit propagates instead of being
 * answered with a sentinel, and the stream yields `(token, text so far)`
 * pairs with no final item. LiteLLM is an oracle indexed by attempt number.
 */
module LegacyLlm {
  import opened Wrappers
  import Llm

  const StillRateLimitedMessage := "[bold red]Max retries exceeded. Still rate limited.[/bold red]"

  /** What the call gave its caller: the content, or the exception it raised. */
  datatype Outcome = Returned(content: string) | Raised(message: string)

  /** The outcome and the sleeps of the retry loop from attempt `k` on. */
  function RetryFrom(maxRetries: int, attempts: nat -> Llm.Attempt, k: nat): (Outcome, seq<real>)
    decreases maxRetries - k
  {
    if k >= maxRetries then (Raised(StillRateLimitedMessage), [])
    else match attempts(k)
      case Answered(response) => (Returned(response.content), [])
      case Failed(message) => (Raised(message), [])
      case RateLimited(message) =>
        var (outcome, sleeps) := RetryFrom(maxRetries, attempts, k + 1);
        (outcome, [Llm.WaitTime(message)] + sleeps)
  }

  /** `get_completion_with_retry`: the outcome and the sleeps taken between attempts. */
  method GetCompletionWithRetry(maxRetries: int, attempts: nat -> Llm.Attempt) returns (outcome: Outcome, sleeps: seq<real>)
    ensures (outcome, sleeps) == RetryFrom(maxRetries, attempts, 0)
  {
    ghost var goal := RetryFrom(maxRetries, attempts, 0);
    var retries: nat := 0;
    sleeps := [];
    assert sleeps + goal.1 == goal.1;
    while retries < maxRetries
      invariant goal.0 == RetryFrom(maxRetries, attempts, retries).0
      invariant goal.1 == sleeps + RetryFrom(maxRetries, attempts, retries).1
      decreases maxRetries - retries
    {
      match attempts(retries)
      case Answered(response) =>
        outcome := Returned(response.content);
        assert sleeps + [] == sleeps;
        return;
      case Failed(message) =>
        outcome := Raised(message);
        assert sleeps + [] == sleeps;
        return;
      case RateLimited(message) =>
        ghost var tail := RetryFrom(maxRetries, attempts, retries + 1);
        assert sleeps + ([Llm.WaitTime(message)] + tail.1) == (sleeps + [Llm.WaitTime(message)]) + tail.1;
        sleeps := sleeps + [Llm.WaitTime(message)];
        retries := retries + 1;
    }
    outcome := Raised(StillRateLimitedMessage);
    assert sleeps + [] == sleeps;
  }

  /**
   * Against the package's loop on the same attempts (with arguments that
   * built): both sleep the same, both give up together, the same answer
   * gives the same content, and a failure the legacy loop raises is the one
   * the package answers with its sentinel.
   */
  lemma {:induction false} AgreesWithPackage(args: Llm.CompletionArgs, model: string, maxRetries: int,
                                             attempts: nat -> Llm.Attempt, k: nat)
    ensures var (legacy, legacySleeps) := RetryFrom(maxRetries, attempts, k);
            var (reply, sleeps) := Llm.RetryFrom(Ok(args), model, maxRetries, attempts, k);
            && legacySleeps == sleeps
            && (reply.MaxRetriesExceeded? ==> legacy == Raised(StillRateLimitedMessage))
            && (legacy.Returned? ==> reply.Replied? && reply.completion.content == legacy.content)
            && (legacy.Raised? && reply.Replied? ==> reply.completion == Llm.Sentinel(model))
    decreases maxRetries - k
  {
    if k < maxRetries && attempts(k).RateLimited? {
      AgreesWithPackage(args, model, maxRetries, attempts, k + 1);
    }
  }

  /**
   * The loop raises "still rate limited" when every allowed attempt was
   * rate-limited, after one sleep per attempt; it stops at the first attempt
   * that was not, returning its content or raising its error.
   */
  lemma {:induction false} RetryCeiling(maxRetries: int, attempts: nat -> Llm.Attempt, k: nat)
    requires k <= maxRetries
    ensures Llm.AllRateLimited(attempts, k, maxRetries) ==>
              RetryFrom(maxRetries, attempts, k) == (Raised(StillRateLimitedMessage), RetryFrom(maxRetries, attempts, k).1)
              && |RetryFrom(maxRetries, attempts, k).1| == maxRetries - k
    ensures forall j :: k <= j < maxRetries && Llm.AllRateLimited(attempts, k, j) && attempts(j).Failed? ==>
              RetryFrom(maxRetries, attempts, k).0 == Raised(attempts(j).message)
    ensures forall j :: k <= j < maxRetries && Llm.AllRateLimited(attempts, k, j) && attempts(j).Answered? ==>
              RetryFrom(maxRetries, attempts, k).0 == Returned(attempts(j).response.content)
    decreases maxRetries - k
  {
    if k < maxRetries && attempts(k).RateLimited? {
      RetryCeiling(maxRetries, attempts, k + 1);
      forall j | k + 1 <= j < maxRetries && Llm.AllRateLimited(attempts, k, j)
        ensures Llm.AllRateLimited(attempts, k + 1, j)
      {
      }
      if Llm.AllRateLimited(attempts, k, maxRetries) {
        assert Llm.AllRateLimited(attempts, k + 1, maxRetries);
      }
    }
  }

  // ----- streaming

  /** How one streamed call ended after its chunks. */
  datatype StreamEnding = Completed | RateLimitedMidway(message: string) | FailedMidway(message: string)

  /**
   * One call of the streaming completion: the chunks it delivered, then how
   * it ended. An error raised by the call itself delivers no chunk.
   */
  datatype StreamAttempt = StreamAttempt(chunks: seq<Option<string>>, ending: StreamEnding)

  /** The pairs yielded for one call's tokens: each token with the text accumulated in that call. */
  function Pairs(ts: seq<string>): seq<(string, string)>
  {
    seq(|ts|, i requires 0 <= i < |ts| => (ts[i], Llm.Concat(ts[..i + 1])))
  }

  /** What the generator yields from attempt `k` on, how it ends, and the sleeps between attempts. */
  function StreamFrom(maxRetries: int, attempts: nat -> StreamAttempt, k: nat): (seq<(string, string)>, Llm.StreamEnd, seq<real>)
    decreases maxRetries - k
  {
    if k >= maxRetries then ([], Llm.StreamRaised(StillRateLimitedMessage), [])
    else
      var yielded := Pairs(Llm.Tokens(attempts(k).chunks));
      match attempts(k).ending
      case Completed => (yielded, Llm.Finished, [])
      case FailedMidway(message) => (yielded, Llm.StreamRaised(message), [])
      case RateLimitedMidway(message) =>
        var (rest, end, sleeps) := StreamFrom(maxRetries, attempts, k + 1);
        (yielded + rest, end, [Llm.WaitTime(message)] + sleeps)
  }

  /** The inner loop: one pair per chunk, the text accumulated from "". */
  method YieldChunks(chunks: seq<Option<string>>) returns (pairs: seq<(string, string)>)
    ensures pairs == Pairs(Llm.Tokens(chunks))
  {
    var ts := Llm.Tokens(chunks);
    var fullResponse := "";
    pairs := [];
    for i := 0 to |chunks|
      invariant fullResponse == Llm.Concat(ts[..i])
      invariant pairs == Pairs(ts)[..i]
    {
      var token := chunks[i].GetOr("");
      assert ts[..i + 1][..i] == ts[..i];
      fullResponse := fullResponse + token;
      pairs := pairs + [(token, fullResponse)];
      assert pairs == Pairs(ts)[..i + 1];
    }
  }

  /** `get_streaming_completion_with_retry`: the pairs yielded, how the generator ended, and the sleeps. */
  method GetStreamingCompletionWithRetry(maxRetries: int, attempts: nat -> StreamAttempt)
    returns (pairs: seq<(string, string)>, end: Llm.StreamEnd, sleeps: seq<real>)
    ensures (pairs, end, sleeps) == StreamFrom(maxRetries, attempts, 0)
  {
    ghost var goal := StreamFrom(maxRetries, attempts, 0);
    var retries: nat := 0;
    pairs := [];
    sleeps := [];
    assert pairs + goal.0 == goal.0 && sleeps + goal.2 == goal.2;
    while retries < maxRetries
      invariant goal.0 == pairs + StreamFrom(maxRetries, attempts, retries).0
      invariant goal.1 == StreamFrom(maxRetries, attempts, retries).1
      invariant goal.2 == sleeps + StreamFrom(maxRetries, attempts, retries).2
      decreases maxRetries - retries
    {
      var attempt := attempts(retries);
      var yielded := YieldChunks(attempt.chunks);
      match attempt.ending
      case Completed =>
        pairs := pairs + yielded;
        end := Llm.Finished;
        assert sleeps + [] == sleeps;
        return;
      case FailedMidway(message) =>
        pairs := pairs + yielded;
        end := Llm.StreamRaised(message);
        assert sleeps + [] == sleeps;
        return;
      case RateLimitedMidway(message) =>
        ghost var tail := StreamFrom(maxRetries, attempts, retries + 1);
        assert pairs + (yielded + tail.0) == (pairs + yielded) + tail.0;
        assert sleeps + ([Llm.WaitTime(message)] + tail.2) == (sleeps + [Llm.WaitTime(message)]) + tail.2;
        pairs := pairs + yielded;
        sleeps := sleeps + [Llm.WaitTime(message)];
        retries := retries + 1;
    }
    end := Llm.StreamRaised(StillRateLimitedMessage);
    assert pairs + [] == pairs && sleeps + [] == sleeps;
  }

  /**
   * A call that streams n chunks yields n pairs, which are the package's
   * items without its final `("", full response, usage)` item.
   */
  lemma StreamHasNoFinalItem(model: string, chunks: seq<Option<string>>)
    ensures var pairs := Pairs(Llm.Tokens(chunks));
            var items := Llm.StreamItems(model, Llm.Tokens(chunks));
            && |pairs| == |chunks| == |items| - 1
            && (forall i :: 0 <= i < |pairs| ==> pairs[i] == (items[i].token, items[i].response))
  {
  }

  /**
   * A rate limit in the middle of a stream restarts it: the pairs already
   * yielded stay yielded, and the first pair of the retry carries only its
   * own token as the text so far.
   */
  lemma RetryRestartsAccumulation(maxRetries: int, attempts: nat -> StreamAttempt, k: nat)
    requires k + 1 < maxRetries
    requires attempts(k).ending.RateLimitedMidway? && attempts(k + 1).ending.Completed?
    requires attempts(k + 1).chunks != []
    ensures var (pairs, end, sleeps) := StreamFrom(maxRetries, attempts, k);
            var m := |attempts(k).chunks|;
            && end == Llm.Finished
            && |pairs| == m + |attempts(k + 1).chunks|
            && pairs[..m] == Pairs(Llm.Tokens(attempts(k).chunks))
            && pairs[m].1 == pairs[m].0
            && sleeps == [Llm.WaitTime(attempts(k).ending.message)]
  {
    var ts := Llm.Tokens(attempts(k + 1).chunks);
    assert ts[..1] == [ts[0]];
    assert Llm.Concat([ts[0]]) == Llm.Concat([]) + ts[0];
  }

  /** When every allowed call is rate-limited the generator raises after one sleep per call. */
  lemma {:induction false} StreamCeiling(maxRetries: int, attempts: nat -> StreamAttempt, k: nat)
    requires k <= maxRetries
    requires forall j: nat :: k <= j < maxRetries ==> attempts(j).ending.RateLimitedMidway?
    ensures StreamFrom(maxRetries, attempts, k).1 == Llm.StreamRaised(StillRateLimitedMessage)
    ensures |StreamFrom(maxRetries, attempts, k).2| == maxRetries - k
    decreases maxRetries - k
  {
    if k < maxRetries {
      StreamCeiling(maxRetries, attempts, k + 1);
    }
  }
}
