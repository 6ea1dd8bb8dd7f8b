/**
 * The LLM call policy (`src/manim_generator/utils/llm.py`): the argument
 * dictionary handed to LiteLLM, the retry loop around a completion, and the
 * accumulation of a streamed completion. The LiteLLM call itself is an
 * oracle: a function from the attempt number to what that attempt returned.
 */
module Llm {
  import opened Wrappers
  import opened Strings
  import opened Prompt
  import Usage

  /** A value of the reasoning dictionary (`effort`, `max_tokens`, `exclude`). */
  datatype Setting = Effort(level: string) | MaxTokens(n: int) | Exclude(flag: bool)

  /** The reasoning dictionary passed to an OpenRouter model. */
  type Reasoning = map<string, Setting>

  /**
   * The keyword arguments of `litellm.completion`; an optional key is
   * present iff its field is `Some`.
   */
  datatype CompletionArgs = CompletionArgs(
    model: string,
    messages: seq<Message>,
    temperature: real,
    stream: bool,
    reasoningEffort: Option<Setting>,
    reasoning: Option<Reasoning>,
    providerOrder: Option<seq<string>>)

  /** The keys of the argument dictionary. */
  function ArgKeys(args: CompletionArgs): set<string>
  {
    {"model", "messages", "temperature", "stream"}
    + (if args.reasoningEffort.Some? then {"reasoning_effort"} else {})
    + (if args.reasoning.Some? then {"reasoning"} else {})
    + (if args.providerOrder.Some? then {"provider"} else {})
  }

  const OpenAiPrefix := "openai/"
  const EffortKeyError := "KeyError: 'effort'"

  /**
   * `_build_litellm_args`. A model addressed through the OpenAI API gets only
   * `reasoning_effort`, read from the dictionary (a missing key raises); any
   * other model gets the dictionary whole; a provider becomes `{"order": [p]}`.
   */
  function BuildLitellmArgs(model: string, messages: seq<Message>, temperature: real, stream: bool,
                            reasoning: Option<Reasoning>, provider: Option<string>): (r: Result<CompletionArgs, string>)
    ensures r.Err? <==> reasoning.Some? && StartsWith(model, OpenAiPrefix) && "effort" !in reasoning.value
    ensures r.Ok? ==> r.value.model == model && r.value.messages == messages
                      && r.value.temperature == temperature && r.value.stream == stream
    ensures r.Ok? && reasoning.None? ==> "reasoning" !in ArgKeys(r.value) && "reasoning_effort" !in ArgKeys(r.value)
    ensures r.Ok? && reasoning.Some? && StartsWith(model, OpenAiPrefix) ==>
              "reasoning" !in ArgKeys(r.value) && r.value.reasoningEffort == Some(reasoning.value["effort"])
    ensures r.Ok? && reasoning.Some? && !StartsWith(model, OpenAiPrefix) ==>
              "reasoning_effort" !in ArgKeys(r.value) && r.value.reasoning == reasoning
    ensures r.Ok? ==> ("provider" in ArgKeys(r.value) <==> provider.Some?)
    ensures r.Ok? && provider.Some? ==> r.value.providerOrder == Some([provider.value])
  {
    var base := CompletionArgs(model, messages, temperature, stream, None, None, None);
    var withReasoning :=
      if reasoning.None? then Ok(base)
      else if StartsWith(model, OpenAiPrefix) then
        if "effort" in reasoning.value then Ok(base.(reasoningEffort := Some(reasoning.value["effort"])))
        else Err(EffortKeyError)
      else Ok(base.(reasoning := reasoning));
    if withReasoning.Err? then withReasoning
    else if provider.Some? then Ok(withReasoning.value.(providerOrder := Some([provider.value])))
    else withReasoning
  }

  /** The four arguments are always present. */
  lemma ArgsAlwaysHaveCoreKeys(args: CompletionArgs)
    ensures {"model", "messages", "temperature", "stream"} <= ArgKeys(args)
  {
  }

  // ----- rate-limit waits: `re.search(r"try again in (\d+\.?\d*)s", str(e))`

  predicate IsDigit(c: char)
  {
    '0' <= c <= '9'
  }

  /** The length of the run of digits at the head of `s`. */
  function DigitRun(s: string): (n: nat)
    ensures n <= |s|
    ensures forall i :: 0 <= i < n ==> IsDigit(s[i])
    ensures n == |s| || !IsDigit(s[n])
  {
    if s == [] || !IsDigit(s[0]) then 0 else 1 + DigitRun(s[1..])
  }

  function DigitValue(c: char): nat
    requires IsDigit(c)
  {
    c as int - '0' as int
  }

  /** `int(ds)` for a run of decimal digits. */
  function DigitsValue(ds: string): nat
    requires forall i :: 0 <= i < |ds| ==> IsDigit(ds[i])
  {
    if ds == [] then 0 else DigitsValue(ds[..|ds| - 1]) * 10 + DigitValue(ds[|ds| - 1])
  }

  function Pow10(n: nat): (p: nat)
    ensures p >= 1
  {
    if n == 0 then 1 else 10 * Pow10(n - 1)
  }

  const RetryHint := "try again in "

  /**
   * The number `\d+\.?\d*` followed by `s` at the head of `s`, if there is one.
   * Digit runs are maximal, and backtracking never rescues a failed match, so
   * the match is decided by the characters after the runs.
   */
  function HintedDelay(s: string): Option<real>
  {
    var n := DigitRun(s);
    if n == 0 || n == |s| then None
    else if s[n] == 's' then Some(DigitsValue(s[..n]) as real)
    else if s[n] == '.' then
      var rest := s[n + 1..];
      var m := DigitRun(rest);
      if m < |rest| && rest[m] == 's' then Some(DigitsValue(s[..n]) as real + DigitsValue(rest[..m]) as real / Pow10(m) as real)
      else None
    else None
  }

  /** The leftmost matching hint of a rate-limit message, as `float(match.group(1))`. */
  function FindDelay(message: string): (d: Option<real>)
    ensures d.Some? ==> d.value >= 0.0
    decreases |message|
  {
    if StartsWith(message, RetryHint) && HintedDelay(message[|RetryHint|..]).Some? then HintedDelay(message[|RetryHint|..])
    else if message == [] then None
    else FindDelay(message[1..])
  }

  /** What `time.sleep` is given after a rate limit: the hinted delay plus a 2-second buffer, else 2 seconds. */
  function WaitTime(message: string): (w: real)
    ensures w >= 2.0
  {
    match FindDelay(message)
    case Some(d) => d + 2.0
    case None => 2.0
  }

  /** A message without the hint waits the default 2 seconds. */
  lemma {:induction false} WaitWithoutHint(message: string)
    requires !Contains(message, RetryHint)
    ensures FindDelay(message) == None
    ensures WaitTime(message) == 2.0
    decreases |message|
  {
    ContainsHeadOrTail(message, RetryHint);
    if message != [] {
      WaitWithoutHint(message[1..]);
    }
  }

  /** A whole number of seconds followed by `s` is read as that number. */
  lemma HintedWholeSeconds(seconds: string)
    requires seconds != [] && forall i :: 0 <= i < |seconds| ==> IsDigit(seconds[i])
    ensures HintedDelay(seconds + "s") == Some(DigitsValue(seconds) as real)
  {
    var tail := seconds + "s";
    DigitRunOfDigits(seconds, "s");
    assert tail[..|seconds|] == seconds;
    assert tail[|seconds|] == 's';
  }

  /** A message that starts with the hint and a whole number of seconds waits that long plus two. */
  lemma WaitFromHint(seconds: string)
    requires seconds != [] && forall i :: 0 <= i < |seconds| ==> IsDigit(seconds[i])
    ensures WaitTime(RetryHint + (seconds + "s")) == DigitsValue(seconds) as real + 2.0
  {
    var m := RetryHint + (seconds + "s");
    assert m[..|RetryHint|] == RetryHint;
    assert m[|RetryHint|..] == seconds + "s";
    HintedWholeSeconds(seconds);
  }

  lemma {:induction false} DigitRunOfDigits(ds: string, t: string)
    requires forall i :: 0 <= i < |ds| ==> IsDigit(ds[i])
    requires t != [] && !IsDigit(t[0])
    ensures DigitRun(ds + t) == |ds|
    decreases |ds|
  {
    if ds != [] {
      assert (ds + t)[1..] == ds[1..] + t;
      DigitRunOfDigits(ds[1..], t);
    } else {
      assert ds + t == t;
    }
  }

  // ----- non-streaming completion with retries

  /** Token counts of a response's `usage`. */
  datatype TokenCounts = TokenCounts(promptTokens: int, completionTokens: int, totalTokens: int)

  /**
   * What one successful call returned: the content, `usage` (None when
   * missing or falsy), the cost (None when `completion_cost` raised) and the
   * message's `reasoning_content`.
   */
  datatype Response = Response(content: string, usage: Option<TokenCounts>, cost: Option<real>, reasoningContent: Option<string>)

  /** One call of `litellm.completion`. */
  datatype Attempt = Answered(response: Response) | RateLimited(message: string) | Failed(message: string)

  /** The returned triple `(content, usage_info, reasoning)`. */
  datatype Completion = Completion(content: string, usage: Usage.Record, reasoning: Option<string>)

  datatype Reply = Replied(completion: Completion) | MaxRetriesExceeded(message: string)

  const DefaultMaxRetries := 5
  const FailureSentinel := "Review model failed to generate response."
  const MaxRetriesMessage := "[bold red]Max retries exceeded.[/bold red]"

  function UsageInfo(model: string, prompt: int, completion: int, total: int, cost: real): Usage.Record
  {
    map["model" := Usage.Label(model), "prompt_tokens" := Usage.Count(prompt),
        "completion_tokens" := Usage.Count(completion), "total_tokens" := Usage.Count(total),
        "cost" := Usage.Amount(cost)]
  }

  /** The usage reported when a call fails: zero tokens and zero cost. */
  function EmptyUsage(model: string): Usage.Record
  {
    UsageInfo(model, 0, 0, 0, 0.0)
  }

  /** The triple built from a successful response. */
  function FromResponse(model: string, r: Response): (c: Completion)
    ensures c.content == r.content
    ensures r.usage.None? ==> Usage.IntField(c.usage, "total_tokens") == 0 && Usage.IntField(c.usage, "prompt_tokens") == 0
                              && Usage.IntField(c.usage, "completion_tokens") == 0
    ensures r.usage.Some? ==> Usage.IntField(c.usage, "total_tokens") == r.usage.value.totalTokens
    ensures Usage.RealField(c.usage, "cost") == (if r.cost.Some? then r.cost.value else 0.0)
    ensures c.reasoning.Some? <==> r.reasoningContent.Some? && r.reasoningContent.value != ""
    ensures c.reasoning.Some? ==> c.reasoning == r.reasoningContent
    ensures Usage.Numeric(c.usage)
  {
    var counts := r.usage.GetOr(TokenCounts(0, 0, 0));
    var reasoning := if r.reasoningContent.Some? && r.reasoningContent.value != "" then r.reasoningContent else None;
    Completion(r.content, UsageInfo(model, counts.promptTokens, counts.completionTokens, counts.totalTokens, r.cost.GetOr(0.0)), reasoning)
  }

  function Sentinel(model: string): Completion
  {
    Completion(FailureSentinel, EmptyUsage(model), None)
  }

  /**
   * The reply and the sleeps of the retry loop from attempt `k` on, given
   * the built arguments (a build error is caught like any other error).
   */
  function RetryFrom(args: Result<CompletionArgs, string>, model: string, maxRetries: int, attempts: nat -> Attempt, k: nat): (Reply, seq<real>)
    decreases maxRetries - k
  {
    if k >= maxRetries then (MaxRetriesExceeded(MaxRetriesMessage), [])
    else if args.Err? then (Replied(Sentinel(model)), [])
    else match attempts(k)
      case Answered(response) => (Replied(FromResponse(model, response)), [])
      case Failed(_) => (Replied(Sentinel(model)), [])
      case RateLimited(message) =>
        var (reply, sleeps) := RetryFrom(args, model, maxRetries, attempts, k + 1);
        (reply, [WaitTime(message)] + sleeps)
  }

  /** `get_completion_with_retry`: returns the reply and the sleeps taken between attempts. */
  method GetCompletionWithRetry(model: string, messages: seq<Message>, temperature: real, maxRetries: int,
                                reasoning: Option<Reasoning>, provider: Option<string>, attempts: nat -> Attempt)
    returns (reply: Reply, sleeps: seq<real>)
    ensures (reply, sleeps) == RetryFrom(BuildLitellmArgs(model, messages, temperature, false, reasoning, provider), model, maxRetries, attempts, 0)
  {
    var args := BuildLitellmArgs(model, messages, temperature, false, reasoning, provider);
    ghost var goal := RetryFrom(args, model, maxRetries, attempts, 0);
    var retries: nat := 0;
    sleeps := [];
    assert sleeps + goal.1 == goal.1;
    while retries < maxRetries
      invariant goal.0 == RetryFrom(args, model, maxRetries, attempts, retries).0
      invariant goal.1 == sleeps + RetryFrom(args, model, maxRetries, attempts, retries).1
      decreases maxRetries - retries
    {
      if args.Err? {
        reply := Replied(Sentinel(model));
        assert sleeps + [] == sleeps;
        return;
      }
      match attempts(retries)
      case Answered(response) =>
        reply := Replied(FromResponse(model, response));
        assert sleeps + [] == sleeps;
        return;
      case Failed(_) =>
        reply := Replied(Sentinel(model));
        assert sleeps + [] == sleeps;
        return;
      case RateLimited(message) =>
        ghost var tail := RetryFrom(args, model, maxRetries, attempts, retries + 1);
        assert sleeps + ([WaitTime(message)] + tail.1) == (sleeps + [WaitTime(message)]) + tail.1;
        sleeps := sleeps + [WaitTime(message)];
        retries := retries + 1;
    }
    reply := MaxRetriesExceeded(MaxRetriesMessage);
    assert sleeps + [] == sleeps;
  }

  predicate AllRateLimited(attempts: nat -> Attempt, from: nat, to: int)
  {
    forall j: nat :: from <= j < to ==> attempts(j).RateLimited?
  }

  /**
   * The loop raises exactly when every allowed attempt was rate-limited,
   * and then it has slept once per attempt; otherwise it stops at the first
   * attempt that was not rate-limited, after one sleep per earlier attempt.
   */
  lemma {:induction false} RetryCeiling(args: Result<CompletionArgs, string>, model: string, maxRetries: int, attempts: nat -> Attempt, k: nat)
    requires k <= maxRetries
    ensures RetryFrom(args, model, maxRetries, attempts, k).0.MaxRetriesExceeded?
            <==> k == maxRetries || (args.Ok? && AllRateLimited(attempts, k, maxRetries))
    ensures RetryFrom(args, model, maxRetries, attempts, k).0.MaxRetriesExceeded? ==>
              |RetryFrom(args, model, maxRetries, attempts, k).1| == maxRetries - k
    ensures |RetryFrom(args, model, maxRetries, attempts, k).1| <= maxRetries - k
    decreases maxRetries - k
  {
    if k < maxRetries && args.Ok? && attempts(k).RateLimited? {
      RetryCeiling(args, model, maxRetries, attempts, k + 1);
      if AllRateLimited(attempts, k + 1, maxRetries) {
        assert AllRateLimited(attempts, k, maxRetries) by {
          forall j: nat | k <= j < maxRetries ensures attempts(j).RateLimited? {
            if j > k { assert k + 1 <= j; }
          }
        }
      }
    }
  }

  /** The first attempt that is not rate-limited decides the reply, after one sleep per earlier attempt. */
  lemma {:induction false} RetryStopsAtFirstAnswer(model: string, args: CompletionArgs, maxRetries: int, attempts: nat -> Attempt, k: nat, j: nat)
    requires k <= j < maxRetries
    requires AllRateLimited(attempts, k, j) && !attempts(j).RateLimited?
    ensures var (reply, sleeps) := RetryFrom(Ok(args), model, maxRetries, attempts, k);
            |sleeps| == j - k
            && (attempts(j).Answered? ==> reply == Replied(FromResponse(model, attempts(j).response)))
            && (attempts(j).Failed? ==> reply == Replied(Sentinel(model)))
    decreases j - k
  {
    if k < j {
      assert attempts(k).RateLimited?;
      assert AllRateLimited(attempts, k + 1, j);
      RetryStopsAtFirstAnswer(model, args, maxRetries, attempts, k + 1, j);
      var rest := RetryFrom(Ok(args), model, maxRetries, attempts, k + 1);
      assert RetryFrom(Ok(args), model, maxRetries, attempts, k) == (rest.0, [WaitTime(attempts(k).message)] + rest.1);
    }
  }

  /** Every sleep of the loop lasts at least two seconds. */
  lemma {:induction false} SleepsAtLeastTwo(args: Result<CompletionArgs, string>, model: string, maxRetries: int, attempts: nat -> Attempt, k: nat)
    ensures forall i :: 0 <= i < |RetryFrom(args, model, maxRetries, attempts, k).1| ==> RetryFrom(args, model, maxRetries, attempts, k).1[i] >= 2.0
    decreases maxRetries - k
  {
    if k < maxRetries && args.Ok? && attempts(k).RateLimited? {
      SleepsAtLeastTwo(args, model, maxRetries, attempts, k + 1);
    }
  }

  /** A failed argument build (no `effort` for an OpenAI model) is caught and answered with the sentinel. */
  lemma MissingEffortAnswersSentinel(model: string, messages: seq<Message>, temperature: real, maxRetries: int,
                                      reasoning: Reasoning, provider: Option<string>, attempts: nat -> Attempt)
    requires maxRetries > 0 && StartsWith(model, OpenAiPrefix) && "effort" !in reasoning
    ensures RetryFrom(BuildLitellmArgs(model, messages, temperature, false, Some(reasoning), provider), model, maxRetries, attempts, 0)
            == (Replied(Sentinel(model)), [])
  {
  }

  // ----- streaming completion

  /** One streamed call: the chunks' `delta.content` values, or the error it raised. */
  datatype StreamAttempt = Streamed(chunks: seq<Option<string>>) | StreamRateLimited(message: string) | StreamFailed(message: string)

  /** One yielded `(token, response, usage)` triple. */
  datatype StreamItem = StreamItem(token: string, response: string, usage: Usage.Record)

  /** How the generator ended: it returned, or it raised. */
  datatype StreamEnd = Finished | StreamRaised(message: string)

  /** `delta.content or ""`. */
  function Tokens(chunks: seq<Option<string>>): (ts: seq<string>)
    ensures |ts| == |chunks|
    ensures forall i :: 0 <= i < |chunks| ==> ts[i] == chunks[i].GetOr("")
  {
    seq(|chunks|, i requires 0 <= i < |chunks| => chunks[i].GetOr(""))
  }

  /** The concatenation of tokens. */
  function Concat(ts: seq<string>): string
  {
    if ts == [] then "" else Concat(ts[..|ts| - 1]) + ts[|ts| - 1]
  }

  /** The items a successful stream yields: one per chunk, then the final `("", full, usage)`. */
  function StreamItems(model: string, ts: seq<string>): seq<StreamItem>
  {
    seq(|ts|, i requires 0 <= i < |ts| => StreamItem(ts[i], Concat(ts[..i + 1]), EmptyUsage(model)))
    + [StreamItem("", Concat(ts), EmptyUsage(model))]
  }

  /** What the generator yields from attempt `k` on, how it ends, and the sleeps before it. */
  function StreamFrom(args: Result<CompletionArgs, string>, model: string, maxRetries: int, attempts: nat -> StreamAttempt, k: nat)
    : (seq<StreamItem>, StreamEnd, seq<real>)
    decreases maxRetries - k
  {
    if k >= maxRetries then ([], StreamRaised(MaxRetriesMessage), [])
    else if args.Err? then ([], StreamRaised(args.error), [])
    else match attempts(k)
      case Streamed(chunks) => (StreamItems(model, Tokens(chunks)), Finished, [])
      case StreamFailed(message) => ([], StreamRaised(message), [])
      case StreamRateLimited(message) =>
        var (items, end, sleeps) := StreamFrom(args, model, maxRetries, attempts, k + 1);
        (items, end, [WaitTime(message)] + sleeps)
  }

  /** Yields one item per chunk, each carrying the text streamed so far. */
  method StreamChunks(model: string, chunks: seq<Option<string>>) returns (items: seq<StreamItem>)
    ensures items == StreamItems(model, Tokens(chunks))
  {
    var ts := Tokens(chunks);
    var fullResponse := "";
    items := [];
    for i := 0 to |chunks|
      invariant fullResponse == Concat(ts[..i])
      invariant items == seq(i, j requires 0 <= j < i => StreamItem(ts[j], Concat(ts[..j + 1]), EmptyUsage(model)))
    {
      var token := chunks[i].GetOr("");
      assert ts[..i + 1][..i] == ts[..i];
      fullResponse := fullResponse + token;
      items := items + [StreamItem(token, fullResponse, EmptyUsage(model))];
    }
    assert ts[..|chunks|] == ts;
    items := items + [StreamItem("", fullResponse, EmptyUsage(model))];
  }

  /**
   * `get_streaming_completion_with_retry`: the items yielded, how the
   * generator ended, and the sleeps between attempts. A build error is not
   * caught here and propagates.
   */
  method GetStreamingCompletionWithRetry(model: string, messages: seq<Message>, temperature: real, maxRetries: int,
                                         reasoning: Option<Reasoning>, provider: Option<string>, attempts: nat -> StreamAttempt)
    returns (items: seq<StreamItem>, end: StreamEnd, sleeps: seq<real>)
    ensures (items, end, sleeps) == StreamFrom(BuildLitellmArgs(model, messages, temperature, true, reasoning, provider), model, maxRetries, attempts, 0)
  {
    var args := BuildLitellmArgs(model, messages, temperature, true, reasoning, provider);
    ghost var goal := StreamFrom(args, model, maxRetries, attempts, 0);
    var retries: nat := 0;
    sleeps := [];
    items := [];
    assert sleeps + goal.2 == goal.2;
    while retries < maxRetries
      invariant goal.0 == StreamFrom(args, model, maxRetries, attempts, retries).0
      invariant goal.1 == StreamFrom(args, model, maxRetries, attempts, retries).1
      invariant goal.2 == sleeps + StreamFrom(args, model, maxRetries, attempts, retries).2
      decreases maxRetries - retries
    {
      if args.Err? {
        end := StreamRaised(args.error);
        assert sleeps + [] == sleeps;
        return;
      }
      match attempts(retries)
      case Streamed(chunks) =>
        items := StreamChunks(model, chunks);
        end := Finished;
        assert sleeps + [] == sleeps;
        return;
      case StreamFailed(message) =>
        end := StreamRaised(message);
        assert sleeps + [] == sleeps;
        return;
      case StreamRateLimited(message) =>
        ghost var tail := StreamFrom(args, model, maxRetries, attempts, retries + 1);
        assert sleeps + ([WaitTime(message)] + tail.2) == (sleeps + [WaitTime(message)]) + tail.2;
        sleeps := sleeps + [WaitTime(message)];
        retries := retries + 1;
    }
    end := StreamRaised(MaxRetriesMessage);
    assert sleeps + [] == sleeps;
  }

  /**
   * The streaming loop yields something exactly when an attempt streamed,
   * and then its last item is the final empty token; it sleeps at most once
   * per allowed attempt, two seconds or more each time.
   */
  lemma {:induction false} StreamRetryCeiling(args: Result<CompletionArgs, string>, model: string, maxRetries: int,
                                              attempts: nat -> StreamAttempt, k: nat)
    requires k <= maxRetries
    ensures var r := StreamFrom(args, model, maxRetries, attempts, k);
            && |r.2| <= maxRetries - k
            && (forall i :: 0 <= i < |r.2| ==> r.2[i] >= 2.0)
            && (r.1.Finished? <==> r.0 != [])
            && (r.1.Finished? ==> r.0[|r.0| - 1].token == "")
    decreases maxRetries - k
  {
    if k < maxRetries && args.Ok? && attempts(k).StreamRateLimited? {
      StreamRetryCeiling(args, model, maxRetries, attempts, k + 1);
    }
  }

  /**
   * A stream of n chunks yields n+1 items; item i carries chunk i's token and
   * the concatenation of the tokens up to it, and the last item is
   * `("", full response, zero usage)`.
   */
  lemma StreamItemsShape(model: string, chunks: seq<Option<string>>)
    ensures var items := StreamItems(model, Tokens(chunks));
            |items| == |chunks| + 1
            && (forall i :: 0 <= i < |chunks| ==> items[i].token == chunks[i].GetOr(""))
            && (|chunks| > 0 ==> items[0].response == items[0].token)
            && (forall i :: 0 < i < |chunks| ==> items[i].response == items[i - 1].response + items[i].token)
            && items[|chunks|] == StreamItem("", Concat(Tokens(chunks)), EmptyUsage(model))
  {
    var ts := Tokens(chunks);
    var items := StreamItems(model, ts);
    if |chunks| > 0 {
      assert ts[..1] == [ts[0]];
      assert Concat([ts[0]]) == Concat([]) + ts[0];
    }
    forall i | 0 < i < |chunks|
      ensures items[i].response == items[i - 1].response + items[i].token
    {
      assert ts[..i + 1][..i] == ts[..i];
    }
  }
}
