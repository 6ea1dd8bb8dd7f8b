/**
 * Token accounting (`src/manim_generator/utils/usage.py`): one record per
 * LLM step, with running totals of tokens, cost and LLM time.
 */
module Usage {

  /** A value of a usage dictionary: an integer, a float or a string. */
  datatype Value = Count(n: int) | Amount(x: real) | Label(s: string)

  /** A usage dictionary, or a step record built from one. */
  type Record = map<string, Value>

  /** `record.get(key, 0)` read as an integer. */
  function IntField(r: Record, key: string): int
  {
    if key in r && r[key].Count? then r[key].n else 0
  }

  /** `record.get(key, 0.0)` read as a number. */
  function RealField(r: Record, key: string): real
  {
    if key !in r then 0.0
    else match r[key]
      case Count(n) => n as real
      case Amount(x) => x
      case Label(_) => 0.0
  }

  /**
   * The fields the tracker adds up hold numbers: token counts are integers,
   * cost and time are integers or floats (Python would reject a string).
   */
  predicate Numeric(usage: Record)
  {
    ("total_tokens" in usage ==> usage["total_tokens"].Count?)
    && ("prompt_tokens" in usage ==> usage["prompt_tokens"].Count?)
    && ("completion_tokens" in usage ==> usage["completion_tokens"].Count?)
    && ("cost" in usage ==> !usage["cost"].Label?)
    && ("llm_time" in usage ==> !usage["llm_time"].Label?)
  }

  /** `{"step": name, "model": model, **usage}`: the usage fields win over the two labels. */
  function StepRecord(stepName: string, model: string, usage: Record): Record
  {
    map["step" := Label(stepName), "model" := Label(model)] + usage
  }

  /**
   * A step record holds the two labels and every usage field; a usage
   * field of the same name wins over a label, and the sums over records
   * see exactly the usage's numbers.
   */
  lemma StepRecordFields(stepName: string, model: string, usage: Record)
    ensures var r := StepRecord(stepName, model, usage);
            && r.Keys == usage.Keys + {"step", "model"}
            && (forall key :: key in usage ==> r[key] == usage[key])
            && ("step" !in usage ==> r["step"] == Label(stepName))
            && ("model" !in usage ==> r["model"] == Label(model))
            && (forall key :: key != "step" && key != "model" ==> IntField(r, key) == IntField(usage, key))
  {
  }

  /** `sum(step.get(key, 0) for step in steps)` over integer fields. */
  function SumInt(steps: seq<Record>, key: string): int
  {
    if steps == [] then 0 else SumInt(steps[..|steps| - 1], key) + IntField(steps[|steps| - 1], key)
  }

  /** The same sum over float fields. */
  function SumReal(steps: seq<Record>, key: string): real
  {
    if steps == [] then 0.0 else SumReal(steps[..|steps| - 1], key) + RealField(steps[|steps| - 1], key)
  }

  lemma SumAppend(steps: seq<Record>, r: Record, key: string)
    ensures SumInt(steps + [r], key) == SumInt(steps, key) + IntField(r, key)
    ensures SumReal(steps + [r], key) == SumReal(steps, key) + RealField(r, key)
  {
    assert (steps + [r])[..|steps|] == steps;
  }

  /** What `get_tracking_data` hands out. */
  datatype TrackingData = TrackingData(steps: seq<Record>, totalTokens: int, totalCost: real, totalLlmTime: real)

  /** The running totals are the sums of the recorded steps. */
  ghost predicate Consistent(data: TrackingData)
  {
    data.totalTokens == SumInt(data.steps, "total_tokens")
    && data.totalCost == SumReal(data.steps, "cost")
    && data.totalLlmTime == SumReal(data.steps, "llm_time")
  }

  class TokenUsageTracker {
    var steps: seq<Record>
    var totalTokens: int
    var totalCost: real
    var totalLlmTime: real

    ghost predicate Valid()
      reads this
    {
      Consistent(TrackingData(steps, totalTokens, totalCost, totalLlmTime))
    }

    constructor()
      ensures Valid()
      ensures steps == [] && totalTokens == 0 && totalCost == 0.0 && totalLlmTime == 0.0
    {
      steps := [];
      totalTokens := 0;
      totalCost := 0.0;
      totalLlmTime := 0.0;
    }

    /** Records one step and adds its `total_tokens`, `cost` and `llm_time` (0 when absent). */
    method AddStep(stepName: string, model: string, usage: Record)
      requires Valid() && Numeric(usage)
      modifies this
      ensures Valid()
      ensures steps == old(steps) + [StepRecord(stepName, model, usage)]
      ensures totalTokens == old(totalTokens) + IntField(usage, "total_tokens")
      ensures totalCost == old(totalCost) + RealField(usage, "cost")
      ensures totalLlmTime == old(totalLlmTime) + RealField(usage, "llm_time")
    {
      var record := StepRecord(stepName, model, usage);
      StepRecordFields(stepName, model, usage);
      SumAppend(steps, record, "total_tokens");
      SumAppend(steps, record, "cost");
      SumAppend(steps, record, "llm_time");
      steps := steps + [record];
      totalTokens := totalTokens + IntField(usage, "total_tokens");
      totalCost := totalCost + RealField(usage, "cost");
      totalLlmTime := totalLlmTime + RealField(usage, "llm_time");
    }

    /** The tracking data; on a valid tracker its totals are the sums over its steps. */
    function GetTrackingData(): (data: TrackingData)
      reads this
      ensures Valid() ==> Consistent(data)
      ensures data.steps == steps
    {
      TrackingData(steps, totalTokens, totalCost, totalLlmTime)
    }
  }

  /** A step whose prompt and completion tokens add up to its total. */
  predicate SplitEvenly(r: Record)
  {
    IntField(r, "prompt_tokens") + IntField(r, "completion_tokens") == IntField(r, "total_tokens")
  }

  predicate NonNegative(r: Record)
  {
    IntField(r, "prompt_tokens") >= 0 && IntField(r, "completion_tokens") >= 0
  }

  lemma {:induction false} SumsSplit(steps: seq<Record>)
    ensures (forall k :: 0 <= k < |steps| ==> SplitEvenly(steps[k])) ==>
              SumInt(steps, "prompt_tokens") + SumInt(steps, "completion_tokens") == SumInt(steps, "total_tokens")
  {
    if steps != [] && forall k :: 0 <= k < |steps| ==> SplitEvenly(steps[k]) {
      var init := steps[..|steps| - 1];
      assert forall k :: 0 <= k < |init| ==> init[k] == steps[k];
      SumsSplit(init);
      assert SplitEvenly(steps[|steps| - 1]);
    }
  }

  lemma {:induction false} SumsNonNegative(steps: seq<Record>)
    ensures (forall k :: 0 <= k < |steps| ==> NonNegative(steps[k])) ==>
              SumInt(steps, "prompt_tokens") >= 0 && SumInt(steps, "completion_tokens") >= 0
  {
    if steps != [] && forall k :: 0 <= k < |steps| ==> NonNegative(steps[k]) {
      var init := steps[..|steps| - 1];
      assert forall k :: 0 <= k < |init| ==> init[k] == steps[k];
      SumsNonNegative(init);
      assert NonNegative(steps[|steps| - 1]);
    }
  }

  /**
   * `get_usage_totals`: the prompt and completion tokens summed over the
   * steps, absent values counting 0. The sums are non-negative when every
   * step's counts are, and when every step's prompt and completion
   * tokens make up its total, the two sums make up the tracker's total.
   */
  function GetUsageTotals(data: TrackingData): (totals: (int, int))
    ensures (forall k :: 0 <= k < |data.steps| ==> NonNegative(data.steps[k])) ==> totals.0 >= 0 && totals.1 >= 0
    ensures (forall k :: 0 <= k < |data.steps| ==> SplitEvenly(data.steps[k])) ==> totals.0 + totals.1 == SumInt(data.steps, "total_tokens")
  {
    SumsSplit(data.steps);
    SumsNonNegative(data.steps);
    (SumInt(data.steps, "prompt_tokens"), SumInt(data.steps, "completion_tokens"))
  }
}
