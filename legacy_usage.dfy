/**
 * Token accounting of the first layout of the project (`utils/usage.py`,
 * repeated in `manim_workflow.py` and written inline in
 * `manim_generator_backup.py`): the package's step records with running
 * totals of tokens and cost only, and the prompt and completion totals that
 * the summary table and the usage report compute from the steps.
 */
module LegacyUsage {
  import opened Usage

  /** The `token_usage_tracking` dictionary. */
  datatype Tracking = Tracking(steps: seq<Record>, totalTokens: int, totalCost: real)

  /** The running totals are the sums of the recorded steps. */
  ghost predicate Tallied(data: Tracking)
  {
    data.totalTokens == SumInt(data.steps, "total_tokens")
    && data.totalCost == SumReal(data.steps, "cost")
  }

  class TokenUsageTracker {
    var steps: seq<Record>
    var totalTokens: int
    var totalCost: real

    ghost predicate Valid()
      reads this
    {
      Tallied(Tracking(steps, totalTokens, totalCost))
    }

    constructor()
      ensures Valid()
      ensures steps == [] && totalTokens == 0 && totalCost == 0.0
    {
      steps := [];
      totalTokens := 0;
      totalCost := 0.0;
    }

    /** Records one step and adds its `total_tokens` and `cost` (0 when absent); `llm_time` is not summed. */
    method AddStep(stepName: string, model: string, usage: Record)
      requires Valid() && Numeric(usage)
      modifies this
      ensures Valid()
      ensures steps == old(steps) + [StepRecord(stepName, model, usage)]
      ensures totalTokens == old(totalTokens) + IntField(usage, "total_tokens")
      ensures totalCost == old(totalCost) + RealField(usage, "cost")
    {
      var record := StepRecord(stepName, model, usage);
      StepRecordFields(stepName, model, usage);
      SumAppend(steps, record, "total_tokens");
      SumAppend(steps, record, "cost");
      steps := steps + [record];
      totalTokens := totalTokens + IntField(usage, "total_tokens");
      totalCost := totalCost + RealField(usage, "cost");
    }

    /** The tracking dictionary; on a valid tracker its totals are the sums over its steps. */
    function GetTrackingData(): (data: Tracking)
      reads this
      ensures Valid() ==> Tallied(data)
      ensures data.steps == steps
    {
      Tracking(steps, totalTokens, totalCost)
    }
  }

  /**
   * The figures of the summary table's total row and of the report's
   * summary: the prompt and completion tokens summed over the steps (absent
   * values counting 0), then the tracked token and cost totals. They are
   * the package's usage totals of the same steps, and on consistent data
   * the prompt and completion sums make up the token total when every step's
   * counts do.
   */
  function ReportTotals(data: Tracking): (totals: (int, int, int, real))
    ensures (totals.0, totals.1) == GetUsageTotals(TrackingData(data.steps, data.totalTokens, data.totalCost, 0.0))
    ensures totals.2 == data.totalTokens && totals.3 == data.totalCost
    ensures Tallied(data) && (forall k :: 0 <= k < |data.steps| ==> SplitEvenly(data.steps[k])) ==>
              totals.0 + totals.1 == totals.2
    ensures (forall k :: 0 <= k < |data.steps| ==> NonNegative(data.steps[k])) ==> totals.0 >= 0 && totals.1 >= 0
  {
    SumsSplit(data.steps);
    SumsNonNegative(data.steps);
    (SumInt(data.steps, "prompt_tokens"), SumInt(data.steps, "completion_tokens"), data.totalTokens, data.totalCost)
  }

  /**
   * Over the same steps the legacy totals agree with the package tracker's,
   * which also sums `llm_time`.
   */
  lemma SameTotalsAsPackage(legacy: Tracking, package: TrackingData)
    requires Tallied(legacy) && Usage.Consistent(package) && legacy.steps == package.steps
    ensures legacy.totalTokens == package.totalTokens && legacy.totalCost == package.totalCost
    ensures ReportTotals(legacy).0 == GetUsageTotals(package).0 && ReportTotals(legacy).1 == GetUsageTotals(package).1
  {
  }
}
