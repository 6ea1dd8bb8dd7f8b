/**
 * The single progress bar of headless mode (`HeadlessProgressManager` in
 * `src/manim_generator/console.py`). The Rich progress display is reduced
 * to the state of its one task: total, description and completed steps.
 */
module Console {
  import opened Wrappers
  import opened Strings

  const InitialDescription := "Initializing..."

  /** `_calculate_total_steps`: initial generation and execution, then three steps per cycle. */
  function TotalSteps(totalCycles: int): int
  {
    2 + totalCycles * 3
  }

  // The phase texts the step rules look for.
  const InitialGeneration := "Initial Code Generation"
  const InitialExecution := "Initial Execution"
  const ReviewCycle := "Review Cycle"
  const CodeRevision := "Code Revision"
  const Execution := "Execution"
  const Finalization := "Finalization"

  /** `_get_current_step`: the first rule whose phase text occurs in `phase` decides the step. */
  function CurrentStep(phase: string, currentCycle: int, totalCycles: int): int
  {
    if Contains(phase, InitialGeneration) then 0
    else if Contains(phase, InitialExecution) then 1
    else if Contains(phase, ReviewCycle) then 2 + (currentCycle - 1) * 3
    else if Contains(phase, CodeRevision) then 2 + (currentCycle - 1) * 3 + 1
    else if Contains(phase, Execution) && currentCycle > 0 then 2 + (currentCycle - 1) * 3 + 2
    else if Contains(phase, Finalization) then TotalSteps(totalCycles)
    else 0
  }

  /** The bar's text: the phase, the extra information and the execution counts. */
  function Description(phase: string, extraInfo: string, executionCount: int, successfulExecutions: int): (d: string)
    ensures StartsWith(d, phase)
    ensures extraInfo == "" && executionCount <= 0 ==> d == phase
    ensures extraInfo != "" ==> StartsWith(d, phase + " | " + extraInfo)
    ensures executionCount > 0 ==>
              d == (if extraInfo != "" then phase + " | " + extraInfo else phase)
                   + " | Executions: " + IntToString(executionCount) + " (" + IntToString(successfulExecutions) + " successful)"
    ensures executionCount <= 0 ==> d == (if extraInfo != "" then phase + " | " + extraInfo else phase)
  {
    var withExtra := if extraInfo != "" then phase + " | " + extraInfo else phase;
    assert withExtra[..|phase|] == phase;
    var d := if executionCount > 0 then
        withExtra + " | Executions: " + IntToString(executionCount) + " (" + IntToString(successfulExecutions) + " successful)"
      else withExtra;
    assert d[..|withExtra|] == withExtra;
    d
  }

  class HeadlessProgressManager {
    const totalCycles: int
    var currentCycle: int
    var executionCount: int
    var successfulExecutions: int
    var progressStarted: bool
    /** The id of the bar's task, once `start` has created it. */
    var taskId: Option<nat>
    /** How many tasks `add_task` has created. */
    var tasksAdded: nat
    /** A progress bar's total, description and completed steps. */
    var taskTotal: int
    var description: string
    var completed: int

    ghost predicate Valid()
      reads this
    {
      0 <= successfulExecutions <= executionCount
      && (progressStarted ==> taskId.Some?)
      && (taskId.Some? ==> taskId.value < tasksAdded)
    }

    constructor(totalCycles: int)
      ensures Valid()
      ensures this.totalCycles == totalCycles
      ensures currentCycle == 0 && executionCount == 0 && successfulExecutions == 0
      ensures !progressStarted && taskId.None? && tasksAdded == 0
    {
      this.totalCycles := totalCycles;
      currentCycle := 0;
      executionCount := 0;
      successfulExecutions := 0;
      progressStarted := false;
      taskId := None;
      tasksAdded := 0;
      taskTotal := 0;
      description := "";
      completed := 0;
    }

    /** Starts the display once: a second call while started changes nothing. */
    method Start()
      requires Valid()
      modifies this
      ensures Valid() && progressStarted
      ensures old(progressStarted) ==> unchanged(this)
      ensures !old(progressStarted) ==>
                taskId == Some(old(tasksAdded)) && tasksAdded == old(tasksAdded) + 1
                && taskTotal == TotalSteps(totalCycles) && description == InitialDescription && completed == 0
      ensures currentCycle == old(currentCycle) && executionCount == old(executionCount)
              && successfulExecutions == old(successfulExecutions)
    {
      if !progressStarted {
        taskId := Some(tasksAdded);
        tasksAdded := tasksAdded + 1;
        taskTotal := TotalSteps(totalCycles);
        description := InitialDescription;
        completed := 0;
        progressStarted := true;
      }
    }

    /** Starts the display if needed, then shows the phase and the step it stands for. */
    method Update(phase: string, extraInfo: string)
      requires Valid()
      modifies this
      ensures Valid() && progressStarted
      ensures description == Description(phase, extraInfo, executionCount, successfulExecutions)
      ensures completed == CurrentStep(phase, currentCycle, totalCycles)
      ensures currentCycle == old(currentCycle) && executionCount == old(executionCount)
              && successfulExecutions == old(successfulExecutions)
      ensures old(progressStarted) ==> taskId == old(taskId) && tasksAdded == old(tasksAdded) && taskTotal == old(taskTotal)
      ensures !old(progressStarted) ==>
                taskId == Some(old(tasksAdded)) && tasksAdded == old(tasksAdded) + 1 && taskTotal == TotalSteps(totalCycles)
    {
      if !progressStarted {
        Start();
      }
      if taskId.None? {
        return;
      }
      description := Description(phase, extraInfo, executionCount, successfulExecutions);
      completed := CurrentStep(phase, currentCycle, totalCycles);
    }

    method SetCycle(cycle: int)
      requires Valid()
      modifies this
      ensures Valid()
      ensures currentCycle == cycle
      ensures executionCount == old(executionCount) && successfulExecutions == old(successfulExecutions)
      ensures progressStarted == old(progressStarted) && taskId == old(taskId) && tasksAdded == old(tasksAdded)
      ensures description == old(description) && completed == old(completed) && taskTotal == old(taskTotal)
    {
      currentCycle := cycle;
    }

    /** Counts one execution, and one success when it succeeded. */
    method IncrementExecution(success: bool)
      requires Valid()
      modifies this
      ensures Valid()
      ensures executionCount == old(executionCount) + 1
      ensures successfulExecutions == old(successfulExecutions) + (if success then 1 else 0)
      ensures currentCycle == old(currentCycle) && progressStarted == old(progressStarted) && taskId == old(taskId)
      ensures tasksAdded == old(tasksAdded) && taskTotal == old(taskTotal)
      ensures description == old(description) && completed == old(completed)
    {
      executionCount := executionCount + 1;
      if success {
        successfulExecutions := successfulExecutions + 1;
      }
    }

    /** Stops the display when it is running; otherwise nothing changes. */
    method Stop()
      requires Valid()
      modifies this
      ensures Valid() && !progressStarted
      ensures !old(progressStarted) ==> unchanged(this)
      ensures taskId == old(taskId) && tasksAdded == old(tasksAdded)
      ensures taskTotal == old(taskTotal) && description == old(description) && completed == old(completed)
      ensures currentCycle == old(currentCycle) && executionCount == old(executionCount)
              && successfulExecutions == old(successfulExecutions)
    {
      if progressStarted {
        progressStarted := false;
      }
    }
  }

  // ----- where the cycle phases land

  /** During cycle c of 1..totalCycles, every cycle phase lands inside the bar. */
  lemma CyclePhasesWithinBar(phase: string, c: int, totalCycles: int)
    requires 1 <= c <= totalCycles
    requires Contains(phase, ReviewCycle) || Contains(phase, CodeRevision) || Contains(phase, Execution)
    ensures 0 <= CurrentStep(phase, c, totalCycles) <= TotalSteps(totalCycles)
  {
  }

  predicate IsDigitChar(ch: char)
  {
    '0' <= ch <= '9'
  }

  lemma {:induction false} NatToStringDigits(n: nat)
    ensures forall i :: 0 <= i < |NatToString(n)| ==> IsDigitChar(NatToString(n)[i])
    decreases n
  {
    if n >= 10 {
      NatToStringDigits(n / 10);
    }
  }

  /** The characters of a name `word + str(k)`: those of `word` and digits. */
  lemma LabelChars(word: string, k: nat, c: char)
    requires c !in word && !IsDigitChar(c)
    ensures c !in word + NatToString(k)
  {
    NatToStringDigits(k);
    var s := word + NatToString(k);
    forall i | 0 <= i < |s| ensures s[i] != c {
      if i >= |word| {
        assert s[i] == NatToString(k)[i - |word|];
      }
    }
  }

  // Which rule decides, for a phase known only by the characters it lacks.

  lemma RuleReviewCycle(s: string, c: int, t: int)
    requires 'I' !in s && Contains(s, ReviewCycle)
    ensures CurrentStep(s, c, t) == 2 + (c - 1) * 3
  {
    MissingCharNotContained(s, InitialGeneration, 'I');
    MissingCharNotContained(s, InitialExecution, 'I');
  }

  lemma RuleCodeRevision(s: string, c: int, t: int)
    requires 'I' !in s && 'y' !in s && Contains(s, CodeRevision)
    ensures CurrentStep(s, c, t) == 2 + (c - 1) * 3 + 1
  {
    MissingCharNotContained(s, InitialGeneration, 'I');
    MissingCharNotContained(s, InitialExecution, 'I');
    MissingCharNotContained(s, ReviewCycle, 'y');
  }

  lemma RuleExecution(s: string, c: int, t: int)
    requires c > 0 && 'I' !in s && 'C' !in s && Contains(s, Execution)
    ensures CurrentStep(s, c, t) == 2 + (c - 1) * 3 + 2
  {
    MissingCharNotContained(s, InitialGeneration, 'I');
    MissingCharNotContained(s, InitialExecution, 'I');
    MissingCharNotContained(s, ReviewCycle, 'C');
    MissingCharNotContained(s, CodeRevision, 'C');
  }

  lemma RuleFinalization(s: string, c: int, t: int)
    requires 'I' !in s && 'R' !in s && 'C' !in s && 'E' !in s && Contains(s, Finalization)
    ensures CurrentStep(s, c, t) == TotalSteps(t)
  {
    MissingCharNotContained(s, InitialGeneration, 'I');
    MissingCharNotContained(s, InitialExecution, 'I');
    MissingCharNotContained(s, ReviewCycle, 'R');
    MissingCharNotContained(s, CodeRevision, 'C');
    assert Execution[0] == 'E';
    MissingCharNotContained(s, Execution, 'E');
  }

  /** A phase lacking a character of every rule text gets step 0. */
  lemma RuleNone(s: string, c: int, t: int)
    requires 'I' !in s && 'C' !in s && 'E' !in s && 'F' !in s
    ensures CurrentStep(s, c, t) == 0
  {
    MissingCharNotContained(s, InitialGeneration, 'I');
    MissingCharNotContained(s, InitialExecution, 'I');
    MissingCharNotContained(s, ReviewCycle, 'C');
    MissingCharNotContained(s, CodeRevision, 'C');
    assert Execution[0] == 'E';
    MissingCharNotContained(s, Execution, 'E');
    assert Finalization[0] == 'F';
    MissingCharNotContained(s, Finalization, 'F');
  }

  lemma Self(s: string)
    ensures Contains(s, s)
  {
    ContainsPrefix(s, "");
    assert s + "" == s;
  }

  // The phases themselves.

  lemma StepOfInitialGeneration(currentCycle: int, totalCycles: int)
    ensures CurrentStep(InitialGeneration, currentCycle, totalCycles) == 0
  {
    Self(InitialGeneration);
  }

  lemma FinalizationChars()
    ensures 'I' !in Finalization && 'R' !in Finalization && 'C' !in Finalization && 'E' !in Finalization
  {
  }

  lemma StepOfFinalization(currentCycle: int, totalCycles: int)
    ensures CurrentStep(Finalization, currentCycle, totalCycles) == TotalSteps(totalCycles)
  {
    FinalizationChars();
    Self(Finalization);
    RuleFinalization(Finalization, currentCycle, totalCycles);
  }

  function ReviewPhase(k: nat): string
  {
    ReviewCycle + " " + NatToString(k)
  }

  function RevisionPhase(k: nat): string
  {
    CodeRevision + " " + NatToString(k)
  }

  lemma ReviewPhaseFacts(k: nat)
    ensures 'I' !in ReviewPhase(k) && Contains(ReviewPhase(k), ReviewCycle)
  {
    assert 'I' !in ReviewCycle + " ";
    LabelChars(ReviewCycle + " ", k, 'I');
    assert ReviewPhase(k) == ReviewCycle + (" " + NatToString(k));
    ContainsPrefix(ReviewCycle, " " + NatToString(k));
  }

  lemma StepOfReviewCycle(k: nat, totalCycles: int)
    ensures CurrentStep(ReviewPhase(k), k, totalCycles) == 2 + (k - 1) * 3
  {
    ReviewPhaseFacts(k);
    RuleReviewCycle(ReviewPhase(k), k, totalCycles);
  }

  lemma RevisionPhaseChars(k: nat)
    ensures 'I' !in RevisionPhase(k) && 'y' !in RevisionPhase(k)
  {
    assert 'I' !in CodeRevision + " " && 'y' !in CodeRevision + " ";
    LabelChars(CodeRevision + " ", k, 'I');
    LabelChars(CodeRevision + " ", k, 'y');
  }

  lemma StepOfCodeRevision(k: nat, totalCycles: int)
    ensures CurrentStep(RevisionPhase(k), k, totalCycles) == 2 + (k - 1) * 3 + 1
  {
    RevisionPhaseChars(k);
    assert RevisionPhase(k) == CodeRevision + (" " + NatToString(k));
    ContainsPrefix(CodeRevision, " " + NatToString(k));
    RuleCodeRevision(RevisionPhase(k), k, totalCycles);
  }

  // ----- the execution phases the workflow passes

  /** The phase text `execute_code` passes for its step name, as written: the step name itself. */
  function ExecutionPhaseAsWritten(stepName: string): string
  {
    stepName
  }

  /** The phase text the step rules expect for an execution: the step name followed by " Execution". */
  function ExecutionPhase(stepName: string): string
  {
    stepName + " " + Execution
  }

  /** The step names `execute_code` is given: "Initial", then "Revision k". */
  function StepName(k: nat): string
  {
    if k == 0 then "Initial" else "Revision " + NatToString(k)
  }

  lemma StepNameChars(k: nat)
    ensures 'I' !in StepName(k) || k == 0
    ensures 'C' !in StepName(k) && 'E' !in StepName(k) && 'F' !in StepName(k)
  {
    if k > 0 {
      var word := "Revision ";
      assert 'I' !in word && 'C' !in word && 'E' !in word && 'F' !in word;
      LabelChars(word, k, 'I');
      LabelChars(word, k, 'C');
      LabelChars(word, k, 'E');
      LabelChars(word, k, 'F');
    }
  }

  lemma InitialMatchesNoRule(c: int, t: int)
    ensures CurrentStep("Initial", c, t) == 0
  {
    var s := "Initial";
    assert |s| < |InitialGeneration| && |s| < |InitialExecution| && |s| < |CodeRevision|;
    assert 'R' !in s && 'E' !in s && 'F' !in s;
    MissingCharNotContained(s, ReviewCycle, 'R');
    assert Execution[0] == 'E';
    MissingCharNotContained(s, Execution, 'E');
    assert Finalization[0] == 'F';
    MissingCharNotContained(s, Finalization, 'F');
  }

  /** As written, an execution phase matches no rule and sends the bar back to step 0. */
  lemma ExecutionStepAsWritten(k: nat, totalCycles: int)
    ensures CurrentStep(ExecutionPhaseAsWritten(StepName(k)), k, totalCycles) == 0
  {
    if k == 0 {
      InitialMatchesNoRule(k, totalCycles);
    } else {
      StepNameChars(k);
      RuleNone(StepName(k), k, totalCycles);
    }
  }

  lemma InitialExecutionStep(c: int, t: int)
    ensures CurrentStep(ExecutionPhase(StepName(0)), c, t) == 1
  {
    assert ExecutionPhase(StepName(0)) == InitialExecution;
    Self(InitialExecution);
    assert |InitialExecution| < |InitialGeneration|;
  }

  lemma RevisionExecutionFacts(k: nat)
    requires k > 0
    ensures 'I' !in ExecutionPhase(StepName(k)) && 'C' !in ExecutionPhase(StepName(k))
    ensures Contains(ExecutionPhase(StepName(k)), Execution)
  {
    StepNameChars(k);
    var s := ExecutionPhase(StepName(k));
    assert 'I' !in " " + Execution && 'C' !in " " + Execution;
    assert s == StepName(k) + (" " + Execution);
    assert s == (StepName(k) + " ") + Execution;
    ContainsSuffix(StepName(k) + " ", Execution);
  }

  /** With the " Execution" suffix, the initial run lands on step 1 and the run of cycle k on its third step. */
  lemma ExecutionStepCorrected(k: nat, totalCycles: int)
    ensures CurrentStep(ExecutionPhase(StepName(k)), k, totalCycles) == if k == 0 then 1 else 2 + (k - 1) * 3 + 2
  {
    if k == 0 {
      InitialExecutionStep(k, totalCycles);
    } else {
      RevisionExecutionFacts(k);
      RuleExecution(ExecutionPhase(StepName(k)), k, totalCycles);
    }
  }

  /**
   * The i-th phase the bar is given in a run of `totalCycles` cycles, with
   * the cycle number current at that moment: generation, the initial
   * execution, three phases per cycle, then finalization.
   */
  function WorkflowPhase(i: nat, totalCycles: nat, corrected: bool): (string, int)
    requires i <= TotalSteps(totalCycles)
  {
    var exec := (k: nat) => if corrected then ExecutionPhase(StepName(k)) else ExecutionPhaseAsWritten(StepName(k));
    if i == 0 then (InitialGeneration, 0)
    else if i == 1 then (exec(0), 0)
    else if i == TotalSteps(totalCycles) then (Finalization, totalCycles)
    else
      var k := (i - 2) / 3 + 1;
      var r := (i - 2) % 3;
      if r == 0 then (ReviewPhase(k), k)
      else if r == 1 then (RevisionPhase(k), k)
      else (exec(k), k)
  }

  function StepAt(i: nat, totalCycles: nat, corrected: bool): int
    requires i <= TotalSteps(totalCycles)
  {
    var (phase, cycle) := WorkflowPhase(i, totalCycles, corrected);
    CurrentStep(phase, cycle, totalCycles)
  }

  /** With the corrected execution labels the bar advances one step per phase, ending at the total. */
  lemma CorrectedProgressAdvances(totalCycles: nat, i: nat)
    requires i <= TotalSteps(totalCycles)
    ensures StepAt(i, totalCycles, true) == i
  {
    if i == 0 {
      StepOfInitialGeneration(0, totalCycles);
    } else if i == 1 {
      ExecutionStepCorrected(0, totalCycles);
    } else if i == TotalSteps(totalCycles) {
      StepOfFinalization(totalCycles, totalCycles);
    } else {
      var k := (i - 2) / 3 + 1;
      var r := (i - 2) % 3;
      assert i == 2 + (k - 1) * 3 + r;
      if r == 0 {
        StepOfReviewCycle(k, totalCycles);
      } else if r == 1 {
        StepOfCodeRevision(k, totalCycles);
      } else {
        ExecutionStepCorrected(k, totalCycles);
      }
    }
  }

  lemma PhaseOfCycle(totalCycles: nat, k: nat, r: nat, corrected: bool)
    requires 1 <= k <= totalCycles && r < 3
    ensures WorkflowPhase(2 + (k - 1) * 3 + r, totalCycles, corrected)
            == (if r == 0 then ReviewPhase(k)
                else if r == 1 then RevisionPhase(k)
                else if corrected then ExecutionPhase(StepName(k)) else ExecutionPhaseAsWritten(StepName(k)), k)
  {
    var i := 2 + (k - 1) * 3 + r;
    assert (i - 2) / 3 + 1 == k && (i - 2) % 3 == r;
  }

  /** As written, the bar falls back to 0 after the code revision of every cycle. */
  lemma ProgressRegressesAsWritten(totalCycles: nat, k: nat)
    requires 1 <= k <= totalCycles
    ensures StepAt(2 + (k - 1) * 3 + 1, totalCycles, false) == 2 + (k - 1) * 3 + 1
    ensures StepAt(2 + (k - 1) * 3 + 2, totalCycles, false) == 0
  {
    PhaseOfCycle(totalCycles, k, 1, false);
    PhaseOfCycle(totalCycles, k, 2, false);
    StepOfCodeRevision(k, totalCycles);
    ExecutionStepAsWritten(k, totalCycles);
  }
}
