/** The row of step circles above the wizard: each step shows as completed,
    active or pending, its circle holds a check mark or its number, and a
    connector line follows every step but the last. */
module StepperNav {
  import opened Text

  datatype Status = Completed | Active | Pending

  /** Completed wins over active: a completed step shows as completed even
      while it is the current step. */
  function StepStatus(index: nat, currentStep: nat, completed: set<nat>): Status {
    if index in completed then Completed
    else if index == currentStep then Active
    else Pending
  }

  const CheckMark := "\U{2713}"

  /** `isCompleted ? "✓" : index + 1` */
  function CircleText(index: nat, completed: set<nat>): string {
    if index in completed then CheckMark else Decimal(index + 1)
  }

  datatype StepView = StepView(status: Status, circle: string, connector: bool)

  /** The views of steps `i`, `i + 1`, ..., `stepCount - 1`. */
  function Row(i: nat, stepCount: nat, currentStep: nat, completed: set<nat>): (r: seq<StepView>)
    ensures |r| == if i <= stepCount then stepCount - i else 0
    decreases stepCount - i
  {
    if i >= stepCount then []
    else
      [StepView(StepStatus(i, currentStep, completed), CircleText(i, completed), i < stepCount - 1)]
      + Row(i + 1, stepCount, currentStep, completed)
  }

  function CountConnectors(views: seq<StepView>): nat {
    if views == [] then 0 else (if views[0].connector then 1 else 0) + CountConnectors(views[1..])
  }

  function CountActive(views: seq<StepView>): nat {
    if views == [] then 0 else (if views[0].status == Active then 1 else 0) + CountActive(views[1..])
  }

  /** A row of `n` steps draws `n - 1` connectors. */
  lemma {:induction false} ConnectorCount(i: nat, stepCount: nat, currentStep: nat, completed: set<nat>)
    requires i <= stepCount
    ensures CountConnectors(Row(i, stepCount, currentStep, completed)) == if i < stepCount then stepCount - 1 - i else 0
    decreases stepCount - i
  {
    if i < stepCount {
      ConnectorCount(i + 1, stepCount, currentStep, completed);
    }
  }

  /** At most one step shows as active: the current one, when it is in range
      and not completed. */
  lemma {:induction false} ActiveCount(i: nat, stepCount: nat, currentStep: nat, completed: set<nat>)
    requires i <= stepCount
    ensures CountActive(Row(i, stepCount, currentStep, completed)) ==
      if i <= currentStep < stepCount && currentStep !in completed then 1 else 0
    decreases stepCount - i
  {
    if i < stepCount {
      ActiveCount(i + 1, stepCount, currentStep, completed);
    }
  }

  /** The circle of a step that is not completed shows its 1-based number, which
      reads back as that number; a completed one shows the check mark, which is
      never a number. */
  lemma CircleReadsBack(index: nat, completed: set<nat>)
    ensures index !in completed ==> ParseDecimal(CircleText(index, completed)) == index + 1
    ensures index in completed <==> CircleText(index, completed) == CheckMark
  {
    DecimalRoundTrip(index + 1);
    if index !in completed {
      var d := Decimal(index + 1);
      assert IsDigit(d[0]);
      assert d != CheckMark by { assert CheckMark[0] == '\U{2713}'; }
    }
  }
}
