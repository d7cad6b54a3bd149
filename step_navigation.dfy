/** The wizard's button bar: Cancel, Back (from the second step on) and
    either Next or the final "Save & Send", as functions of the current step,
    the step count, whether the current step may be left, and whether a save
    is in flight. */
module StepNavigation {

  datatype Primary = NextButton | FinishButton

  datatype Bar = Bar(
    cancelEnabled: bool,
    backShown: bool,
    backEnabled: bool,
    primary: Primary,
    primaryEnabled: bool,
    primaryLabel: string)

  function Render(currentStep: int, totalSteps: int, canProceed: bool, isSaving: bool): Bar {
    var primary := if currentStep < totalSteps - 1 then NextButton else FinishButton;
    Bar(
      cancelEnabled := !isSaving,
      backShown := currentStep > 0,
      backEnabled := !isSaving,
      primary := primary,
      primaryEnabled := canProceed && !isSaving,
      primaryLabel := if isSaving then "Saving..." else if primary == NextButton then "Next" else "Save & Send")
  }

  /** While a save is in flight nothing in the bar can be pressed, and the
      primary button reads "Saving..."; otherwise Cancel and Back are always
      pressable and the primary button exactly when the step may be left. */
  lemma SavingLocksBar(currentStep: int, totalSteps: int, canProceed: bool, isSaving: bool)
    ensures var b := Render(currentStep, totalSteps, canProceed, isSaving);
      && (isSaving ==> !b.cancelEnabled && !b.backEnabled && !b.primaryEnabled && b.primaryLabel == "Saving...")
      && (!isSaving ==> b.cancelEnabled && b.backEnabled && (b.primaryEnabled <==> canProceed))
  {
  }

  /** Back appears only after the first step, and the last step shows the
      finishing button instead of Next. */
  lemma ButtonsByStep(currentStep: int, totalSteps: int, canProceed: bool)
    ensures var b := Render(currentStep, totalSteps, canProceed, false);
      && (b.backShown <==> currentStep > 0)
      && (b.primary == FinishButton <==> currentStep >= totalSteps - 1)
      && (b.primaryLabel == "Save & Send" <==> b.primary == FinishButton)
  {
  }
}
