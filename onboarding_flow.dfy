/** The onboarding carousel: five introduction cards, a Next button that becomes
    "Get Started" on the last card, and a Skip button. */
module Onboarding {

  /** The number of cards in the carousel. */
  const StepCount: nat := 5

  const LastStep: nat := StepCount - 1

  /** One press of Next at `step`: the next card, or, on the last card, the same card
      together with a call of onComplete. */
  function Next(step: nat): (nat, bool) {
    if step < StepCount - 1 then (step + 1, false) else (step, true)
  }

  /** The card shown after n presses of Next from `step`, and whether the n-th press
      called onComplete. */
  function Presses(step: nat, n: nat): (nat, bool)
    decreases n
  {
    if n == 0 then (step, false)
    else if n == 1 then Next(step)
    else Presses(Next(step).0, n - 1)
  }

  /** n presses from a card move n cards forward but never past the last one, and the
      n-th press completes exactly when the presses reach beyond the last card. */
  lemma {:induction false} PressesFrom(step: nat, n: nat)
    requires step <= LastStep
    decreases n
    ensures Presses(step, n).0 == if step + n <= LastStep then step + n else LastStep
    ensures Presses(step, n).1 <==> n >= 1 && step + n >= StepCount
  {
    if n > 1 {
      PressesFrom(Next(step).0, n - 1);
    }
  }

  /** From the first card, the first press of Next that calls onComplete is press number
      StepCount, and every later press calls it again. */
  lemma FirstCompletion(n: nat)
    requires n >= 1
    ensures Presses(0, n).1 <==> n >= StepCount
    ensures n < StepCount ==> Presses(0, n).0 == n
  {
    PressesFrom(0, n);
  }

  /** Progress dot i is drawn in the highlight colour at `step`. */
  predicate DotIsLit(step: nat, i: nat) {
    i <= step
  }

  /** How many of the progress dots 0 .. k-1 are lit at `step`. */
  function LitDots(step: nat, k: nat): nat {
    if k == 0 then 0 else LitDots(step, k - 1) + (if DotIsLit(step, k - 1) then 1 else 0)
  }

  /** At any card, that card's dot and the ones before it are lit: step + 1 dots. */
  lemma {:induction false} LitDotsCount(step: nat, k: nat)
    requires step < k
    ensures LitDots(step, k) == step + 1
  {
    if k - 1 > step {
      LitDotsCount(step, k - 1);
    } else {
      LitDotsNone(step, k - 1);
    }
  }

  lemma {:induction false} LitDotsNone(step: nat, k: nat)
    requires k <= step + 1
    ensures LitDots(step, k) == k
  {
    if k > 0 {
      LitDotsNone(step, k - 1);
    }
  }

  class OnboardingFlow {
    var currentStep: nat

    ghost predicate Valid()
      reads this
    {
      currentStep <= LastStep
    }

    constructor ()
      ensures Valid() && currentStep == 0
    {
      currentStep := 0;
    }

    /** The Next / Get Started button; `completed` reports a call of onComplete. */
    method NextStep() returns (completed: bool)
      requires Valid()
      modifies this
      ensures Valid()
      ensures (currentStep, completed) == Next(old(currentStep))
      ensures old(currentStep) <= currentStep
      ensures completed <==> old(currentStep) == LastStep
    {
      if currentStep < StepCount - 1 {
        currentStep := currentStep + 1;
        completed := false;
      } else {
        completed := true;
      }
    }

    /** The Skip button calls onComplete from any card and leaves the card as it is. */
    method Skip() returns (completed: bool)
      ensures completed
    {
      completed := true;
    }

    /** Whether progress dot i is drawn in the highlight colour. */
    function DotLit(i: nat): bool
      reads this
    {
      DotIsLit(currentStep, i)
    }

    /** Exactly currentStep + 1 of the StepCount dots are lit: dots 0 .. currentStep. */
    lemma LitDotsNow()
      requires Valid()
      ensures LitDots(currentStep, StepCount) == currentStep + 1
      ensures forall i :: 0 <= i < StepCount ==> (DotLit(i) <==> i <= currentStep)
    {
      LitDotsCount(currentStep, StepCount);
    }

    /** The label of the forward button. */
    function ButtonLabel(): (caption: string)
      reads this
      ensures caption == "Get Started" <==> currentStep == LastStep
    {
      if currentStep == StepCount - 1 then "Get Started" else "Next"
    }
  }
}
