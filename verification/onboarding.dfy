/**
 The post-login wizard (components/Onboarding.tsx): a step counter over four fixed steps,
 the Next button, its label, the indicator dots and the progress bar.
 */
module Onboarding {

  /** The titles of the wizard's steps, in order; the rest of each step is presentation. */
  const StepTitles: seq<string> := [
    "Welcome to SecureThought",
    "Mission Control & Analytics",
    "Encrypted Threat Hunter",
    "Neural Analyst 'Cipher'"
  ]

  const InitialStep: nat := 0

  function StepCount(): (n: nat)
    ensures n == 4
  {
    |StepTitles|
  }

  function LastStep(): nat {
    StepCount() - 1
  }

  predicate ValidStep(step: nat) {
    step <= LastStep()
  }

  /** The step after a press of Next, and whether the press called `onComplete`. */
  datatype NextResult = NextResult(step: nat, completed: bool)

  /** Next advances until the last step; there it completes the wizard and keeps the step. */
  function HandleNext(step: nat): (r: NextResult)
    ensures r.completed <==> step >= LastStep()
    ensures !r.completed ==> r.step == step + 1
    ensures r.completed ==> r.step == step
    ensures ValidStep(step) ==> ValidStep(r.step)
  {
    if step < StepCount() - 1 then NextResult(step + 1, false) else NextResult(step, true)
  }

  function ButtonLabel(step: nat): (text: string)
    ensures text == "Launch System" <==> step == LastStep()
    ensures text == "Next" <==> step != LastStep()
  {
    if step == StepCount() - 1 then "Launch System" else "Next"
  }

  /** Which indicator dots are highlighted, one per step. */
  function Dots(step: nat): (dots: seq<bool>)
    ensures |dots| == StepCount()
    ensures forall i :: 0 <= i < |dots| ==> (dots[i] <==> i == step)
  {
    seq(StepCount(), i requires 0 <= i < StepCount() => i == step)
  }

  /** On a valid step exactly one dot is highlighted, the one for the current step. */
  lemma ExactlyOneDot(step: nat)
    requires ValidStep(step)
    ensures (set i | 0 <= i < StepCount() && Dots(step)[i]) == {step}
    ensures |set i | 0 <= i < StepCount() && Dots(step)[i]| == 1
  {
    var lit := set i | 0 <= i < StepCount() && Dots(step)[i];
    assert step in lit;
    assert forall i :: i in lit ==> i == step;
  }

  /** The width of the progress bar, in percent. */
  function Progress(step: nat): real {
    (step + 1) as real / StepCount() as real * 100.0
  }

  /** Every press of Next that advances widens the bar; it is full exactly on the last step. */
  lemma ProgressGrowsToFull(a: nat, b: nat)
    requires ValidStep(a) && ValidStep(b)
    ensures a < b ==> Progress(a) < Progress(b)
    ensures Progress(a) == 100.0 <==> a == LastStep()
    ensures 0.0 < Progress(a) <= 100.0
  {
  }

  /** The step after `k` presses of Next from `step`, and whether some press completed the wizard. */
  function PressNext(step: nat, k: nat): NextResult
    decreases k
  {
    if k == 0 then NextResult(step, false)
    else
      var r := HandleNext(step);
      if r.completed then r else PressNext(r.step, k - 1)
  }

  /**
   From the first step the wizard needs exactly four presses: three advance to the last step,
   the fourth completes it.
   */
  lemma {:induction false} FourPressesComplete(k: nat)
    ensures k < StepCount() ==> PressNext(InitialStep, k) == NextResult(k, false)
    ensures k >= StepCount() ==> PressNext(InitialStep, k) == NextResult(LastStep(), true)
  {
    assert PressNext(3, 0) == NextResult(3, false);
    assert PressNext(2, 1) == PressNext(3, 0);
    assert PressNext(1, 2) == PressNext(2, 1);
    assert PressNext(0, 3) == PressNext(1, 2);
    if k >= StepCount() {
      assert PressNext(3, k - 3) == NextResult(3, true);
      assert PressNext(2, k - 2) == PressNext(3, k - 3);
      assert PressNext(1, k - 1) == PressNext(2, k - 2);
      assert PressNext(0, k) == PressNext(1, k - 1);
    } else if k == 2 {
      assert PressNext(1, 1) == PressNext(2, 0);
    } else if k == 1 {
      assert PressNext(0, 1) == PressNext(1, 0);
    }
  }
}
