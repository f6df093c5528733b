/** The Umrah planner: the four rites in order, a current step that the pilgrim
    advances with "Mark as Complete" or sets by clicking a step's card, and the
    progress bar, icons, flags and crowd badges derived from it. */
module Umrah {
  import opened Seqs

  /** One rite of the Umrah, with its English and Arabic texts. */
  datatype Step = Step(
    id: int,
    title: string,
    titleAr: string,
    description: string,
    descriptionAr: string,
    duration: string,
    crowdLevel: string,
    tips: seq<string>,
    bestTime: string,
    location: string)

  const UmrahSteps: seq<Step> := [
    Step(1, "Ihram", "الإحرام",
         "Enter the sacred state before entering the Haram boundaries",
         "دخول الحالة المقدسة قبل دخول حدود الحرم",
         "30 minutes", "Low",
         ["Perform Ghusl (ritual bath) before wearing Ihram",
          "Recite Talbiyah: 'Labbaik Allahumma Labbaik'",
          "Avoid perfumes and certain activities"],
         "Before Fajr prayer", "Miqat or designated area"),
    Step(2, "Tawaf", "الطواف",
         "Circumambulate the Kaaba seven times counterclockwise",
         "الطواف حول الكعبة سبع مرات عكس اتجاه عقارب الساعة",
         "45-60 minutes", "High",
         ["Start from the Black Stone if possible",
          "Make Dua during each round",
          "Stay close to the Kaaba but be mindful of others"],
         "2:00 AM - 4:00 AM", "Around the Kaaba"),
    Step(3, "Sa'i", "السعي",
         "Walk/run between Safa and Marwah hills seven times",
         "السعي بين الصفا والمروة سبع مرات",
         "30-45 minutes", "Medium",
         ["Begin at Safa hill facing the Kaaba",
          "Recite the prescribed Duas",
          "Run between the green markers (men only)"],
         "After Tawaf", "Safa and Marwah corridor"),
    Step(4, "Halq/Taqsir", "الحلق أو التقصير",
         "Shave head completely or trim hair",
         "حلق الرأس بالكامل أو تقصير الشعر",
         "15-20 minutes", "Low",
         ["Halq (complete shaving) is preferred for men",
          "Women trim a fingertip length",
          "This marks the completion of Umrah"],
         "After Sa'i", "Designated barbershops")
  ]

  /** The number of steps, `umrahSteps.length`. */
  const StepCount := 4

  /** Step `i` (counting from 0) has id `i + 1`. */
  predicate Numbered(steps: seq<Step>) {
    forall i :: 0 <= i < |steps| ==> steps[i].id == i + 1
  }

  /** The four rites are numbered 1 to 4 in order. */
  lemma StepsNumbered()
    ensures |UmrahSteps| == StepCount
    ensures Numbered(UmrahSteps)
  {
    assert UmrahSteps[0].id == 1 && UmrahSteps[1].id == 2;
    assert UmrahSteps[2].id == 3 && UmrahSteps[3].id == 4;
  }

  // ---------------------------------------------------------------------------
  // Values derived from the current step
  // ---------------------------------------------------------------------------

  /** `progress` in percent: the share of the steps before the current one. */
  function Progress(currentStep: int): int {
    (currentStep - 1) * 100 / StepCount
  }

  /** On the steps' range the progress is exact (no rounding happens, as with the
      floating-point division of the screen): 0, 25, 50 or 75, so it never shows
      100 even on the last step. */
  lemma ProgressValues(currentStep: int)
    requires 1 <= currentStep <= StepCount
    ensures Progress(currentStep) * StepCount == (currentStep - 1) * 100
    ensures Progress(currentStep) == 25 * (currentStep - 1)
    ensures Progress(currentStep) in {0, 25, 50, 75}
    ensures Progress(currentStep) < 100
  {
  }

  /** The two icons of `getStepIcon`. */
  datatype Icon = CheckCircle | Circle

  /** `getStepIcon`: a tick for the steps before the current one. */
  function GetStepIcon(stepId: int, currentStep: int): (icon: Icon)
    ensures icon == CheckCircle <==> stepId < currentStep
  {
    if stepId < currentStep then CheckCircle
    else if stepId == currentStep then Circle
    else Circle
  }

  /** `isCompleted` of a step card. */
  predicate IsCompleted(stepId: int, currentStep: int) {
    stepId < currentStep
  }

  /** `isCurrent` of a step card. */
  predicate IsCurrent(stepId: int, currentStep: int) {
    stepId == currentStep
  }

  /** The icon is a tick exactly on the completed cards. */
  lemma IconMarksCompleted(stepId: int, currentStep: int)
    ensures GetStepIcon(stepId, currentStep) == CheckCircle <==> IsCompleted(stepId, currentStep)
    ensures GetStepIcon(stepId, currentStep) == Circle <==> !IsCompleted(stepId, currentStep)
  {
  }

  /** On the steps' range exactly one card is current, the cards before it are
      completed, and the cards after it are neither. */
  lemma ExactlyOneCurrent(currentStep: int)
    requires 1 <= currentStep <= StepCount
    ensures forall i :: 0 <= i < |UmrahSteps| ==> (IsCurrent(UmrahSteps[i].id, currentStep) <==> i == currentStep - 1)
    ensures forall i :: 0 <= i < |UmrahSteps| ==> (IsCompleted(UmrahSteps[i].id, currentStep) <==> i < currentStep - 1)
    ensures forall i :: 0 <= i < |UmrahSteps| ==> !(IsCurrent(UmrahSteps[i].id, currentStep) && IsCompleted(UmrahSteps[i].id, currentStep))
  {
    StepsNumbered();
  }

  /** The completed steps are the first `currentStep - 1` of a numbered list. */
  lemma {:induction false} CompletedArePrefix(steps: seq<Step>, currentStep: int)
    requires Numbered(steps)
    requires 1 <= currentStep <= |steps| + 1
    ensures Filter(steps, (s: Step) => IsCompleted(s.id, currentStep)) == steps[..currentStep - 1]
    decreases |steps|
  {
    var completed := (s: Step) => IsCompleted(s.id, currentStep);
    if steps != [] {
      var front, last := steps[..|steps| - 1], steps[|steps| - 1];
      assert steps == front + [last];
      assert Numbered(front) by {
        forall i | 0 <= i < |front|
          ensures front[i].id == i + 1
        {
          assert front[i] == steps[i];
        }
      }
      FilterAppend(front, [last], completed);
      FilterCons(last, [], completed);
      if currentStep == |steps| + 1 {
        CompletedArePrefix(front, currentStep - 1);
        FilterAll(front, completed);
        assert steps[..currentStep - 1] == steps;
      } else {
        CompletedArePrefix(front, currentStep);
        assert front[..currentStep - 1] == steps[..currentStep - 1];
      }
    }
  }

  /** Each completed step adds a quarter to the progress bar. */
  lemma ProgressCountsCompletedSteps(currentStep: int)
    requires 1 <= currentStep <= StepCount
    ensures Progress(currentStep) == 25 * |Filter(UmrahSteps, (s: Step) => IsCompleted(s.id, currentStep))|
  {
    StepsNumbered();
    CompletedArePrefix(UmrahSteps, currentStep);
  }

  /** The label of the main button. */
  function ButtonLabel(currentStep: int): string {
    if currentStep == StepCount then "Complete Umrah" else "Mark as Complete"
  }

  /** The button reads "Complete Umrah" exactly on the last step. */
  lemma ButtonLabelIff(currentStep: int)
    ensures ButtonLabel(currentStep) == "Complete Umrah" <==> currentStep == StepCount
    ensures ButtonLabel(currentStep) == "Mark as Complete" <==> currentStep != StepCount
  {
    assert "Complete Umrah"[0] != "Mark as Complete"[0];
  }

  /** `getCrowdColor`: the badge classes of a crowd level. */
  function GetCrowdColor(level: string): string {
    if level == "Low" then "text-primary bg-primary/10"
    else if level == "Medium" then "text-secondary bg-secondary/10"
    else if level == "High" then "text-destructive bg-destructive/10"
    else "text-muted-foreground bg-muted"
  }

  /** The three named levels get three different classes, and every other level
      the muted default, which none of the three uses. */
  lemma CrowdColorsDistinct(level: string)
    ensures GetCrowdColor("Low") != GetCrowdColor("Medium")
    ensures GetCrowdColor("Low") != GetCrowdColor("High")
    ensures GetCrowdColor("Medium") != GetCrowdColor("High")
    ensures level != "Low" && level != "Medium" && level != "High" ==>
              GetCrowdColor(level) == "text-muted-foreground bg-muted"
    ensures GetCrowdColor(level) == "text-muted-foreground bg-muted" <==>
              level != "Low" && level != "Medium" && level != "High"
  {
    assert "text-primary bg-primary/10"[5] != "text-secondary bg-secondary/10"[5];
    assert "text-primary bg-primary/10"[5] != "text-destructive bg-destructive/10"[5];
    assert "text-secondary bg-secondary/10"[5] != "text-destructive bg-destructive/10"[5];
    assert "text-primary bg-primary/10"[5] != "text-muted-foreground bg-muted"[5];
    assert "text-secondary bg-secondary/10"[5] != "text-muted-foreground bg-muted"[5];
    assert "text-destructive bg-destructive/10"[5] != "text-muted-foreground bg-muted"[5];
  }

  /** What `umrahSteps[currentStep - 1]?.…` reads: the step, or `undefined` when
      the index is outside the array. */
  datatype Lookup = Found(step: Step) | Undefined

  function CurrentStepInfo(currentStep: int): Lookup {
    if 1 <= currentStep <= |UmrahSteps| then Found(UmrahSteps[currentStep - 1]) else Undefined
  }

  /** On the steps' range the highlighted step is always found, and it is the step
      whose id is the current step. */
  lemma CurrentStepFound(currentStep: int)
    requires 1 <= currentStep <= StepCount
    ensures CurrentStepInfo(currentStep).Found?
    ensures CurrentStepInfo(currentStep).step.id == currentStep
  {
    StepsNumbered();
  }

  /** Outside the range the lookup gives `undefined`. */
  lemma CurrentStepUndefined(currentStep: int)
    requires currentStep < 1 || currentStep > StepCount
    ensures CurrentStepInfo(currentStep) == Undefined
  {
    StepsNumbered();
  }

  // ---------------------------------------------------------------------------
  // The transitions of the current step
  // ---------------------------------------------------------------------------

  /** "Mark as Complete": `Math.min(currentStep + 1, umrahSteps.length)`. */
  function Advance(currentStep: int): (next: int)
    ensures next <= StepCount
    ensures next == currentStep + 1 || next == StepCount
    ensures currentStep < StepCount ==> next == currentStep + 1
  {
    if currentStep + 1 < StepCount then currentStep + 1 else StepCount
  }

  /** Marking the last step complete leaves it the current step. */
  lemma AdvanceIdempotentAtEnd()
    ensures Advance(StepCount) == StepCount
    ensures Advance(Advance(StepCount)) == Advance(StepCount)
  {
  }

  /** Pressing the button `k` times. */
  function AdvanceTimes(currentStep: int, k: nat): int
    decreases k
  {
    if k == 0 then currentStep else AdvanceTimes(Advance(currentStep), k - 1)
  }

  /** From a step in range, `k` presses move `k` steps on, but never past the last
      step. */
  lemma {:induction false} AdvanceTimesCaps(currentStep: int, k: nat)
    requires 1 <= currentStep <= StepCount
    ensures AdvanceTimes(currentStep, k) == if currentStep + k < StepCount then currentStep + k else StepCount
    decreases k
  {
    if k > 0 {
      AdvanceTimesCaps(Advance(currentStep), k - 1);
    }
  }

  /** The state of the planner: the current step. */
  class Planner {
    var currentStep: int

    /** The current step is one of the steps. */
    ghost predicate Valid()
      reads this
    {
      1 <= currentStep <= StepCount
    }

    /** The planner opens on the first step, Ihram. */
    constructor ()
      ensures Valid() && currentStep == 1
    {
      currentStep := 1;
    }

    /** The "Mark as Complete" / "Complete Umrah" button. */
    method MarkComplete()
      requires Valid()
      modifies this
      ensures Valid()
      ensures currentStep == Advance(old(currentStep))
    {
      currentStep := Advance(currentStep);
    }

    /** Clicking a step's card makes that step current, also an earlier one. */
    method SelectStep(step: Step)
      requires step in UmrahSteps
      modifies this
      ensures Valid()
      ensures currentStep == step.id
    {
      StepsNumbered();
      currentStep := step.id;
    }
  }

  /** A client: three presses reach the last step, a fourth changes nothing, and
      clicking the first card goes back. */
  method Walkthrough()
  {
    var planner := new Planner();
    planner.MarkComplete();
    planner.MarkComplete();
    planner.MarkComplete();
    assert planner.currentStep == StepCount;
    planner.MarkComplete();
    assert planner.currentStep == StepCount;
    planner.SelectStep(UmrahSteps[0]);
    assert planner.currentStep == 1 by { StepsNumbered(); }
  }
}
