/** The mobile onboarding pager (`mobile/src/screens/OnboardingScreen.tsx`):
    four slides and the index of the one on screen, stepped by the Next
    and Previous buttons, set by swiping, and left through `onComplete`,
    which is counted here. Scrolling the list to the new index is not
    part of this model. */
module Onboarding {

  /** The number of slides in `onboardingData`. */
  const SlideCount: nat := 4

  const LastSlide: nat := SlideCount - 1

  class Pager {
    var currentIndex: int
    /** How many times `onComplete` has been called. */
    var completions: nat

    predicate Valid()
      reads this
    {
      0 <= currentIndex <= LastSlide
    }

    constructor ()
      ensures Valid()
      ensures currentIndex == 0 && completions == 0
    {
      currentIndex := 0;
      completions := 0;
    }

    /** The main button reads "Get Started" on the last slide and "Next"
        before it. */
    function ButtonTitle(): (title: string)
      reads this
      ensures title == "Get Started" <==> currentIndex == LastSlide
      ensures title == "Next" <==> currentIndex != LastSlide
    {
      if currentIndex == LastSlide then "Get Started" else "Next"
    }

    /** The Previous button is shown only past the first slide, so on
        the "Get Started" slide it is shown. */
    predicate ShowsPrevious()
      reads this
      ensures Valid() ==> (ShowsPrevious() <==> currentIndex != 0)
      ensures currentIndex == LastSlide ==> ShowsPrevious()
    {
      currentIndex > 0
    }

    /** `handleNext`: one slide on, or `onComplete` on the last slide. */
    method HandleNext() returns (completed: bool)
      requires Valid()
      modifies this
      ensures Valid()
      ensures completed <==> old(currentIndex) == LastSlide
      ensures completed ==> currentIndex == old(currentIndex) && completions == old(completions) + 1
      ensures !completed ==> currentIndex == old(currentIndex) + 1 && completions == old(completions)
    {
      if currentIndex < LastSlide {
        currentIndex := currentIndex + 1;
        completed := false;
      } else {
        completions := completions + 1;
        completed := true;
      }
    }

    /** `handlePrevious`: one slide back, or nothing on the first slide. */
    method HandlePrevious()
      requires Valid()
      modifies this
      ensures Valid()
      ensures old(currentIndex) > 0 ==> currentIndex == old(currentIndex) - 1
      ensures old(currentIndex) == 0 ==> currentIndex == 0
      ensures completions == old(completions)
    {
      if currentIndex > 0 {
        currentIndex := currentIndex - 1;
      }
    }

    /** `handleSkip`: `onComplete` from any slide. */
    method HandleSkip()
      requires Valid()
      modifies this
      ensures Valid()
      ensures currentIndex == old(currentIndex) && completions == old(completions) + 1
    {
      completions := completions + 1;
    }

    /** `onViewableItemsChanged`: a swipe makes the first visible slide
        current; with nothing visible the index stays. */
    method OnViewableItemsChanged(visible: seq<nat>)
      requires Valid()
      requires forall i :: 0 <= i < |visible| ==> visible[i] < SlideCount
      modifies this
      ensures Valid()
      ensures visible != [] ==> currentIndex == visible[0]
      ensures visible == [] ==> currentIndex == old(currentIndex)
      ensures completions == old(completions)
    {
      if |visible| > 0 {
        currentIndex := visible[0];
      }
    }
  }

  /** Pressing Next from any slide reaches the last one and then completes
      once, after exactly `LastSlide - index + 1` presses. */
  method NextUntilComplete(p: Pager) returns (presses: nat)
    requires p.Valid()
    modifies p
    ensures p.Valid()
    ensures p.currentIndex == LastSlide && p.completions == old(p.completions) + 1
    ensures presses == LastSlide - old(p.currentIndex) + 1
  {
    presses := 0;
    var done := false;
    while !done
      invariant p.Valid()
      invariant !done ==> p.currentIndex == old(p.currentIndex) + presses && p.completions == old(p.completions)
      invariant done ==> p.currentIndex == LastSlide && p.completions == old(p.completions) + 1
      invariant done ==> presses == LastSlide - old(p.currentIndex) + 1
      decreases (if done then 0 else 1), LastSlide - p.currentIndex
    {
      done := p.HandleNext();
      presses := presses + 1;
    }
  }
}
