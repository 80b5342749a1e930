/** The onboarding carousel (src/App/Pages/Onboarding/OnboardingScreen.tsx):
    the current slide index, the arrows, the page indicators and the two
    buttons that finish onboarding. The story timer is disabled in the source
    and is not modelled. */
module Onboarding {
  import opened AuthStore

  /** The slides' titles, in order. */
  const SlideTitles: seq<string> := ["Welcome to Fashionista", "Exclusive Deals", "Fast Delivery", "Secure Shopping"]

  const SlideCount: int := |SlideTitles|

  class OnboardingScreen {
    var currentIndex: int

    /** The index names a slide. */
    predicate Valid()
      reads this
    {
      0 <= currentIndex < SlideCount
    }

    constructor()
      ensures currentIndex == 0 && Valid()
    {
      currentIndex := 0;
    }

    /** The title shown for the current slide. */
    function CurrentTitle(): string
      reads this
      requires Valid()
    {
      SlideTitles[currentIndex]
    }

    /** `goToNext`: the next slide, or on the last slide finish onboarding
        and stay put. */
    method GoToNext(auth: AuthStore)
      modifies this, auth
      ensures old(currentIndex) < SlideCount - 1 ==>
        currentIndex == old(currentIndex) + 1 && auth.State() == old(auth.State())
      ensures old(currentIndex) >= SlideCount - 1 ==>
        currentIndex == old(currentIndex) && auth.State() == old(auth.State()).(hasSeenOnboarding := true)
      ensures old(Valid()) ==> Valid()
    {
      if currentIndex < SlideCount - 1 {
        currentIndex := currentIndex + 1;
      } else {
        auth.CompleteOnboarding();
      }
    }

    /** `goToPrevious`: the previous slide; nothing on the first one. */
    method GoToPrevious()
      modifies this
      ensures old(currentIndex) > 0 ==> currentIndex == old(currentIndex) - 1
      ensures old(currentIndex) <= 0 ==> currentIndex == old(currentIndex)
      ensures old(Valid()) ==> Valid()
    {
      if currentIndex > 0 {
        currentIndex := currentIndex - 1;
      }
    }

    /** `goToSlide`: the tapped indicator's slide; the indicators are numbered
        0 to 3, so a tap keeps the index valid. */
    method GoToSlide(index: int)
      modifies this
      ensures currentIndex == index
      ensures 0 <= index < SlideCount ==> Valid()
    {
      currentIndex := index;
    }

    /** 'Get started' and 'Login here': finish onboarding from any slide. */
    method FinishOnboarding(auth: AuthStore)
      modifies auth
      ensures auth.State() == old(auth.State()).(hasSeenOnboarding := true)
    {
      auth.CompleteOnboarding();
    }
  }

  /** From the first slide, three taps on the arrow reach the last slide and a
      fourth finishes onboarding. */
  method WalkThrough(auth: AuthStore) returns (screen: OnboardingScreen)
    modifies auth
    ensures screen.currentIndex == SlideCount - 1
    ensures auth.State() == old(auth.State()).(hasSeenOnboarding := true)
  {
    screen := new OnboardingScreen();
    screen.GoToNext(auth);
    screen.GoToNext(auth);
    screen.GoToNext(auth);
    screen.GoToNext(auth);
  }
}
