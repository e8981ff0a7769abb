/** The first-run stepper (pages/Onboarding.tsx): three slides walked through
    with Next, and two ways out (Next on the last slide, or Skip before it) that
    both record the onboarding as done and open the login screen. */
module Onboarding {
  import opened Types
  import opened Storage

  /** A slide's text and background; the icon is left to the view. */
  datatype Slide = Slide(title: string, desc: string, color: string)

  const Slides: seq<Slide> := [
    Slide("Plan Complex Trips in Minutes",
          "Stop juggling 10 apps. Build your perfect itinerary with AI assistance in one place.",
          "bg-black"),
    Slide("Visa Intelligence at your fingertips",
          "Know exactly what documents you need before you book. No more border surprises.",
          "bg-brand"),
    Slide("Travel Confidently Offline",
          "Access your plans, maps, and tickets anywhere. No internet? No problem.",
          "bg-slate-800")
  ]

  /** The index of the last slide. */
  const LastStep: int := |Slides| - 1

  class OnboardingScreen {
    var step: int
    var route: Option<Route>

    ghost predicate Valid()
      reads this
    {
      0 <= step <= LastStep
    }

    constructor ()
      ensures Valid() && step == 0 && route == None
    {
      step := 0;
      route := None;
    }

    /** The slide on screen. */
    function Current(): (s: Slide)
      requires Valid()
      reads this
      ensures s in Slides
    {
      Slides[step]
    }

    /** Skip is shown on every slide but the last. */
    predicate SkipOffered()
      reads this
    {
      step < LastStep
    }

    /** `handleNext`: before the last slide the step moves on by one and nothing
        is written; on the last slide the onboarding is recorded as done and the
        login screen opens. */
    method HandleNext(b: Browser)
      requires Valid()
      modifies this, b
      ensures Valid()
      ensures old(step) < LastStep ==>
                step == old(step) + 1 && b.State() == old(b.State()) && route == old(route)
      ensures old(step) == LastStep ==>
                && step == old(step)
                && b.local == old(b.local)[OnboardingKey := FlagTrue] && b.session == old(b.session)
                && route == Some(LoginPage)
    {
      if step < LastStep {
        step := step + 1;
      } else {
        b.local := b.local[OnboardingKey := FlagTrue];
        route := Some(LoginPage);
      }
    }

    /** The Skip button: the same record and the same target as finishing. */
    method Skip(b: Browser)
      requires Valid() && SkipOffered()
      modifies this, b
      ensures Valid() && step == old(step)
      ensures b.local == old(b.local)[OnboardingKey := FlagTrue] && b.session == old(b.session)
      ensures route == Some(LoginPage)
    {
      b.local := b.local[OnboardingKey := FlagTrue];
      route := Some(LoginPage);
    }
  }

  /** Walking through every slide with Next ends where Skip does: three presses
      from the first slide set the flag and open the login screen. */
  method WalkThrough(b: Browser) returns (screen: OnboardingScreen)
    modifies b
    ensures screen.route == Some(LoginPage) && screen.step == LastStep
    ensures b.local == old(b.local)[OnboardingKey := FlagTrue] && b.session == old(b.session)
  {
    screen := new OnboardingScreen();
    screen.HandleNext(b);
    assert screen.route == None && b.State() == old(b.State());
    screen.HandleNext(b);
    assert screen.route == None && b.State() == old(b.State());
    screen.HandleNext(b);
  }
}
