/** The welcome wizard: four steps for client users and three for administrators, a step
    counter moved by Next and Back within the list, the progress display, and the
    onboarding steps its buttons complete. Navigation is recorded as the route pushed. */
module WelcomeWizard {

  /** A button inside a step: the route it navigates to and the onboarding step it completes. */
  datatype StepAction = StepAction(route: string, step: string)

  /** The number of steps: the client list has four, the administrator list three. */
  function StepCount(isClientUser: bool): (n: nat)
    ensures n == |StepTitles(isClientUser)|
  {
    if isClientUser then 4 else 3
  }

  /** The step titles, without the trailing emoji of the first one. */
  function StepTitles(isClientUser: bool): seq<string>
  {
    if isClientUser then ["Welcome to IndicSubtitleNet!", "Explore Demo Workflows", "Generate Your API Key", "Ready to Get Started!"]
    else ["Welcome, Administrator!", "Manage Your Organization", "Ready to Manage!"]
  }

  /** The buttons in the body of step `index`. */
  function Actions(isClientUser: bool, index: int): (acts: seq<StepAction>)
    ensures !(0 <= index < StepCount(isClientUser)) ==> acts == []
    ensures index == 0 ==> acts == []
  {
    if isClientUser then
      if index == 1 then [StepAction("/client/demo", "demo_workflow")]
      else if index == 2 then [StepAction("/client/api-keys", "api_key_setup")]
      else if index == 3 then [StepAction("/client/demo", "complete"), StepAction("/client/workflows/new", "complete")]
      else []
    else
      if index == 1 then [StepAction("/dashboard/organizations", "profile_setup")]
      else if index == 2 then [StepAction("/dashboard", "complete")]
      else []
  }

  /** The onboarding steps any wizard button completes (the footer's Finish completes 'complete'). */
  lemma WizardSteps(isClientUser: bool, index: int, k: int)
    requires 0 <= k < |Actions(isClientUser, index)|
    ensures Actions(isClientUser, index)[k].step in {"demo_workflow", "api_key_setup", "profile_setup", "complete"}
    ensures isClientUser ==> Actions(isClientUser, index)[k].step != "profile_setup"
    ensures !isClientUser ==> Actions(isClientUser, index)[k].step in {"profile_setup", "complete"}
  {
  }

  /** `handleNext`: one step on, except at the last step. */
  function NextStep(current: int, count: nat): (r: int)
    ensures 0 <= current < count ==> 0 <= r < count
    ensures r == current || r == current + 1
    ensures r == current + 1 <==> current < count - 1
  {
    if current < count - 1 then current + 1 else current
  }

  /** `handleBack`: one step back, except at the first step. */
  function BackStep(current: int): (r: int)
    ensures 0 <= current ==> 0 <= r <= current
    ensures r == current - 1 <==> current > 0
    ensures current <= 0 ==> r == current
  {
    if current > 0 then current - 1 else current
  }

  /** Back undoes Next from any step but the last, and Next undoes Back from any step but the first. */
  lemma NextBackInverse(current: int, count: nat)
    requires 0 <= current < count
    ensures current < count - 1 ==> BackStep(NextStep(current, count)) == current
    ensures current > 0 ==> NextStep(BackStep(current), count) == current
  {
  }

  /** Segment `i` of the progress bar is highlighted up to and including the current step. */
  predicate SegmentLit(i: int, current: int)
  {
    i <= current
  }

  /** The "Step n of m" label. */
  function ProgressLabel(current: int, count: nat): (shown: (int, nat))
    ensures shown.0 == current + 1 && shown.1 == count
  {
    (current + 1, count)
  }

  /** Back shows from the second step on. */
  predicate ShowsBack(current: int)
  {
    current > 0
  }

  /** Finish replaces Next at the last step. */
  predicate ShowsFinish(current: int, count: nat)
  {
    !(current < count - 1)
  }

  /** Exactly one of Next and Finish is shown; Next is shown exactly where it moves the
      counter, Back exactly where it does, and the number of lit segments is the label's number. */
  lemma FooterButtons(current: int, count: nat)
    requires 0 <= current < count
    ensures ShowsFinish(current, count) <==> current == count - 1
    ensures !ShowsFinish(current, count) <==> NextStep(current, count) != current
    ensures ShowsBack(current) <==> BackStep(current) != current
    ensures forall i :: 0 <= i < count ==> (SegmentLit(i, current) <==> i < ProgressLabel(current, count).0)
  {
  }

  /** The wizard's state, with the onboarding steps it asked to complete and the routes it
      pushed, in order. `isClientUser` is read when the wizard opens. */
  class WizardView {
    const isClientUser: bool
    var currentStep: int
    var isOpen: bool
    var completeRequests: seq<string>
    var skipRequested: bool
    var routes: seq<string>

    ghost predicate Valid()
      reads this
    {
      0 <= currentStep < StepCount(isClientUser)
    }

    constructor (isClientUser: bool)
      ensures Valid()
      ensures this.isClientUser == isClientUser && currentStep == 0 && isOpen
      ensures completeRequests == [] && !skipRequested && routes == []
    {
      this.isClientUser := isClientUser;
      currentStep := 0;
      isOpen := true;
      completeRequests := [];
      skipRequested := false;
      routes := [];
    }

    method Next()
      requires Valid()
      modifies this
      ensures Valid()
      ensures currentStep == NextStep(old(currentStep), StepCount(isClientUser))
      ensures isOpen == old(isOpen) && completeRequests == old(completeRequests)
      ensures skipRequested == old(skipRequested) && routes == old(routes)
    {
      if currentStep < StepCount(isClientUser) - 1 {
        currentStep := currentStep + 1;
      }
    }

    method Back()
      requires Valid()
      modifies this
      ensures Valid()
      ensures currentStep == BackStep(old(currentStep))
      ensures isOpen == old(isOpen) && completeRequests == old(completeRequests)
      ensures skipRequested == old(skipRequested) && routes == old(routes)
    {
      if currentStep > 0 {
        currentStep := currentStep - 1;
      }
    }

    /** A button in the current step's body: navigate, complete its step, close. */
    method RunAction(k: int)
      requires Valid()
      requires 0 <= k < |Actions(isClientUser, currentStep)|
      modifies this
      ensures Valid()
      ensures !isOpen && currentStep == old(currentStep) && skipRequested == old(skipRequested)
      ensures var act := Actions(isClientUser, currentStep)[k];
        routes == old(routes) + [act.route] && completeRequests == old(completeRequests) + [act.step]
    {
      var act := Actions(isClientUser, currentStep)[k];
      routes := routes + [act.route];
      completeRequests := completeRequests + [act.step];
      isOpen := false;
    }

    /** The footer's Finish, shown at the last step: complete 'complete' and close. */
    method Finish()
      requires Valid() && ShowsFinish(currentStep, StepCount(isClientUser))
      modifies this
      ensures Valid()
      ensures completeRequests == old(completeRequests) + ["complete"] && !isOpen
      ensures currentStep == old(currentStep) && routes == old(routes) && skipRequested == old(skipRequested)
    {
      completeRequests := completeRequests + ["complete"];
      isOpen := false;
    }

    /** `handleSkip`: skip onboarding, then close. */
    method Skip()
      requires Valid()
      modifies this
      ensures Valid()
      ensures skipRequested && !isOpen
      ensures currentStep == old(currentStep) && routes == old(routes) && completeRequests == old(completeRequests)
    {
      skipRequested := true;
      isOpen := false;
    }
  }
}
