/** The quick-start checklist: three items completed by the onboarding record, the
    completed count, when the card shows at all, and what its buttons do. It also states
    what the onboarding UI as a whole can reach: no button completes 'welcome', so no
    sequence of button presses completes onboarding; only skipping ends it. */
module QuickStartChecklist {
  import opened Base
  import Lists
  import opened Onboarding
  import WelcomeWizard

  /** A checklist item: the onboarding step it stands for and the route its button opens. */
  datatype Item = Item(id: string, title: string, route: string)

  const Items: seq<Item> := [
    Item("demo_workflow", "Try a Demo Workflow", "/client/demo"),
    Item("api_key_setup", "Generate Your First API Key", "/client/api-keys"),
    Item("first_workflow", "Run Your First Workflow", "/client/workflows/new")
  ]

  /** `onboarding?.completed_steps.includes(id) || false`. */
  predicate ItemCompleted(onboarding: Option<UserOnboarding>, item: Item)
  {
    onboarding.Some? && item.id in onboarding.value.completedSteps
  }

  /** `completedCount`: how many items are completed, out of `totalCount` = 3. */
  function CompletedCount(onboarding: Option<UserOnboarding>): (n: nat)
    ensures n <= |Items| == 3
    ensures n == |Items| <==> forall i :: 0 <= i < |Items| ==> ItemCompleted(onboarding, Items[i])
    ensures n == 0 <==> forall i :: 0 <= i < |Items| ==> !ItemCompleted(onboarding, Items[i])
    ensures onboarding.None? ==> n == 0
  {
    Lists.Count(Items, (item: Item) => ItemCompleted(onboarding, item))
  }

  /** The card renders: not dismissed here, onboarding neither completed nor skipped, and
      the welcome preference set (a missing preference row hides it). */
  predicate Visible(isVisible: bool, onboarding: Option<UserOnboarding>, showWelcomeMessage: Option<bool>)
  {
    && isVisible
    && !(onboarding.Some? && (onboarding.value.isCompleted || onboarding.value.skipped))
    && showWelcomeMessage == Some(true)
  }

  /** Skipping onboarding hides the card, whatever the other flags say. */
  lemma SkipHidesCard(onboarding: Option<UserOnboarding>, now: string, isVisible: bool, showWelcomeMessage: Option<bool>)
    requires onboarding.Some?
    ensures !Visible(isVisible, SkipOnboarding(onboarding, now), showWelcomeMessage)
  {
  }

  /** Ticking items off does not hide the card. From a fresh start, whatever the buttons
      complete leaves onboarding neither completed nor skipped, so a card that was not
      dismissed stays up; it shows the completion banner exactly when all three items'
      steps were completed. */
  lemma ButtonsKeepCard(userId: string, steps: seq<string>, now: string)
    requires forall i :: 0 <= i < |steps| ==> UiStep(steps[i])
    ensures var o := CompleteAll(Some(StartOnboarding(userId, now)), steps, now);
      && Visible(true, o, Some(true))
      && (ShowsBanner(o) <==> forall i :: 0 <= i < |Items| ==> Items[i].id in steps)
  {
    var start := StartOnboarding(userId, now);
    UiNeverCompletes(userId, steps, now);
    CompleteAllAppends(start, steps, now);
  }

  /** An item's action button shows only while the item is open. */
  predicate ShowsAction(onboarding: Option<UserOnboarding>, item: Item)
  {
    !ItemCompleted(onboarding, item)
  }

  /** The completion banner. */
  predicate ShowsBanner(onboarding: Option<UserOnboarding>)
  {
    CompletedCount(onboarding) == |Items|
  }

  /** The banner shows exactly when no item offers its button. */
  lemma BannerIffNoActions(onboarding: Option<UserOnboarding>)
    ensures ShowsBanner(onboarding) <==> forall i :: 0 <= i < |Items| ==> !ShowsAction(onboarding, Items[i])
  {
  }

  /** Completing an item's step through the context completes the item and keeps the others. */
  lemma CompleteStepCompletesItem(o: UserOnboarding, i: int, j: int, now: string)
    requires 0 <= i < |Items| && 0 <= j < |Items|
    ensures ItemCompleted(CompleteStep(Some(o), Items[i].id, now), Items[i])
    ensures ItemCompleted(Some(o), Items[j]) ==> ItemCompleted(CompleteStep(Some(o), Items[i].id, now), Items[j])
  {
  }

  /** Every onboarding step a button of the wizard or of the checklist completes. */
  predicate UiStep(step: string)
  {
    step in {"demo_workflow", "api_key_setup", "profile_setup", "first_workflow", "complete"}
  }

  lemma ButtonsAreUiSteps(isClientUser: bool, index: int, k: int, i: int)
    requires 0 <= k < |WelcomeWizard.Actions(isClientUser, index)| && 0 <= i < |Items|
    ensures UiStep(WelcomeWizard.Actions(isClientUser, index)[k].step)
    ensures UiStep(Items[i].id)
  {
    WelcomeWizard.WizardSteps(isClientUser, index, k);
  }

  /** No button completes 'welcome'. */
  lemma UiStepNotWelcome(step: string)
    requires UiStep(step)
    ensures step != "welcome"
  {
    assert |step| != |"welcome"|;
  }

  /** From a fresh start, any sequence of steps the buttons complete leaves onboarding
      incomplete, because 'welcome' is not among them. */
  lemma UiNeverCompletes(userId: string, steps: seq<string>, now: string)
    requires forall i :: 0 <= i < |steps| ==> UiStep(steps[i])
    ensures var o := CompleteAll(Some(StartOnboarding(userId, now)), steps, now);
      o.Some? && !o.value.isCompleted
  {
    var start := StartOnboarding(userId, now);
    CompleteAllAppends(start, steps, now);
    var o := CompleteAll(Some(start), steps, now);
    forall i | 0 <= i < |steps|
      ensures steps[i] != "welcome"
    {
      UiStepNotWelcome(steps[i]);
    }
    assert o.value.completedSteps == steps;
    assert AllSteps[0] !in o.value.completedSteps;
    if steps != [] {
      CompleteAllLast(start, steps, now);
    }
  }

  /** The checklist's local state and the writes its buttons request. */
  class ChecklistView {
    var isExpanded: bool
    var isVisible: bool
    var preferenceWrites: seq<bool>
    var completeRequests: seq<string>
    var routes: seq<string>

    constructor ()
      ensures isExpanded && isVisible && preferenceWrites == [] && completeRequests == [] && routes == []
    {
      isExpanded := true;
      isVisible := true;
      preferenceWrites := [];
      completeRequests := [];
      routes := [];
    }

    /** `handleDismiss`: turn the welcome preference off and hide the card. */
    method Dismiss()
      modifies this
      ensures preferenceWrites == old(preferenceWrites) + [false] && !isVisible
      ensures isExpanded == old(isExpanded) && completeRequests == old(completeRequests) && routes == old(routes)
    {
      preferenceWrites := preferenceWrites + [false];
      isVisible := false;
    }

    method ToggleExpanded()
      modifies this
      ensures isExpanded == !old(isExpanded)
      ensures isVisible == old(isVisible) && preferenceWrites == old(preferenceWrites)
      ensures completeRequests == old(completeRequests) && routes == old(routes)
    {
      isExpanded := !isExpanded;
    }

    /** An item's button: open its route and complete its step. */
    method RunItem(i: int)
      requires 0 <= i < |Items|
      modifies this
      ensures routes == old(routes) + [Items[i].route] && completeRequests == old(completeRequests) + [Items[i].id]
      ensures isExpanded == old(isExpanded) && isVisible == old(isVisible) && preferenceWrites == old(preferenceWrites)
    {
      routes := routes + [Items[i].route];
      completeRequests := completeRequests + [Items[i].id];
    }
  }
}
