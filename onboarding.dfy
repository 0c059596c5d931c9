/** The onboarding context: the onboarding record and how `startOnboarding`,
    `completeStep` and `skipOnboarding` rewrite it, and the notification list with
    read-marking and dismissal. The database echoes each write back; a failed write leaves
    the state as it was. Timestamps are inputs. */
module Onboarding {
  import opened Base
  import Lists

  /** The `user_onboarding` row. */
  datatype UserOnboarding = UserOnboarding(
    userId: string,
    step: string,
    completedSteps: seq<string>,
    isCompleted: bool,
    skipped: bool,
    startedAt: string,
    completedAt: Option<string>)

  /** A `user_notifications` row. */
  datatype UserNotification = UserNotification(
    id: string,
    kind: string,
    title: string,
    message: string,
    isRead: bool,
    priority: int)

  /** The five steps whose completion completes onboarding ('complete' is not one). */
  const AllSteps: seq<string> := ["welcome", "profile_setup", "demo_workflow", "api_key_setup", "first_workflow"]

  /** `allSteps.every(s => completedSteps.includes(s))`. */
  predicate AllStepsDone(steps: seq<string>)
  {
    forall i :: 0 <= i < |AllSteps| ==> AllSteps[i] in steps
  }

  /** `startOnboarding`: a fresh record at the welcome step. */
  function StartOnboarding(userId: string, now: string): (o: UserOnboarding)
    ensures o.userId == userId && o.step == "welcome" && o.completedSteps == []
    ensures !o.isCompleted && !o.skipped && o.startedAt == now
    ensures !AllStepsDone(o.completedSteps)
  {
    assert AllSteps[0] !in [];
    UserOnboarding(userId, "welcome", [], false, false, now, None)
  }

  /** `completeStep`: nothing without a record. Otherwise the step is appended (repeats
      kept), completion is recomputed from the five steps, and the step and completion
      time follow it. */
  function CompleteStep(prev: Option<UserOnboarding>, step: string, now: string): (next: Option<UserOnboarding>)
    ensures prev.None? ==> next.None?
    ensures prev.Some? ==>
      && next.Some?
      && next.value.completedSteps == prev.value.completedSteps + [step]
      && (next.value.isCompleted <==> AllStepsDone(next.value.completedSteps))
      && next.value.step == (if next.value.isCompleted then "complete" else step)
      && next.value.completedAt == (if next.value.isCompleted then Some(now) else None)
      && next.value.userId == prev.value.userId && next.value.skipped == prev.value.skipped
      && next.value.startedAt == prev.value.startedAt
  {
    match prev
    case None => None
    case Some(o) =>
      var steps := o.completedSteps + [step];
      var done := AllStepsDone(steps);
      Some(o.(completedSteps := steps, step := if done then "complete" else step,
              isCompleted := done, completedAt := if done then Some(now) else None))
  }

  /** `skipOnboarding`: the record is marked skipped and completed. */
  function SkipOnboarding(prev: Option<UserOnboarding>, now: string): (next: Option<UserOnboarding>)
    ensures prev.None? ==> next.None?
    ensures prev.Some? ==>
      && next == Some(prev.value.(skipped := true, isCompleted := true, completedAt := Some(now)))
  {
    match prev
    case None => None
    case Some(o) => Some(o.(skipped := true, isCompleted := true, completedAt := Some(now)))
  }

  /** Completing the steps of `steps` one after another. */
  function CompleteAll(prev: Option<UserOnboarding>, steps: seq<string>, now: string): Option<UserOnboarding>
    decreases |steps|
  {
    if steps == [] then prev else CompleteAll(CompleteStep(prev, steps[0], now), steps[1..], now)
  }

  /** Completing a sequence of steps appends them all, in order. */
  lemma {:induction false} CompleteAllAppends(prev: UserOnboarding, steps: seq<string>, now: string)
    ensures CompleteAll(Some(prev), steps, now).Some?
    ensures CompleteAll(Some(prev), steps, now).value.completedSteps == prev.completedSteps + steps
    ensures CompleteAll(Some(prev), steps, now).value.skipped == prev.skipped
    decreases |steps|
  {
    if steps != [] {
      var next := CompleteStep(Some(prev), steps[0], now).value;
      CompleteAllAppends(next, steps[1..], now);
      assert prev.completedSteps + [steps[0]] + steps[1..] == prev.completedSteps + steps;
    }
  }

  /** From a fresh start, completing a non-empty sequence of steps leaves onboarding
      completed exactly when all five steps occur in it, in any order and with repeats;
      'complete' itself contributes nothing. */
  lemma CompletionFromStart(userId: string, steps: seq<string>, now: string)
    requires steps != []
    ensures var o := CompleteAll(Some(StartOnboarding(userId, now)), steps, now);
      o.Some? && (o.value.isCompleted <==> AllStepsDone(steps))
  {
    var start := StartOnboarding(userId, now);
    CompleteAllLast(start, steps, now);
    CompleteAllAppends(start, steps, now);
  }

  /** The last completed step decides the completion flag of the whole sequence. */
  lemma {:induction false} CompleteAllLast(prev: UserOnboarding, steps: seq<string>, now: string)
    requires steps != []
    ensures var o := CompleteAll(Some(prev), steps, now);
      o.Some? && (o.value.isCompleted <==> AllStepsDone(o.value.completedSteps))
    decreases |steps|
  {
    var next := CompleteStep(Some(prev), steps[0], now).value;
    if |steps| > 1 {
      CompleteAllLast(next, steps[1..], now);
    }
  }

  /** Once all five steps are in, further steps keep onboarding complete. */
  lemma CompletionStable(prev: UserOnboarding, step: string, now: string)
    requires AllStepsDone(prev.completedSteps)
    ensures CompleteStep(Some(prev), step, now).value.isCompleted
  {
  }

  /** `markNotificationRead`'s updater: only the notification with the id becomes read. */
  function MarkRead(ns: seq<UserNotification>, id: string): (r: seq<UserNotification>)
    ensures |r| == |ns|
    ensures forall i :: 0 <= i < |ns| ==>
      r[i] == if ns[i].id == id then ns[i].(isRead := true) else ns[i]
  {
    seq(|ns|, i requires 0 <= i < |ns| => if ns[i].id == id then ns[i].(isRead := true) else ns[i])
  }

  /** `dismissNotification`'s updater: the notification with the id leaves the list and
      the others stay, in order. */
  function Dismiss(ns: seq<UserNotification>, id: string): (r: seq<UserNotification>)
    ensures forall n :: n in r <==> n in ns && n.id != id
    ensures Lists.IsSubsequence(r, ns)
  {
    Lists.Filter(ns, (n: UserNotification) => n.id != id)
  }

  /** Marking read is idempotent, and dismissing after marking leaves the same list as
      dismissing alone when the id was marked. */
  lemma MarkReadThenDismiss(ns: seq<UserNotification>, id: string)
    ensures MarkRead(MarkRead(ns, id), id) == MarkRead(ns, id)
    ensures forall n :: n in Dismiss(MarkRead(ns, id), id) ==> n in Dismiss(ns, id)
  {
    var m := MarkRead(ns, id);
    forall n | n in Dismiss(m, id)
      ensures n in Dismiss(ns, id)
    {
      var i :| 0 <= i < |m| && m[i] == n;
      assert ns[i].id == n.id;
      assert ns[i] == n;
    }
  }

  /** The context's state: the onboarding record and the notification list. */
  class OnboardingStore {
    var onboarding: Option<UserOnboarding>
    var notifications: seq<UserNotification>

    constructor ()
      ensures onboarding == None && notifications == []
    {
      onboarding := None;
      notifications := [];
    }

    method Start(userId: string, now: string, written: bool)
      modifies this
      ensures onboarding == (if written then Some(StartOnboarding(userId, now)) else old(onboarding))
      ensures notifications == old(notifications)
    {
      if written {
        onboarding := Some(StartOnboarding(userId, now));
      }
    }

    method Complete(step: string, now: string, written: bool)
      modifies this
      ensures onboarding == (if written then CompleteStep(old(onboarding), step, now) else old(onboarding))
      ensures notifications == old(notifications)
    {
      if onboarding.None? {
        return;
      }
      if written {
        onboarding := CompleteStep(onboarding, step, now);
      }
    }

    method Skip(now: string, written: bool)
      modifies this
      ensures onboarding == (if written then SkipOnboarding(old(onboarding), now) else old(onboarding))
      ensures notifications == old(notifications)
    {
      if written {
        onboarding := SkipOnboarding(onboarding, now);
      }
    }

    method MarkNotificationRead(id: string, written: bool)
      modifies this
      ensures notifications == (if written then MarkRead(old(notifications), id) else old(notifications))
      ensures onboarding == old(onboarding)
    {
      if written {
        notifications := MarkRead(notifications, id);
      }
    }

    method DismissNotification(id: string, written: bool)
      modifies this
      ensures notifications == (if written then Dismiss(old(notifications), id) else old(notifications))
      ensures onboarding == old(onboarding)
    {
      if written {
        notifications := Dismiss(notifications, id);
      }
    }
  }
}
