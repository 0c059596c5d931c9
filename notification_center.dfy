/** The notification bell: the unread count and its badges, the per-type styling, and
    what a click does (marks an unread notification read) versus the dismiss button
    (dismisses only; the click does not reach the row). */
module NotificationCenter {
  import opened Base
  import Lists
  import opened Onboarding

  predicate Unread(n: UserNotification)
  {
    !n.isRead
  }

  /** `unreadCount`. */
  function UnreadCount(ns: seq<UserNotification>): (c: nat)
    ensures c <= |ns|
    ensures c == 0 <==> forall i :: 0 <= i < |ns| ==> ns[i].isRead
    ensures c == |ns| <==> forall i :: 0 <= i < |ns| ==> !ns[i].isRead
  {
    Lists.Count(ns, Unread)
  }

  /** The red dot on the bell and the "n new" label both show exactly when something is unread. */
  predicate ShowsBadge(ns: seq<UserNotification>)
  {
    UnreadCount(ns) > 0
  }

  /** Marking read never raises the unread count, and lowers it by the number of unread
      notifications carrying the id. */
  lemma {:induction false} MarkReadCount(ns: seq<UserNotification>, id: string)
    ensures UnreadCount(MarkRead(ns, id)) + Lists.Count(ns, (n: UserNotification) => !n.isRead && n.id == id) == UnreadCount(ns)
  {
    if ns != [] {
      assert MarkRead(ns, id)[1..] == MarkRead(ns[1..], id);
      MarkReadCount(ns[1..], id);
    }
  }

  /** After marking an unread notification read, one notification fewer is unread at least. */
  lemma MarkUnreadLowersCount(ns: seq<UserNotification>, i: int)
    requires 0 <= i < |ns| && !ns[i].isRead
    ensures UnreadCount(MarkRead(ns, ns[i].id)) < UnreadCount(ns)
  {
    MarkReadCount(ns, ns[i].id);
  }

  /** The icon and background of a notification type; unknown types look like 'info'. */
  function Style(kind: string): (s: (string, string))
    ensures s == ("Info", "bg-blue-500/10 border-blue-400/20") <==>
      kind != "success" && kind != "error" && kind != "warning"
    ensures kind == "success" ==> s == ("CheckCircle", "bg-green-500/10 border-green-400/20")
    ensures kind == "error" ==> s == ("AlertCircle", "bg-red-500/10 border-red-400/20")
    ensures kind == "warning" ==> s == ("AlertTriangle", "bg-yellow-500/10 border-yellow-400/20")
  {
    if kind == "success" then ("CheckCircle", "bg-green-500/10 border-green-400/20")
    else if kind == "error" then ("AlertCircle", "bg-red-500/10 border-red-400/20")
    else if kind == "warning" then ("AlertTriangle", "bg-yellow-500/10 border-yellow-400/20")
    else ("Info", "bg-blue-500/10 border-blue-400/20")
  }

  /** The dropdown over the context's notification list. */
  class NotificationView {
    var isOpen: bool
    const store: OnboardingStore

    constructor (store: OnboardingStore)
      ensures this.store == store && !isOpen
    {
      this.store := store;
      isOpen := false;
    }

    method ToggleOpen()
      modifies this
      ensures isOpen == !old(isOpen)
    {
      isOpen := !isOpen;
    }

    /** The backdrop and an action link close the dropdown. */
    method Close()
      modifies this
      ensures !isOpen
    {
      isOpen := false;
    }

    /** `handleNotificationClick`: only an unread notification is marked read. */
    method Click(n: UserNotification, written: bool)
      modifies store
      ensures store.notifications ==
        (if !n.isRead && written then MarkRead(old(store.notifications), n.id) else old(store.notifications))
      ensures store.onboarding == old(store.onboarding)
    {
      if !n.isRead {
        store.MarkNotificationRead(n.id, written);
      }
    }

    /** The dismiss button: the notification is dismissed, never marked read. */
    method ClickDismiss(n: UserNotification, written: bool)
      modifies store
      ensures store.notifications ==
        (if written then Dismiss(old(store.notifications), n.id) else old(store.notifications))
      ensures store.onboarding == old(store.onboarding)
    {
      store.DismissNotification(n.id, written);
    }
  }
}
