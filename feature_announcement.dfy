/** The feature announcement banner: the announcements not dismissed in this session,
    the first of them shown, and dismissal by id (recorded in a set and in local storage). */
module FeatureAnnouncement {
  import opened Base
  import Lists

  /** A `feature_announcements` row, as far as the banner reads it. */
  datatype Announcement = Announcement(
    id: string,
    title: string,
    description: string,
    kind: string,
    actionUrl: Option<string>,
    actionLabel: Option<string>)

  /** `visibleAnnouncements`: those whose id is not dismissed, in their order. */
  function VisibleAnnouncements(announcements: seq<Announcement>, dismissed: set<string>): (v: seq<Announcement>)
    ensures forall a :: a in v <==> a in announcements && a.id !in dismissed
    ensures Lists.IsSubsequence(v, announcements)
  {
    Lists.Filter(announcements, (a: Announcement) => a.id !in dismissed)
  }

  /** The first element of a list, if any. */
  function First(xs: seq<Announcement>): (r: Option<Announcement>)
    ensures r.None? <==> xs == []
    ensures r.Some? ==> r.value == xs[0]
  {
    if xs == [] then None else Some(xs[0])
  }

  /** The announcement the banner shows; nothing renders when none is visible. */
  function Shown(announcements: seq<Announcement>, dismissed: set<string>): (r: Option<Announcement>)
    ensures r.None? <==> forall a :: a in announcements ==> a.id in dismissed
    ensures r.Some? ==> r.value in announcements && r.value.id !in dismissed
  {
    var v := VisibleAnnouncements(announcements, dismissed);
    if v == [] then None
    else
      assert v[0] in v;
      Some(v[0])
  }

  /** The banner shows the first announcement in list order whose id is not dismissed. */
  lemma {:induction false} ShownIsFirstVisible(announcements: seq<Announcement>, dismissed: set<string>, k: nat)
    requires k < |announcements| && announcements[k].id !in dismissed
    requires forall j :: 0 <= j < k ==> announcements[j].id in dismissed
    ensures Shown(announcements, dismissed) == Some(announcements[k])
  {
    if k > 0 {
      var rest := announcements[1..];
      ShownIsFirstVisible(rest, dismissed, k - 1);
      assert VisibleAnnouncements(announcements, dismissed) == VisibleAnnouncements(rest, dismissed);
    }
  }

  /** After the shown announcement is dismissed, the banner shows the next visible one
      with a different id. */
  lemma DismissShowsNext(announcements: seq<Announcement>, dismissed: set<string>)
    requires Shown(announcements, dismissed).Some?
    ensures var v := VisibleAnnouncements(announcements, dismissed);
      var x := Shown(announcements, dismissed).value.id;
      Shown(announcements, dismissed + {x}) == First(Lists.Filter(v[1..], (a: Announcement) => a.id != x))
  {
    var v := VisibleAnnouncements(announcements, dismissed);
    var x := v[0].id;
    var p := (a: Announcement) => a.id !in dismissed;
    var q := (a: Announcement) => a.id != x;
    var pq := (a: Announcement) => a.id !in dismissed + {x};
    Lists.FilterFilter(announcements, p, q, pq);
    assert VisibleAnnouncements(announcements, dismissed + {x}) == Lists.Filter(v, q);
    assert v == [v[0]] + v[1..];
    Lists.FilterAppend([v[0]], v[1..], q);
  }

  /** `getTypeColor`: three known types, slate for any other. */
  function TypeColor(kind: string): (c: string)
    ensures c == "from-slate-500/10 to-slate-600/10 border-slate-400/20" <==>
      kind != "new_feature" && kind != "improvement" && kind != "update"
  {
    if kind == "new_feature" then "from-blue-500/10 to-cyan-500/10 border-blue-400/20"
    else if kind == "improvement" then "from-green-500/10 to-emerald-500/10 border-green-400/20"
    else if kind == "update" then "from-purple-500/10 to-pink-500/10 border-purple-400/20"
    else "from-slate-500/10 to-slate-600/10 border-slate-400/20"
  }

  /** The action link shows only with both a URL and a label. */
  predicate ShowsLink(a: Announcement)
  {
    TruthyStr(a.actionUrl) && TruthyStr(a.actionLabel)
  }

  /** The banner's dismissed set and the local-storage entries it writes. */
  class AnnouncementView {
    var dismissedIds: set<string>
    var storage: map<string, string>

    constructor (storage: map<string, string>)
      ensures dismissedIds == {} && this.storage == storage
    {
      dismissedIds := {};
      this.storage := storage;
    }

    /** `handleDismiss`: the id joins the set (which only grows) and is remembered. */
    method HandleDismiss(id: string)
      modifies this
      ensures dismissedIds == old(dismissedIds) + {id}
      ensures storage == old(storage)["dismissed-announcement-" + id := "true"]
    {
      dismissedIds := dismissedIds + {id};
      storage := storage["dismissed-announcement-" + id := "true"];
    }
  }
}
