/** The organizations page for super administrators: the slug of a new organization,
    the badge variants of plan and status, the totals and usage rate over all
    organizations, and the per-organization usage bar. Database answers are inputs. */
module Organizations {
  import opened Base
  import opened Text
  import Lists

  /** An `organizations` row as the page reads it; minutes are whole and not negative. */
  datatype Organization = Organization(
    id: string,
    name: string,
    slug: string,
    plan: string,
    quotaMinutes: nat,
    usedMinutes: nat,
    status: string)

  /** `getStatusVariant`. Each page keeps its own badge table; this one has the shape
      of `AuditLogs.ActionVariant` with the organization statuses as keys. */
  function StatusVariant(status: string): (variant: string)
    ensures variant == "success" <==> status == "active"
    ensures variant == "info" <==> status == "trial"
    ensures variant == "danger" <==> status == "suspended"
    ensures variant == "warning" <==> status !in {"active", "trial", "suspended"}
  {
    match status
    case "active" => "success"
    case "trial" => "info"
    case "suspended" => "danger"
    case _ => "warning"
  }

  /** `getPlanBadgeVariant`. It has the shape of `JobMonitorPage.BadgeVariant`, with
      the plans as keys and a warning for any other plan. */
  function PlanVariant(plan: string): (variant: string)
    ensures variant == "success" <==> plan == "unlimited"
    ensures variant == "info" <==> plan == "enterprise"
    ensures variant == "primary" <==> plan == "professional"
    ensures variant == "secondary" <==> plan == "starter"
    ensures variant == "warning" <==> plan !in {"unlimited", "enterprise", "professional", "starter"}
  {
    match plan
    case "unlimited" => "success"
    case "enterprise" => "info"
    case "professional" => "primary"
    case "starter" => "secondary"
    case _ => "warning"
  }

  /** `totalQuota`: the quotas summed over the list. */
  function TotalQuota(orgs: seq<Organization>): nat
  {
    if orgs == [] then 0 else orgs[0].quotaMinutes + TotalQuota(orgs[1..])
  }

  /** `totalUsed`: the used minutes summed over the list. */
  function TotalUsed(orgs: seq<Organization>): nat
  {
    if orgs == [] then 0 else orgs[0].usedMinutes + TotalUsed(orgs[1..])
  }

  predicate IsActive(org: Organization)
  {
    org.status == "active"
  }

  /** `activeOrgs`. */
  function ActiveOrgs(orgs: seq<Organization>): (n: nat)
    ensures n <= |orgs|
    ensures n == 0 <==> forall i :: 0 <= i < |orgs| ==> !IsActive(orgs[i])
    ensures n == |orgs| <==> forall i :: 0 <= i < |orgs| ==> IsActive(orgs[i])
  {
    Lists.Count(orgs, IsActive)
  }

  /** The totals add up over a split of the list, so each total counts every organization once. */
  lemma {:induction false} TotalsAppend(a: seq<Organization>, b: seq<Organization>)
    ensures TotalQuota(a + b) == TotalQuota(a) + TotalQuota(b)
    ensures TotalUsed(a + b) == TotalUsed(a) + TotalUsed(b)
  {
    if a == [] {
      assert a + b == b;
    } else {
      assert (a + b)[1..] == a[1..] + b;
      TotalsAppend(a[1..], b);
    }
  }

  /** Each organization within its quota keeps the total used within the total quota. */
  lemma {:induction false} UsedWithinQuota(orgs: seq<Organization>)
    requires forall i :: 0 <= i < |orgs| ==> orgs[i].usedMinutes <= orgs[i].quotaMinutes
    ensures TotalUsed(orgs) <= TotalQuota(orgs)
  {
    if orgs != [] {
      UsedWithinQuota(orgs[1..]);
    }
  }

  /** The usage-rate card: 0 without any quota, else the rounded percentage used. */
  function UsageRate(orgs: seq<Organization>): (rate: int)
    ensures TotalQuota(orgs) == 0 ==> rate == 0
    ensures TotalQuota(orgs) > 0 ==>
      2 * TotalQuota(orgs) * rate <= 200 * TotalUsed(orgs) + TotalQuota(orgs) < 2 * TotalQuota(orgs) * (rate + 1)
    ensures rate >= 0
  {
    if TotalQuota(orgs) > 0 then RoundPercent(TotalUsed(orgs), TotalQuota(orgs)) else 0
  }

  /** While every organization is within its quota the usage rate is at most 100. */
  lemma UsageRateAtMost100(orgs: seq<Organization>)
    requires forall i :: 0 <= i < |orgs| ==> orgs[i].usedMinutes <= orgs[i].quotaMinutes
    ensures 0 <= UsageRate(orgs) <= 100
  {
    UsedWithinQuota(orgs);
    if TotalQuota(orgs) > 0 {
      RoundedAtMost100(TotalUsed(orgs), TotalQuota(orgs), UsageRate(orgs));
    }
  }

  lemma RoundedAtMost100(u: int, q: int, r: int)
    requires 0 <= u <= q && q > 0
    requires 2 * q * r <= 200 * u + q
    ensures r <= 100
  {
  }

  /** The width of an organization's usage bar, `Math.min(used / quota * 100, 100)`, in
      percent; `None` is the NaN of 0 / 0, and a used quota of 0 minutes is full. */
  function BarWidth(org: Organization): (w: Option<real>)
    ensures w.None? <==> org.quotaMinutes == 0 && org.usedMinutes == 0
    ensures w.Some? ==> 0.0 <= w.value <= 100.0
    ensures w.Some? ==> (w.value == 100.0 <==> org.usedMinutes >= org.quotaMinutes)
    ensures w.Some? && org.usedMinutes < org.quotaMinutes ==>
      w.value * org.quotaMinutes as real == 100.0 * org.usedMinutes as real
  {
    if org.quotaMinutes == 0 then
      if org.usedMinutes == 0 then None else Some(100.0)
    else
      var pct := (org.usedMinutes as real / org.quotaMinutes as real) * 100.0;
      assert org.usedMinutes < org.quotaMinutes ==> pct < 100.0;
      assert org.usedMinutes >= org.quotaMinutes ==> pct >= 100.0;
      Some(if pct < 100.0 then pct else 100.0)
  }

  /** The add form. */
  datatype OrgForm = OrgForm(name: string, plan: string, quotaMinutes: string, status: string)

  /** The form when the modal opens and after each submit. */
  const EmptyOrgForm: OrgForm := OrgForm("", "trial", "100", "trial")

  /** The row `handleAddOrganization` inserts; a quota that does not parse is NaN, here `None`. */
  datatype OrgInsert = OrgInsert(name: string, slug: string, plan: string, quotaMinutes: Option<int>, status: string)

  /** The insert row: the slug is the lower-cased name with each run of white space
      turned into one '-'; the form's other fields pass through. */
  function NewOrgRow(form: OrgForm): (row: OrgInsert)
    ensures row.slug == Kebab(form.name) && NoSpace(row.slug)
    ensures row.name == form.name && row.plan == form.plan && row.status == form.status
    ensures row.quotaMinutes == ParseInt(form.quotaMinutes)
  {
    OrgInsert(form.name, Kebab(form.name), form.plan, ParseInt(form.quotaMinutes), form.status)
  }

  /** The default form inserts a trial organization with a quota of 100 minutes. */
  lemma DefaultFormRow()
    ensures NewOrgRow(EmptyOrgForm).quotaMinutes == Some(100)
    ensures NewOrgRow(EmptyOrgForm).plan == "trial" && NewOrgRow(EmptyOrgForm).status == "trial"
  {
    ParseIntRoundTrip(100);
    HundredText();
  }

  lemma HundredText()
    ensures NatToString(100) == "100"
  {
    assert NatToString(10) == "10";
  }

  /** What the page renders. */
  datatype Screen = NoPermission | Spinner | Content

  /** Anyone but a super administrator gets the permission message, whatever is loading. */
  function ScreenFor(isSuperAdmin: bool, loading: bool): (s: Screen)
    ensures s == NoPermission <==> !isSuperAdmin
    ensures s == Spinner <==> isSuperAdmin && loading
  {
    if !isSuperAdmin then NoPermission else if loading then Spinner else Content
  }

  /** The page's state, with the fetches it started and the rows it inserted. */
  class OrganizationsView {
    var organizations: seq<Organization>
    var loading: bool
    var showAddModal: bool
    var fetches: nat
    var inserted: seq<OrgInsert>

    constructor ()
      ensures organizations == [] && loading && !showAddModal && fetches == 0 && inserted == []
    {
      organizations := [];
      loading := true;
      showAddModal := false;
      fetches := 0;
      inserted := [];
    }

    /** The mount effect: a super administrator fetches, anyone else just stops loading. */
    method Mount(isSuperAdmin: bool)
      modifies this
      ensures isSuperAdmin ==> fetches == old(fetches) + 1 && loading
      ensures !isSuperAdmin ==> fetches == old(fetches) && !loading
      ensures ScreenFor(isSuperAdmin, loading) == (if isSuperAdmin then Spinner else NoPermission)
      ensures organizations == old(organizations) && showAddModal == old(showAddModal) && inserted == old(inserted)
    {
      if isSuperAdmin {
        fetches := fetches + 1;
        loading := true;
      } else {
        loading := false;
      }
    }

    /** The end of `fetchOrganizations`: `data || []` on success, the old list on error. */
    method Loaded(listed: Option<seq<Organization>>, failed: bool)
      modifies this
      ensures organizations == (if failed then old(organizations) else if listed.Some? then listed.value else [])
      ensures !loading
      ensures showAddModal == old(showAddModal) && fetches == old(fetches) && inserted == old(inserted)
    {
      if !failed {
        organizations := if listed.Some? then listed.value else [];
      }
      loading := false;
    }

    /**
     * `handleAddOrganization`: on success record the row, close the modal and refetch;
     * the refetch starts by setting `loading`, so the page shows the spinner again.
     */
    method AddOrganization(form: OrgForm, written: bool)
      modifies this
      ensures written ==> inserted == old(inserted) + [NewOrgRow(form)] && !showAddModal && fetches == old(fetches) + 1 && loading
      ensures !written ==> inserted == old(inserted) && showAddModal == old(showAddModal) && fetches == old(fetches) && loading == old(loading)
      ensures organizations == old(organizations)
    {
      if written {
        inserted := inserted + [NewOrgRow(form)];
        showAddModal := false;
        fetches := fetches + 1;
        loading := true;
      }
    }
  }
}
