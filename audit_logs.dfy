/** The audit log page: the list the fetch leaves behind, the search over resource id
    and actor, the resource filter and the badge of each action. */
module AuditLogs {
  import opened Base
  import opened Text
  import Lists

  /** An audit entry as `/audits` lists it; `resource_id` and `actor` may be missing. */
  datatype AuditLog = AuditLog(id: string, action: string, resource: string, resourceId: Option<string>, actor: Option<string>, timestamp: string)

  /** The three entries shown when the request fails; the timestamps are the clock's
      readings, now and one and two hours ago. */
  function DemoLogs(now: string, hourAgo: string, twoHoursAgo: string): (logs: seq<AuditLog>)
    ensures |logs| == 3
    ensures logs[0].action == "CREATE" && logs[1].action == "UPDATE" && logs[2].action == "DELETE"
  {
    [ AuditLog("1", "CREATE", "model", Some("whisper-large-v3"), Some("admin@mysubtitle.com"), now),
      AuditLog("2", "UPDATE", "dataset", Some("indic-subtitle-corpus"), Some("admin@mysubtitle.com"), hourAgo),
      AuditLog("3", "DELETE", "job", Some("job-003"), Some("user@mysubtitle.com"), twoHoursAgo) ]
  }

  /** `fetchAuditLogs`: the body when it is an array (`Some`), an empty list otherwise,
      and the demo entries when the request throws (`Err`). */
  function FetchAuditLogs(answer: Result<Option<seq<AuditLog>>, string>, now: string, hourAgo: string, twoHoursAgo: string): (logs: seq<AuditLog>)
    ensures answer.Err? ==> logs == DemoLogs(now, hourAgo, twoHoursAgo)
    ensures answer.Ok? && answer.value.None? ==> logs == []
    ensures answer.Ok? && answer.value.Some? ==> logs == answer.value.value
  {
    match answer
    case Err(_) => DemoLogs(now, hourAgo, twoHoursAgo)
    case Ok(body) => body.GetOr([])
  }

  /** `field?.toLowerCase().includes(searchTerm.toLowerCase())`: a missing field is falsy. */
  predicate FieldMatches(field: Option<string>, term: string)
  {
    field.Some? && Contains(Lower(field.value), Lower(term))
  }

  /** The search hits the resource id or the actor. */
  predicate MatchesSearch(log: AuditLog, term: string)
  {
    FieldMatches(log.resourceId, term) || FieldMatches(log.actor, term)
  }

  /** `filterResource === 'all' || log.resource === filterResource`. */
  predicate MatchesResource(log: AuditLog, resource: string)
  {
    resource == "all" || log.resource == resource
  }

  predicate Shown(log: AuditLog, term: string, resource: string)
  {
    MatchesSearch(log, term) && MatchesResource(log, resource)
  }

  /** `filteredLogs`: the entries that pass both filters, in their order; an entry with
      neither a resource id nor an actor is never shown. */
  function FilteredLogs(logs: seq<AuditLog>, term: string, resource: string): (r: seq<AuditLog>)
    ensures forall l :: l in r <==> l in logs && MatchesSearch(l, term) && MatchesResource(l, resource)
    ensures Lists.IsSubsequence(r, logs)
    ensures forall l :: l in r ==> l.resourceId.Some? || l.actor.Some?
  {
    Lists.Filter(logs, l => Shown(l, term, resource))
  }

  /** With an empty search every entry that has a resource id or an actor passes the
      search, and with the resource filter at 'all' those are exactly the entries listed. */
  lemma EmptySearchListsIdentified(logs: seq<AuditLog>)
    ensures FilteredLogs(logs, "", "all") == Lists.Filter(logs, (l: AuditLog) => l.resourceId.Some? || l.actor.Some?)
  {
    assert Lower("") == "";
    var p := (l: AuditLog) => Shown(l, "", "all");
    var q := (l: AuditLog) => l.resourceId.Some? || l.actor.Some?;
    forall l: AuditLog
      ensures p(l) == q(l)
    {
      if l.resourceId.Some? {
        ContainsEmpty(Lower(l.resourceId.value));
      }
      if l.actor.Some? {
        ContainsEmpty(Lower(l.actor.value));
      }
    }
    Lists.FilterSame(logs, p, q);
  }

  /** The search ignores the case of the term. */
  lemma SearchIgnoresCase(logs: seq<AuditLog>, term: string, resource: string)
    ensures FilteredLogs(logs, Lower(term), resource) == FilteredLogs(logs, term, resource)
  {
    LowerIdempotent(term);
    Lists.FilterSame(logs, l => Shown(l, Lower(term), resource), l => Shown(l, term, resource));
  }

  /** `getActionVariant`. */
  function ActionVariant(action: string): (variant: string)
    ensures variant == "success" <==> action == "CREATE"
    ensures variant == "info" <==> action == "UPDATE"
    ensures variant == "danger" <==> action == "DELETE"
    ensures variant == "default" <==> action !in {"CREATE", "UPDATE", "DELETE"}
  {
    match action
    case "CREATE" => "success"
    case "UPDATE" => "info"
    case "DELETE" => "danger"
    case _ => "default"
  }
}
