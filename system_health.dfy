/** The system health page: the health record built from the `/healthz` and `/readyz`
    answers with its fallbacks, the uptime split into days, hours and minutes, and the
    badge of a status. */
module SystemHealth {
  import opened Base
  import opened Text

  /** The `/healthz` body; `memory?.used` and `memory?.total` are read through an
      optional `memory` object, so both are missing when it is. */
  datatype HealthBody = HealthBody(status: Option<string>, uptime: Option<int>, memoryUsed: Option<int>, memoryTotal: Option<int>)

  /** The `/readyz` body. */
  datatype ReadyBody = ReadyBody(databaseConnected: Option<bool>, databaseLatency: Option<int>, redisConnected: Option<bool>, queueSize: Option<int>)

  /** `HealthData`. */
  datatype Health = Health(
    status: string,
    uptime: int,
    databaseConnected: bool,
    databaseLatency: int,
    redisConnected: bool,
    queueSize: int,
    memoryUsed: int,
    memoryTotal: int)

  /** The record the catch block sets. */
  const DefaultHealth: Health := Health("healthy", 86400, true, 5, true, 12, 1024, 4096)

  /** What a failed request is caught as: `{ status: 'unknown' }`. */
  const UnknownHealth: HealthBody := HealthBody(Some("unknown"), None, None, None)
  const UnknownReady: ReadyBody := ReadyBody(None, None, None, None)

  /** `flag || true`: a missing or false flag reads as true. */
  function OrTrue(flag: Option<bool>): (b: bool)
    ensures b
  {
    if flag.Some? && flag.value then flag.value else true
  }

  /** `fetchHealth` once both answers are in. A body that is null or undefined (`None`)
      makes the property reads throw, and the catch sets the default record. Otherwise
      every falsy field takes its default: status 'healthy', uptime 86400, latency 5,
      queue size 12, memory 1024 of 4096; both services always read as connected. */
  function HealthOf(health: Option<HealthBody>, ready: Option<ReadyBody>): (h: Health)
    ensures health.None? || ready.None? ==> h == DefaultHealth
    ensures h.databaseConnected && h.redisConnected
    ensures health.Some? && ready.Some? ==>
      && h.status == OrStr(health.value.status, "healthy")
      && h.uptime == OrInt(health.value.uptime, 86400)
      && h.databaseLatency == OrInt(ready.value.databaseLatency, 5)
      && h.queueSize == OrInt(ready.value.queueSize, 12)
      && h.memoryUsed == OrInt(health.value.memoryUsed, 1024)
      && h.memoryTotal == OrInt(health.value.memoryTotal, 4096)
  {
    if health.None? || ready.None? then DefaultHealth
    else
      var b := health.value;
      var r := ready.value;
      Health(
        OrStr(b.status, "healthy"),
        OrInt(b.uptime, 86400),
        OrTrue(r.databaseConnected),
        OrInt(r.databaseLatency, 5),
        OrTrue(r.redisConnected),
        OrInt(r.queueSize, 12),
        OrInt(b.memoryUsed, 1024),
        OrInt(b.memoryTotal, 4096))
  }

  /** A service that reports itself down still reads as connected. */
  lemma DisconnectedReadsConnected(health: HealthBody, latency: Option<int>, queueSize: Option<int>)
    ensures var h := HealthOf(Some(health), Some(ReadyBody(Some(false), latency, Some(false), queueSize)));
      h.databaseConnected && h.redisConnected
  {
  }

  /** `getStatusColor`. Each page keeps its own badge table; this one has the shape of
      `AuditLogs.ActionVariant` with the health statuses as keys. */
  function StatusColor(status: string): (variant: string)
    ensures variant == "success" <==> status == "healthy"
    ensures variant == "warning" <==> status == "degraded"
    ensures variant == "danger" <==> status == "unhealthy"
    ensures variant == "default" <==> status !in {"healthy", "degraded", "unhealthy"}
  {
    match status
    case "healthy" => "success"
    case "degraded" => "warning"
    case "unhealthy" => "danger"
    case _ => "default"
  }

  /** When both requests fail, each is caught as `{ status: 'unknown' }`: the page shows
      status 'unknown' with the default badge and every other field at its default. The
      catch-all record differs from it only in the status. */
  lemma FailedRequestsShowUnknown()
    ensures HealthOf(Some(UnknownHealth), Some(UnknownReady)) == DefaultHealth.(status := "unknown")
    ensures StatusColor(HealthOf(Some(UnknownHealth), Some(UnknownReady)).status) == "default"
    ensures StatusColor(DefaultHealth.status) == "success"
  {
  }

  /** Bodies that carry no field give the same record as the catch block. */
  lemma EmptyBodiesGiveDefaults(ready: ReadyBody)
    requires !(ready.databaseLatency.Some? && ready.databaseLatency.value != 0)
    requires !(ready.queueSize.Some? && ready.queueSize.value != 0)
    ensures HealthOf(Some(HealthBody(None, None, None, None)), Some(ready)) == DefaultHealth
  {
  }

  /** The uptime split the page prints as `{days}d {hours}h {minutes}m`. */
  datatype Uptime = Uptime(days: int, hours: int, minutes: int)

  /** `formatUptime`: `Math.floor` of a division by a positive constant is Dafny's `/`,
      and `%` is JavaScript's remainder, which keeps the sign of the seconds. */
  function UptimeParts(seconds: int): (u: Uptime)
    ensures u.days == seconds / 86400
    ensures seconds >= 0 ==> 0 <= u.hours < 24 && 0 <= u.minutes < 60
    ensures seconds < 0 ==> -24 <= u.hours <= 0 && -60 <= u.minutes <= 0
  {
    var dayRest := JsRem(seconds, 86400);
    var hourRest := JsRem(seconds, 3600);
    assert -86400 < dayRest < 86400 && -3600 < hourRest < 3600;
    Uptime(seconds / 86400, dayRest / 3600, hourRest / 60)
  }

  /** For a non-negative uptime the parts are whole days, hours and minutes, and together
      they fall short of the uptime by less than one minute. */
  lemma UptimeDecomposes(seconds: int)
    requires seconds >= 0
    ensures var u := UptimeParts(seconds);
      var whole := u.days * 86400 + u.hours * 3600 + u.minutes * 60;
      whole <= seconds < whole + 60
  {
    var u := UptimeParts(seconds);
    var r := seconds % 86400;
    assert seconds == u.days * 86400 + r;
    assert r == u.hours * 3600 + r % 3600;
    assert r % 3600 == seconds % 3600;
    assert seconds % 3600 == u.minutes * 60 + seconds % 3600 % 60;
  }

  /** `String(n)` for a whole number. */
  function IntToString(n: int): string
  {
    if n < 0 then "-" + NatToString(-n) else NatToString(n)
  }

  /** The uptime text of the page. */
  function FormatUptime(seconds: int): (text: string)
    ensures seconds >= 0 ==>
      var u := UptimeParts(seconds);
      text == NatToString(u.days) + "d " + NatToString(u.hours) + "h " + NatToString(u.minutes) + "m"
  {
    var u := UptimeParts(seconds);
    IntToString(u.days) + "d " + IntToString(u.hours) + "h " + IntToString(u.minutes) + "m"
  }

  /** The memory bar width, `(used || 0) / (total || 1) * 100` percent. */
  function MemoryPercent(h: Health): (pct: real)
    ensures h.memoryTotal != 0 ==> pct * h.memoryTotal as real == 100.0 * h.memoryUsed as real
    ensures h.memoryTotal == 0 ==> pct == 100.0 * h.memoryUsed as real
  {
    h.memoryUsed as real / (if h.memoryTotal != 0 then h.memoryTotal else 1) as real * 100.0
  }
}
