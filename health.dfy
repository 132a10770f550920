/** The public health check (`routes/health.ts`): probes the database and
    the webhook service, folds the two results into one status, caches it
    for 30 seconds, and maps it to an HTTP code. The probes' outcomes and
    the clock are inputs. */
module Health {
  import opened Wrappers

  datatype ServiceStatus = Up | Down

  /** How a probe promise settled. */
  datatype Probe = Resolved | Threw(error: Thrown)

  datatype ServiceHealth = ServiceHealth(
    status: ServiceStatus, responseTime: nat, lastChecked: nat, error: Option<string>)

  datatype Overall = AllUp | Degraded | AllDown

  function OverallName(o: Overall): string {
    match o
    case AllUp => "ok"
    case Degraded => "degraded"
    case AllDown => "error"
  }

  /** The fields of the health report that the model keeps: the process
      figures (uptime, memory, version) are left out. */
  datatype HealthStatus = HealthStatus(
    status: Overall, timestamp: nat, database: ServiceHealth, webhook: ServiceHealth)

  /** Cache lifetime in milliseconds. */
  const TtlMs: nat := 30000

  /** `checkDatabaseHealth` / `checkWebhookHealth`: `up` when the probe
      resolves; `down` with the thrown error's message, or "Unknown error"
      for a thrown non-`Error`, when it throws. */
  function CheckService(probe: Probe, elapsed: nat, checkedAt: nat): (h: ServiceHealth)
    ensures h.status == Up <==> probe.Resolved?
    ensures h.error.Some? <==> probe.Threw?
    ensures probe.Threw? && probe.error.ErrorObject? ==> h.error == Some(probe.error.message)
    ensures probe.Threw? && probe.error.OtherValue? ==> h.error == Some("Unknown error")
    ensures h.responseTime == elapsed && h.lastChecked == checkedAt
  {
    match probe
    case Resolved => ServiceHealth(Up, elapsed, checkedAt, None)
    case Threw(e) =>
      ServiceHealth(Down, elapsed, checkedAt, Some(if e.ErrorObject? then e.message else "Unknown error"))
  }

  /** Both up is `ok`, both down is `error`, anything else `degraded`. */
  function Aggregate(database: ServiceStatus, webhook: ServiceStatus): (o: Overall)
    ensures o == AllUp <==> database == Up && webhook == Up
    ensures o == AllDown <==> database == Down && webhook == Down
    ensures o == Degraded <==> database != webhook
  {
    if database == Up && webhook == Up then AllUp
    else if database == Down && webhook == Down then AllDown
    else
      assert database.Up? || database.Down?;
      Degraded
  }

  /** Neither service weighs more than the other. */
  lemma AggregateSymmetric(database: ServiceStatus, webhook: ServiceStatus)
    ensures Aggregate(database, webhook) == Aggregate(webhook, database)
  {
  }

  /** The public endpoint's code: 503 only when both services are down. */
  function StatusCode(o: Overall): (code: nat)
    ensures code == 503 <==> o == AllDown
    ensures code != 503 ==> code == 200
  {
    match o
    case AllUp => 200
    case Degraded => 200
    case AllDown => 503
  }

  /** A fresh report from the two probes, stamped with `now`. */
  function Report(dbProbe: Probe, webhookProbe: Probe, dbElapsed: nat, webhookElapsed: nat, now: nat): (h: HealthStatus)
    ensures h.timestamp == now
    ensures h.status == Aggregate(h.database.status, h.webhook.status)
    ensures h.database.status == Up <==> dbProbe.Resolved?
    ensures h.webhook.status == Up <==> webhookProbe.Resolved?
  {
    var database := CheckService(dbProbe, dbElapsed, now);
    var webhook := CheckService(webhookProbe, webhookElapsed, now);
    HealthStatus(Aggregate(database.status, webhook.status), now, database, webhook)
  }

  /** As written, `db.runHealthCheck()` and `WebhookService.checkHealth()`
      name methods the two services do not define, so each probe throws a
      `TypeError` ("... is not a function"). Every fresh report is then
      `error`, carries the two messages, and is answered with 503. */
  lemma UndefinedProbesAlwaysDown(dbMessage: string, webhookMessage: string, dbElapsed: nat,
                                  webhookElapsed: nat, now: nat)
    ensures var h := Report(Threw(ErrorObject(dbMessage)), Threw(ErrorObject(webhookMessage)),
                            dbElapsed, webhookElapsed, now);
            && h.status == AllDown && StatusCode(h.status) == 503 && OverallName(h.status) == "error"
            && h.database.error == Some(dbMessage) && h.webhook.error == Some(webhookMessage)
  {
  }

  /** With probes that resolve, as the route intends, the report is `ok`
      and answered with 200. */
  lemma ResolvingProbesUp(dbElapsed: nat, webhookElapsed: nat, now: nat)
    ensures var h := Report(Resolved, Resolved, dbElapsed, webhookElapsed, now);
            h.status == AllUp && StatusCode(h.status) == 200 && OverallName(h.status) == "ok"
  {
  }

  /** The module-level `healthCache`. */
  class HealthCache {
    var data: Option<HealthStatus>
    var lastUpdate: int

    constructor ()
      ensures data.None? && lastUpdate == 0
    {
      data := None;
      lastUpdate := 0;
    }

    /** The cache serves a report while it holds one younger than the
        lifetime. */
    predicate Fresh(now: int)
      reads this
    {
      data.Some? && now - lastUpdate < TtlMs
    }

    /** `getHealthStatus`: the cached report when it is fresh, with no
        probe made; otherwise a new report, which becomes the cache
        content with `lastUpdate` at the time it was made. */
    method GetHealthStatus(now: nat, dbProbe: Probe, webhookProbe: Probe, dbElapsed: nat, webhookElapsed: nat)
      returns (h: HealthStatus)
      modifies this
      ensures old(Fresh(now)) ==> h == old(data).value && data == old(data) && lastUpdate == old(lastUpdate)
      ensures !old(Fresh(now)) ==>
                h == Report(dbProbe, webhookProbe, dbElapsed, webhookElapsed, now)
                && data == Some(h) && lastUpdate == now
    {
      if data.Some? && now - lastUpdate < TtlMs {
        return data.value;
      }
      h := Report(dbProbe, webhookProbe, dbElapsed, webhookElapsed, now);
      data := Some(h);
      lastUpdate := now;
    }
  }

  /** What `GET /health` answers: the code, and only the status and the
      timestamp of the report. */
  datatype PublicHealth = PublicHealth(code: nat, status: string, timestamp: nat)

  /** `GET /health`. A `fault` is an exception while the report is being
      built: it answers 500 with status `error` and leaves the cache as
      it was. A fresh cache entry is returned before anything can throw,
      so then a `fault` has no effect. */
  method PublicEndpoint(cache: HealthCache, now: nat, dbProbe: Probe, webhookProbe: Probe,
                        dbElapsed: nat, webhookElapsed: nat, fault: bool)
    returns (reply: PublicHealth)
    modifies cache
    ensures fault && !old(cache.Fresh(now)) ==>
              reply == PublicHealth(500, "error", now) && cache.data == old(cache.data)
              && cache.lastUpdate == old(cache.lastUpdate)
    ensures !fault || old(cache.Fresh(now)) ==>
              var h := if old(cache.Fresh(now)) then old(cache.data).value
                       else Report(dbProbe, webhookProbe, dbElapsed, webhookElapsed, now);
              reply == PublicHealth(StatusCode(h.status), OverallName(h.status), h.timestamp)
  {
    if fault && !cache.Fresh(now) {
      return PublicHealth(500, "error", now);
    }
    var h := cache.GetHealthStatus(now, dbProbe, webhookProbe, dbElapsed, webhookElapsed);
    reply := PublicHealth(StatusCode(h.status), OverallName(h.status), h.timestamp);
  }

  /** Two requests less than the lifetime apart get the same report, even
      if the services changed state in between. */
  method CachedWithinTtl(now: nat, later: nat, probes1: (Probe, Probe), probes2: (Probe, Probe))
    returns (first: HealthStatus, second: HealthStatus)
    requires now <= later < now + TtlMs
    ensures second == first
    ensures first == Report(probes1.0, probes1.1, 0, 0, now)
  {
    var cache := new HealthCache();
    first := cache.GetHealthStatus(now, probes1.0, probes1.1, 0, 0);
    second := cache.GetHealthStatus(later, probes2.0, probes2.1, 0, 0);
  }

  /** Once the lifetime has passed, a request probes again. */
  method RefreshAfterTtl(now: nat, later: nat, probes1: (Probe, Probe), probes2: (Probe, Probe))
    returns (first: HealthStatus, second: HealthStatus)
    requires now + TtlMs <= later
    ensures second == Report(probes2.0, probes2.1, 0, 0, later)
  {
    var cache := new HealthCache();
    first := cache.GetHealthStatus(now, probes1.0, probes1.1, 0, 0);
    second := cache.GetHealthStatus(later, probes2.0, probes2.1, 0, 0);
  }
}
