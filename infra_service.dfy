/** The API's infrastructure health check: which dependency clients exist for
    a configuration, what each probe reports, how a thrown probe is recorded,
    and how the four results make the overall status. */
module Infra {
  import opened Wrappers
  import opened Text
  import Runtime

  datatype DependencyState = StateOk | StateError | StateSkipped

  /** What a probe reports before its latency is attached. */
  datatype CheckResult = CheckResult(state: DependencyState, detail: Option<string>)

  /** `DependencyStatus`: a probe's state, detail and latency. */
  datatype DependencyStatus = DependencyStatus(state: DependencyState, latencyMs: int, detail: Option<string>)

  datatype OverallStatus = Healthy | Degraded

  /** `InfraHealthStatus`: the overall status and each dependency's result under its own name. */
  datatype InfraHealthStatus = InfraHealthStatus(
    status: OverallStatus, checkedAt: string,
    postgres: DependencyStatus, redis: DependencyStatus, qdrant: DependencyStatus, neo4j: DependencyStatus)

  const POSTGRES_MISSING := "DATABASE_URL is missing"
  const REDIS_MISSING := "REDIS_URL is missing"
  const QDRANT_MISSING := "QDRANT_URL is missing"
  const NEO4J_MISSING := "NEO4J_URI/NEO4J_USERNAME/NEO4J_PASSWORD is missing"
  const UNKNOWN_ERROR := "Unknown error"

  /** `timeCheck`: the probe's own result with its latency, or, when the probe
      throws, an error whose detail is the thrown error's message (`Unknown
      error` for anything that is not an error), with its latency too. */
  function TimeCheck(outcome: Runtime.Sdk<CheckResult>, latencyMs: int): (s: DependencyStatus)
    ensures s.latencyMs == latencyMs
    ensures outcome.Returned? ==> s.state == outcome.value.state && s.detail == outcome.value.detail
    ensures outcome.Raised? ==> s.state == StateError && s.detail.Some?
    ensures outcome.Raised? && outcome.thrown.Error? ==> s.detail == Some(outcome.thrown.message)
    ensures outcome.Raised? && outcome.thrown.NonError? ==> s.detail == Some(UNKNOWN_ERROR)
  {
    match outcome
    case Returned(result) => DependencyStatus(result.state, latencyMs, result.detail)
    case Raised(e) =>
      DependencyStatus(StateError, latencyMs,
        Some(match e
             case Error(message) => message
             case ZodError(_) => ""
             case NonError => UNKNOWN_ERROR))
  }

  /** `every(item => item.state !== "error")`. */
  function NoErrors(statuses: seq<DependencyStatus>): (b: bool)
    ensures b <==> forall i :: 0 <= i < |statuses| ==> statuses[i].state != StateError
    decreases |statuses|
  {
    |statuses| == 0 || (statuses[0].state != StateError && NoErrors(statuses[1..]))
  }

  /** The overall status: healthy exactly when no dependency is in error;
      a skipped dependency counts as healthy. */
  function Overall(postgres: DependencyStatus, redis: DependencyStatus, qdrant: DependencyStatus,
                   neo4j: DependencyStatus): (s: OverallStatus)
    ensures s == Healthy <==> postgres.state != StateError && redis.state != StateError
                              && qdrant.state != StateError && neo4j.state != StateError
  {
    var all := [postgres, redis, qdrant, neo4j];
    assert all[0] == postgres && all[1] == redis && all[2] == qdrant && all[3] == neo4j;
    if NoErrors(all) then Healthy else Degraded
  }

  /** A configuration with nothing set is healthy: every probe is skipped. */
  lemma AllSkippedIsHealthy(p: DependencyStatus, r: DependencyStatus, q: DependencyStatus, n: DependencyStatus)
    requires p.state == StateSkipped && r.state == StateSkipped && q.state == StateSkipped && n.state == StateSkipped
    ensures Overall(p, r, q, n) == Healthy
  {
  }

  /** The `status` of the Redis client: `lazyConnect` leaves it waiting until
      the first connect. `ConnectFailed` stands for every status the client
      can report after a failed connect (`reconnecting`, `end`, or a later
      `ready` of its own retries): none of them is `wait`, so no later probe
      connects again. */
  datatype RedisStatus = Wait | Ready | ConnectFailed

  /** The status after a probe: only a waiting client connects, and it is
      ready after a successful connect and past waiting after a failed one. */
  function StatusAfterCheck(before: RedisStatus, connect: Option<Runtime.Thrown>): RedisStatus {
    if before != Wait then before else if connect.Some? then ConnectFailed else Ready
  }

  class RedisClient {
    const url: string
    var status: RedisStatus

    constructor (url: string)
      ensures this.url == url && status == Wait
    {
      this.url := url;
      status := Wait;
    }
  }

  /** The Redis probe for a client that was or was not waiting: a waiting
      client connects first and a failed connect throws; then a failed ping
      throws, a reply other than `PONG` is an error naming the reply, and
      `PONG` is healthy. */
  function RedisOutcome(waiting: bool, connect: Option<Runtime.Thrown>, ping: Runtime.Sdk<string>)
    : (r: Runtime.Sdk<CheckResult>)
    ensures waiting && connect.Some? ==> r == Runtime.Raised(connect.value)
    ensures !(waiting && connect.Some?) ==>
              && (r.Raised? <==> ping.Raised?)
              && (r.Raised? ==> r.thrown == ping.thrown)
              && (r.Returned? ==> (r.value.state == StateOk <==> ping.value == "PONG"))
              && (r.Returned? && ping.value != "PONG" ==>
                    r.value == CheckResult(StateError, Some("Unexpected ping response: " + ping.value)))
    ensures r.Returned? ==> r.value.state != StateSkipped
  {
    if waiting && connect.Some? then Runtime.Raised(connect.value)
    else
      match ping
      case Raised(e) => Runtime.Raised(e)
      case Returned(reply) =>
        if reply != "PONG" then Runtime.Returned(CheckResult(StateError, Some("Unexpected ping response: " + reply)))
        else Runtime.Returned(CheckResult(StateOk, None))
  }

  /** The Qdrant probe request: `${qdrantUrl}/collections`, with an `api-key`
      header only for a non-empty key. */
  datatype QdrantProbe = QdrantProbe(url: string, apiKeyHeader: Option<string>)

  /** `response.ok`: a status in 200..299. */
  predicate HttpOk(status: nat) {
    200 <= status <= 299
  }

  /** The outside world a health check meets: the Postgres query, the Redis
      connect and ping, the Qdrant fetch (by request) and the Neo4j run and
      session close; `None` where the step succeeds. */
  datatype Probes = Probes(
    postgresQuery: Option<Runtime.Thrown>,
    redisConnect: Option<Runtime.Thrown>,
    redisPing: Runtime.Sdk<string>,
    qdrantFetch: QdrantProbe -> Runtime.Sdk<nat>,
    neo4jRun: Option<Runtime.Thrown>,
    neo4jClose: Option<Runtime.Thrown>)

  /** The latency each probe took. */
  datatype Latencies = Latencies(postgres: int, redis: int, qdrant: int, neo4j: int)

  /** The Neo4j driver's connection settings. */
  datatype Neo4jAuth = Neo4jAuth(uri: string, username: string, password: string)

  class InfraService {
    /** The connection string the Postgres pool was built with, if any. */
    const postgresPool: Option<string>
    const redis: Option<RedisClient>
    const neo4jDriver: Option<Neo4jAuth>
    const qdrantUrl: string
    const qdrantApiKey: string

    /** Each client exists exactly when its settings are non-empty: the pool
        for `DATABASE_URL`, the (not yet connected) Redis client for
        `REDIS_URL`, the Neo4j driver for all three of its settings. */
    constructor (config: Runtime.Env)
      ensures postgresPool.Some? <==> Truthy(Runtime.Get(config, "DATABASE_URL"))
      ensures postgresPool.Some? ==> postgresPool.value == config["DATABASE_URL"]
      ensures redis.Some? <==> Truthy(Runtime.Get(config, "REDIS_URL"))
      ensures redis.Some? ==> fresh(redis.value) && redis.value.url == config["REDIS_URL"] && redis.value.status == Wait
      ensures neo4jDriver.Some? <==> && Truthy(Runtime.Get(config, "NEO4J_URI"))
                                     && Truthy(Runtime.Get(config, "NEO4J_USERNAME"))
                                     && Truthy(Runtime.Get(config, "NEO4J_PASSWORD"))
      ensures neo4jDriver.Some? ==>
                neo4jDriver.value == Neo4jAuth(config["NEO4J_URI"], config["NEO4J_USERNAME"], config["NEO4J_PASSWORD"])
      ensures qdrantUrl == Runtime.Get(config, "QDRANT_URL").GetOr("")
      ensures qdrantApiKey == Runtime.Get(config, "QDRANT_API_KEY").GetOr("")
    {
      var databaseUrl := Runtime.Get(config, "DATABASE_URL").GetOr("");
      postgresPool := if databaseUrl != "" then Some(databaseUrl) else None;
      var redisUrl := Runtime.Get(config, "REDIS_URL").GetOr("");
      if redisUrl != "" {
        var client := new RedisClient(redisUrl);
        redis := Some(client);
      } else {
        redis := None;
      }
      var neo4jUri := Runtime.Get(config, "NEO4J_URI").GetOr("");
      var neo4jUser := Runtime.Get(config, "NEO4J_USERNAME").GetOr("");
      var neo4jPassword := Runtime.Get(config, "NEO4J_PASSWORD").GetOr("");
      neo4jDriver :=
        if neo4jUri != "" && neo4jUser != "" && neo4jPassword != "" then Some(Neo4jAuth(neo4jUri, neo4jUser, neo4jPassword))
        else None;
      qdrantUrl := Runtime.Get(config, "QDRANT_URL").GetOr("");
      qdrantApiKey := Runtime.Get(config, "QDRANT_API_KEY").GetOr("");
    }

    /** `checkPostgres`: skipped without a pool; a failing query throws; otherwise healthy. */
    function CheckPostgres(query: Option<Runtime.Thrown>): (r: Runtime.Sdk<CheckResult>)
      ensures postgresPool.None? ==> r == Runtime.Returned(CheckResult(StateSkipped, Some(POSTGRES_MISSING)))
      ensures postgresPool.Some? ==> (r.Raised? <==> query.Some?) && (r.Returned? ==> r.value.state == StateOk)
      ensures postgresPool.Some? && query.Some? ==> r == Runtime.Raised(query.value)
    {
      if postgresPool.None? then Runtime.Returned(CheckResult(StateSkipped, Some(POSTGRES_MISSING)))
      else if query.Some? then Runtime.Raised(query.value)
      else Runtime.Returned(CheckResult(StateOk, None))
    }

    /** `checkRedis`: skipped without a client; otherwise `RedisOutcome`, and a
        waiting client ends up ready after a successful connect and ended after
        a failed one. */
    method CheckRedis(connect: Option<Runtime.Thrown>, ping: Runtime.Sdk<string>) returns (r: Runtime.Sdk<CheckResult>)
      modifies if redis.Some? then {redis.value} else {}
      ensures redis.None? ==> r == Runtime.Returned(CheckResult(StateSkipped, Some(REDIS_MISSING)))
      ensures redis.Some? ==> r == RedisOutcome(old(redis.value.status) == Wait, connect, ping)
      ensures redis.Some? ==> redis.value.status == StatusAfterCheck(old(redis.value.status), connect)
    {
      if redis.None? {
        return Runtime.Returned(CheckResult(StateSkipped, Some(REDIS_MISSING)));
      }
      var client := redis.value;
      if client.status == Wait {
        if connect.Some? {
          client.status := ConnectFailed;
          return Runtime.Raised(connect.value);
        }
        client.status := Ready;
      }
      match ping
      case Raised(e) =>
        r := Runtime.Raised(e);
      case Returned(reply) =>
        if reply != "PONG" {
          r := Runtime.Returned(CheckResult(StateError, Some("Unexpected ping response: " + reply)));
        } else {
          r := Runtime.Returned(CheckResult(StateOk, None));
        }
    }

    /** The request the Qdrant probe sends. */
    function QdrantRequest(): (p: QdrantProbe)
      ensures p.url == qdrantUrl + "/collections"
      ensures p.apiKeyHeader.Some? <==> qdrantApiKey != ""
      ensures p.apiKeyHeader.Some? ==> p.apiKeyHeader.value == qdrantApiKey
    {
      QdrantProbe(qdrantUrl + "/collections", if qdrantApiKey != "" then Some(qdrantApiKey) else None)
    }

    /** `checkQdrant`: skipped without a URL; a failing fetch throws; a non-ok
        status is an error naming the status; otherwise healthy. */
    function CheckQdrant(fetch: QdrantProbe -> Runtime.Sdk<nat>): (r: Runtime.Sdk<CheckResult>)
      ensures qdrantUrl == "" ==> r == Runtime.Returned(CheckResult(StateSkipped, Some(QDRANT_MISSING)))
      ensures qdrantUrl != "" ==>
                && (r.Raised? <==> fetch(QdrantRequest()).Raised?)
                && (r.Raised? ==> r.thrown == fetch(QdrantRequest()).thrown)
                && (r.Returned? ==> (r.value.state == StateOk <==> HttpOk(fetch(QdrantRequest()).value)))
                && (r.Returned? && !HttpOk(fetch(QdrantRequest()).value) ==>
                      r.value == CheckResult(StateError, Some("Qdrant status " + NatToString(fetch(QdrantRequest()).value))))
    {
      if qdrantUrl == "" then Runtime.Returned(CheckResult(StateSkipped, Some(QDRANT_MISSING)))
      else
        match fetch(QdrantRequest())
        case Raised(e) => Runtime.Raised(e)
        case Returned(status) =>
          if !HttpOk(status) then Runtime.Returned(CheckResult(StateError, Some("Qdrant status " + NatToString(status))))
          else Runtime.Returned(CheckResult(StateOk, None))
    }

    /** `checkNeo4j`: skipped without a driver; otherwise the query runs in a
        session that is always closed, and a failing close overrides the
        query's outcome, as an exception from `finally` does. */
    function CheckNeo4j(run: Option<Runtime.Thrown>, close: Option<Runtime.Thrown>): (r: Runtime.Sdk<CheckResult>)
      ensures neo4jDriver.None? ==> r == Runtime.Returned(CheckResult(StateSkipped, Some(NEO4J_MISSING)))
      ensures neo4jDriver.Some? ==>
                && (r.Raised? <==> run.Some? || close.Some?)
                && (close.Some? ==> r == Runtime.Raised(close.value))
                && (close.None? && run.Some? ==> r == Runtime.Raised(run.value))
                && (r.Returned? ==> r.value.state == StateOk)
    {
      if neo4jDriver.None? then Runtime.Returned(CheckResult(StateSkipped, Some(NEO4J_MISSING)))
      else if close.Some? then Runtime.Raised(close.value)
      else if run.Some? then Runtime.Raised(run.value)
      else Runtime.Returned(CheckResult(StateOk, None))
    }

    /** A dependency is skipped exactly when its client or URL is missing. */
    lemma SkippedIffUnconfigured(probes: Probes)
      ensures TimeCheck(CheckPostgres(probes.postgresQuery), 0).state == StateSkipped <==> postgresPool.None?
      ensures TimeCheck(CheckQdrant(probes.qdrantFetch), 0).state == StateSkipped <==> qdrantUrl == ""
      ensures TimeCheck(CheckNeo4j(probes.neo4jRun, probes.neo4jClose), 0).state == StateSkipped
              <==> neo4jDriver.None?
    {
    }

    /** `checkDependencyHealth`: runs the four probes through `TimeCheck`,
        reports each under its own name, unaltered, and the overall status over
        all four. */
    method CheckDependencyHealth(probes: Probes, latencies: Latencies, checkedAt: string)
      returns (h: InfraHealthStatus)
      modifies if redis.Some? then {redis.value} else {}
      ensures h.postgres == TimeCheck(CheckPostgres(probes.postgresQuery), latencies.postgres)
      ensures h.redis == TimeCheck(
                if redis.None? then Runtime.Returned(CheckResult(StateSkipped, Some(REDIS_MISSING)))
                else RedisOutcome(old(redis.value.status) == Wait, probes.redisConnect, probes.redisPing),
                latencies.redis)
      ensures h.qdrant == TimeCheck(CheckQdrant(probes.qdrantFetch), latencies.qdrant)
      ensures h.neo4j == TimeCheck(CheckNeo4j(probes.neo4jRun, probes.neo4jClose), latencies.neo4j)
      ensures h.status == Overall(h.postgres, h.redis, h.qdrant, h.neo4j)
      ensures h.checkedAt == checkedAt
      ensures redis.Some? ==> redis.value.status == StatusAfterCheck(old(redis.value.status), probes.redisConnect)
    {
      var postgres := TimeCheck(CheckPostgres(probes.postgresQuery), latencies.postgres);
      var redisOutcome := CheckRedis(probes.redisConnect, probes.redisPing);
      var redisStatus := TimeCheck(redisOutcome, latencies.redis);
      var qdrant := TimeCheck(CheckQdrant(probes.qdrantFetch), latencies.qdrant);
      var neo4jStatus := TimeCheck(CheckNeo4j(probes.neo4jRun, probes.neo4jClose), latencies.neo4j);
      h := InfraHealthStatus(Overall(postgres, redisStatus, qdrant, neo4jStatus), checkedAt,
                             postgres, redisStatus, qdrant, neo4jStatus);
    }
  }
}
