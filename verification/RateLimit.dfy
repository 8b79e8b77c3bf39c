/** Configuration and vocabulary shared by the two rate limiters of backend/server/middleware.go. */
module RateLimit {
  import opened Common

  /** Rows older than CLEANUP_MULTIPLIER windows are removed by the cleanup job. */
  const CLEANUP_MULTIPLIER: int := 2

  /** Deadline that the distributed limiter puts on its own database work. */
  const DB_TIMEOUT: int := 2 * SECOND

  datatype Config = Config(enabled: bool, requestsPerIP: int, window: int) {
    /** What every configuration produced by LoadConfig satisfies. */
    predicate Valid() {
      requestsPerIP >= 1 && window >= SECOND && window % SECOND == 0
    }
  }

  /** The environment overrides; an absent or unparsable variable is None.
      Non-positive overrides are ignored, so no configuration has an empty limit or window. */
  function LoadConfig(enabled: bool, requestsPerIP: Option<int>, windowSeconds: Option<int>): (cfg: Config)
    ensures cfg.Valid() && cfg.enabled == enabled
    ensures cfg.requestsPerIP == if requestsPerIP.Some? && requestsPerIP.value > 0 then requestsPerIP.value else 10
    ensures windowSeconds.Some? && windowSeconds.value > 0 ==> cfg.window == windowSeconds.value * SECOND
    ensures windowSeconds.None? || windowSeconds.value <= 0 ==> cfg.window == 60 * SECOND
  {
    var n := if requestsPerIP.Some? && requestsPerIP.value > 0 then requestsPerIP.value else 10;
    var w := if windowSeconds.Some? && windowSeconds.value > 0 then windowSeconds.value else 60;
    Config(enabled, n, w * SECOND)
  }

  /** One recorded request: a row of rate_limit_requests, or an entry of the reference log. */
  datatype Row = Row(ip: string, time: int)
}
