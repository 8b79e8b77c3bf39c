/** The in-memory rate limiter: a list of request times per visitor, filtered when the visitor comes
    back and dropped by a periodic cleanup. */
module MemoryLimiter {
  import opened RateLimit

  datatype Visitor = Visitor(requests: seq<int>, lastClean: int)

  type Visitors = map<string, Visitor>

  /** The times after `cutoff`, in order. */
  function After(times: seq<int>, cutoff: int): (recent: seq<int>)
    ensures |recent| <= |times|
  {
    if times == [] then []
    else
      var front := After(times[..|times| - 1], cutoff);
      var last := times[|times| - 1];
      if last > cutoff then front + [last] else front
  }

  /** One call of `allow`: the new table of visitors and the answer. */
  function AfterAllow(cfg: Config, visitors: Visitors, ip: string, now: int): (Visitors, bool) {
    if ip !in visitors then (visitors[ip := Visitor([now], now)], true)
    else
      var recent := After(visitors[ip].requests, now - cfg.window);
      if |recent| >= cfg.requestsPerIP
      then (visitors[ip := Visitor(recent, now)], false)
      else (visitors[ip := Visitor(recent + [now], now)], true)
  }

  /** One run of `cleanup`. */
  function AfterCleanup(cfg: Config, visitors: Visitors, now: int): Visitors {
    map ip <- visitors | now - visitors[ip].lastClean <= cfg.window * CLEANUP_MULTIPLIER :: visitors[ip]
  }

  class IpRateLimiter {
    var visitors: Visitors
    const cfg: Config

    constructor (cfg: Config)
      ensures this.cfg == cfg && visitors == map[]
    {
      this.cfg := cfg;
      visitors := map[];
    }

    method Allow(ip: string, now: int) returns (ok: bool)
      modifies this
      ensures !cfg.enabled ==> ok && visitors == old(visitors)
      ensures cfg.enabled ==> (visitors, ok) == AfterAllow(cfg, old(visitors), ip, now)
    {
      if !cfg.enabled {
        return true;
      }
      if ip !in visitors {
        visitors := visitors[ip := Visitor([now], now)];
        return true;
      }
      var cutoff := now - cfg.window;
      var requests := visitors[ip].requests;
      var filtered := [];
      for i := 0 to |requests|
        invariant filtered == After(requests[..i], cutoff)
      {
        assert requests[..i + 1][..i] == requests[..i];
        if requests[i] > cutoff {
          filtered := filtered + [requests[i]];
        }
      }
      assert requests[..|requests|] == requests;
      visitors := visitors[ip := Visitor(filtered, now)];
      if |filtered| >= cfg.requestsPerIP {
        return false;
      }
      visitors := visitors[ip := Visitor(filtered + [now], now)];
      assert visitors == old(visitors)[ip := Visitor(filtered + [now], now)];
      return true;
    }

    method Cleanup(now: int)
      modifies this
      ensures visitors == AfterCleanup(cfg, old(visitors), now)
      ensures forall ip :: ip in visitors <==>
        ip in old(visitors) && now - old(visitors)[ip].lastClean <= 2 * cfg.window
      ensures forall ip <- visitors :: visitors[ip] == old(visitors)[ip]
    {
      var before := visitors;
      var todo := before.Keys;
      while todo != {}
        invariant todo <= before.Keys
        invariant visitors == map ip <- before
          | ip in todo || now - before[ip].lastClean <= cfg.window * CLEANUP_MULTIPLIER :: before[ip]
        decreases todo
      {
        var ip :| ip in todo;
        todo := todo - {ip};
        if now - before[ip].lastClean > cfg.window * CLEANUP_MULTIPLIER {
          visitors := visitors - {ip};
        }
      }
    }
  }
}
