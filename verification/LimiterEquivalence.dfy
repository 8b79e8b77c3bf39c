/** Both limiters against one reference: an unbounded log of admitted requests that is never cleaned. */
module LimiterEquivalence {
  import opened RateLimit
  import MemoryLimiter
  import LimiterProtocol

  /** What happens to a limiter, with the clock reading of the event. */
  datatype Op = Request(ip: string, now: int) | Clean(now: int)

  /** The clock does not run backwards. */
  ghost predicate Chronological(ops: seq<Op>) {
    && (forall i | 0 <= i < |ops| :: 0 <= ops[i].now)
    && (forall i, j | 0 <= i < j < |ops| :: ops[i].now <= ops[j].now)
  }

  function LastTime(ops: seq<Op>): int {
    if ops == [] then 0 else ops[|ops| - 1].now
  }

  // ---- The reference -----------------------------------------------------------------------

  /** The times of the admitted requests of `ip` in (lo, hi], in order. */
  function Times(log: seq<Row>, ip: string, lo: int, hi: int): seq<int> {
    if log == [] then []
    else
      var front := Times(log[..|log| - 1], ip, lo, hi);
      var e := log[|log| - 1];
      if e.ip == ip && lo < e.time <= hi then front + [e.time] else front
  }

  /** A request is admitted exactly if fewer than the limit were admitted in the window before it. */
  function Admits(cfg: Config, log: seq<Row>, ip: string, now: int): bool {
    |Times(log, ip, now - cfg.window, now)| < cfg.requestsPerIP
  }

  /** The log and the answers after a sequence of events. */
  function Reference(cfg: Config, ops: seq<Op>): (seq<Row>, seq<bool>) {
    if ops == [] then ([], [])
    else
      var n := |ops| - 1;
      var (log, answers) := Reference(cfg, ops[..n]);
      match ops[n]
      case Clean(_) => (log, answers)
      case Request(ip, now) =>
        if Admits(cfg, log, ip, now)
        then (log + [Row(ip, now)], answers + [true])
        else (log, answers + [false])
  }

  // ---- The two limiters on the same events -------------------------------------------------

  function InMemory(cfg: Config, ops: seq<Op>): (MemoryLimiter.Visitors, seq<bool>) {
    if ops == [] then (map[], [])
    else
      var n := |ops| - 1;
      var (visitors, answers) := InMemory(cfg, ops[..n]);
      match ops[n]
      case Clean(now) => (MemoryLimiter.AfterCleanup(cfg, visitors, now), answers)
      case Request(ip, now) =>
        var (visitors', ok) := MemoryLimiter.AfterAllow(cfg, visitors, ip, now);
        (visitors', answers + [ok])
  }

  /** The Postgres limiter when calls do not overlap: each event is a schedule of the protocol. */
  function Schedule(s: LimiterProtocol.State, n: nat, op: Op): seq<LimiterProtocol.Step>
    requires s.clock <= op.now
  {
    [LimiterProtocol.Tick(op.now - s.clock)]
    + if op.Request? then LimiterProtocol.Solo(n, op.ip) else [LimiterProtocol.Cleanup(op.now)]
  }

  function Postgres(cfg: Config, hash: string -> int, ops: seq<Op>): (LimiterProtocol.State, seq<bool>) {
    if ops == [] then (LimiterProtocol.INITIAL, [])
    else
      var n := |ops| - 1;
      var (s, answers) := Postgres(cfg, hash, ops[..n]);
      if ops[n].now < s.clock then (s, answers) else
      var s' := LimiterProtocol.RunFrom(cfg, hash, s, Schedule(s, n, ops[n]));
      (s', if ops[n].Clean? then answers
           else answers + [n in s'.reqs && s'.reqs[n].phase == LimiterProtocol.Committed])
  }

  // ---- Facts about the log -----------------------------------------------------------------

  /** Filtering the times again with a later cutoff is filtering the log with that cutoff. */
  lemma {:induction false} FilterTwice(log: seq<Row>, ip: string, lo: int, lo': int, hi: int)
    requires lo <= lo'
    ensures MemoryLimiter.After(Times(log, ip, lo, hi), lo') == Times(log, ip, lo', hi)
  {
    if log != [] {
      var front, e := log[..|log| - 1], log[|log| - 1];
      FilterTwice(front, ip, lo, lo', hi);
      var earlier := Times(front, ip, lo, hi);
      if e.ip == ip && lo < e.time <= hi {
        assert (earlier + [e.time])[..|earlier|] == earlier;
      }
    }
  }

  /** An upper bound that no entry exceeds does not matter. */
  lemma {:induction false} UpperBound(log: seq<Row>, ip: string, lo: int, hi: int, hi': int)
    requires forall i | 0 <= i < |log| && log[i].ip == ip :: log[i].time <= hi && log[i].time <= hi'
    ensures Times(log, ip, lo, hi) == Times(log, ip, lo, hi')
  {
    if log != [] {
      UpperBound(log[..|log| - 1], ip, lo, hi, hi');
    }
  }

  lemma {:induction false} NothingAfter(log: seq<Row>, ip: string, lo: int, hi: int)
    requires forall i | 0 <= i < |log| && log[i].ip == ip :: log[i].time <= lo
    ensures Times(log, ip, lo, hi) == []
  {
    if log != [] {
      NothingAfter(log[..|log| - 1], ip, lo, hi);
    }
  }

  lemma TimesSnoc(log: seq<Row>, e: Row, ip: string, lo: int, hi: int)
    ensures Times(log + [e], ip, lo, hi)
         == if e.ip == ip && lo < e.time <= hi then Times(log, ip, lo, hi) + [e.time] else Times(log, ip, lo, hi)
  {
    assert (log + [e])[..|log + [e]| - 1] == log;
  }

  // ---- The in-memory limiter ---------------------------------------------------------------

  /** A visitor's list is its part of the log as of its last visit. */
  ghost predicate VisitorMatches(cfg: Config, v: MemoryLimiter.Visitor, log: seq<Row>, ip: string, now: int) {
    && v.lastClean <= now
    && v.requests == Times(log, ip, v.lastClean - cfg.window, v.lastClean)
    && 1 <= |v.requests| <= cfg.requestsPerIP
  }

  /** Nothing was admitted after a visitor's last visit; a forgotten visitor has nothing in the window. */
  ghost predicate Accounted(cfg: Config, visitors: MemoryLimiter.Visitors, e: Row, now: int) {
    && e.time <= now
    && if e.ip in visitors then e.time <= visitors[e.ip].lastClean else e.time <= now - cfg.window
  }

  ghost predicate MemoryMatches(cfg: Config, visitors: MemoryLimiter.Visitors, log: seq<Row>, now: int) {
    && (forall ip <- visitors :: VisitorMatches(cfg, visitors[ip], log, ip, now))
    && (forall i | 0 <= i < |log| :: Accounted(cfg, visitors, log[i], now))
  }

  lemma MemoryAnswers(cfg: Config, visitors: MemoryLimiter.Visitors, log: seq<Row>, before: int, ip: string, now: int)
    requires cfg.Valid() && MemoryMatches(cfg, visitors, log, before) && before <= now
    ensures MemoryLimiter.AfterAllow(cfg, visitors, ip, now).1 == Admits(cfg, log, ip, now)
    ensures |Times(log, ip, now - cfg.window, now)| <= cfg.requestsPerIP
    ensures var recent := Times(log, ip, now - cfg.window, now);
      MemoryLimiter.AfterAllow(cfg, visitors, ip, now).0
      == visitors[ip := MemoryLimiter.Visitor(if Admits(cfg, log, ip, now) then recent + [now] else recent, now)]
  {
    if ip in visitors {
      assert VisitorMatches(cfg, visitors[ip], log, ip, before);
      NoneAfterVisit(cfg, visitors, log, before, ip);
      ListIsWindow(cfg, visitors[ip].requests, log, visitors[ip].lastClean, ip, now);
    } else {
      NobodyRecent(cfg, visitors, log, before, ip, now);
      assert [] + [now] == [now];
    }
  }

  /** The filtered list of a visitor is the log's window. */
  lemma ListIsWindow(cfg: Config, requests: seq<int>, log: seq<Row>, last: int, ip: string, now: int)
    requires last <= now && requests == Times(log, ip, last - cfg.window, last)
    requires forall i | 0 <= i < |log| && log[i].ip == ip :: log[i].time <= last
    ensures MemoryLimiter.After(requests, now - cfg.window) == Times(log, ip, now - cfg.window, now)
  {
    FilterTwice(log, ip, last - cfg.window, now - cfg.window, last);
    UpperBound(log, ip, now - cfg.window, last, now);
  }

  lemma NoneAfterVisit(cfg: Config, visitors: MemoryLimiter.Visitors, log: seq<Row>, before: int, ip: string)
    requires MemoryMatches(cfg, visitors, log, before) && ip in visitors
    ensures forall i | 0 <= i < |log| && log[i].ip == ip :: log[i].time <= visitors[ip].lastClean
  {
    forall i | 0 <= i < |log| && log[i].ip == ip ensures log[i].time <= visitors[ip].lastClean {
      assert Accounted(cfg, visitors, log[i], before);
    }
  }

  lemma NobodyRecent(cfg: Config, visitors: MemoryLimiter.Visitors, log: seq<Row>, before: int, ip: string, now: int)
    requires MemoryMatches(cfg, visitors, log, before) && before <= now && ip !in visitors
    ensures Times(log, ip, now - cfg.window, now) == []
  {
    forall i | 0 <= i < |log| && log[i].ip == ip ensures log[i].time <= now - cfg.window {
      assert Accounted(cfg, visitors, log[i], before);
    }
    NothingAfter(log, ip, now - cfg.window, now);
  }

  lemma MemoryRequest(cfg: Config, visitors: MemoryLimiter.Visitors, log: seq<Row>, before: int, ip: string, now: int)
    requires cfg.Valid() && MemoryMatches(cfg, visitors, log, before) && before <= now
    ensures MemoryMatches(cfg, MemoryLimiter.AfterAllow(cfg, visitors, ip, now).0,
              if Admits(cfg, log, ip, now) then log + [Row(ip, now)] else log, now)
  {
    var visitors' := MemoryLimiter.AfterAllow(cfg, visitors, ip, now).0;
    var log' := if Admits(cfg, log, ip, now) then log + [Row(ip, now)] else log;
    MemoryAnswers(cfg, visitors, log, before, ip, now);
    forall ip' <- visitors' ensures VisitorMatches(cfg, visitors'[ip'], log', ip', now) {
      var last := visitors'[ip'].lastClean;
      TimesSnoc(log, Row(ip, now), ip', last - cfg.window, last);
      assert ip' != ip ==> VisitorMatches(cfg, visitors[ip'], log, ip', before);
    }
    forall i | 0 <= i < |log'| ensures Accounted(cfg, visitors', log'[i], now) {
      assert i < |log| ==> Accounted(cfg, visitors, log[i], before);
    }
  }

  lemma MemoryClean(cfg: Config, visitors: MemoryLimiter.Visitors, log: seq<Row>, before: int, now: int)
    requires cfg.Valid() && MemoryMatches(cfg, visitors, log, before) && before <= now
    ensures MemoryMatches(cfg, MemoryLimiter.AfterCleanup(cfg, visitors, now), log, now)
  {
  }

  lemma {:induction false} MemoryFollows(cfg: Config, ops: seq<Op>)
    requires cfg.Valid() && Chronological(ops)
    ensures InMemory(cfg, ops).1 == Reference(cfg, ops).1
    ensures MemoryMatches(cfg, InMemory(cfg, ops).0, Reference(cfg, ops).0, LastTime(ops))
  {
    if ops != [] {
      var n := |ops| - 1;
      MemoryFollows(cfg, ops[..n]);
      var visitors, log := InMemory(cfg, ops[..n]).0, Reference(cfg, ops[..n]).0;
      match ops[n]
      case Request(ip, now) =>
        MemoryAnswers(cfg, visitors, log, LastTime(ops[..n]), ip, now);
        MemoryRequest(cfg, visitors, log, LastTime(ops[..n]), ip, now);
      case Clean(now) => MemoryClean(cfg, visitors, log, LastTime(ops[..n]), now);
    }
  }

  // ---- The Postgres limiter ----------------------------------------------------------------

  /** Nothing is in flight and the table has lost only rows that have left the window. */
  ghost predicate TableQuiet(cfg: Config, s: LimiterProtocol.State, n: nat) {
    && (forall q <- s.reqs :: q < n && !LimiterProtocol.Holds(s.reqs[q]) && s.reqs[q].now <= s.clock)
    && (forall q <- s.table :: q in s.reqs && s.reqs[q].phase == LimiterProtocol.Committed)
    && (forall q <- s.reqs :: s.reqs[q].phase == LimiterProtocol.Committed && q !in s.table ==>
          s.reqs[q].now <= s.clock - cfg.window)
  }

  /** The requests ever committed are, window by window, as many as the log has. */
  ghost predicate SameCounts(cfg: Config, s: LimiterProtocol.State, log: seq<Row>) {
    forall ip, t :: |LimiterProtocol.Since(cfg, s, ip, t)| == |Times(log, ip, t - cfg.window, s.clock)|
  }

  ghost predicate TableMatches(cfg: Config, s: LimiterProtocol.State, log: seq<Row>, n: nat) {
    && TableQuiet(cfg, s, n)
    && (forall i | 0 <= i < |log| :: log[i].time <= s.clock)
    && SameCounts(cfg, s, log)
  }

  lemma PostgresTicks(cfg: Config, s: LimiterProtocol.State, log: seq<Row>, n: nat, now: int)
    requires TableMatches(cfg, s, log, n) && s.clock <= now
    ensures TableMatches(cfg, s.(clock := now), log, n)
  {
    var s' := s.(clock := now);
    forall ip, t ensures |LimiterProtocol.Since(cfg, s', ip, t)| == |Times(log, ip, t - cfg.window, now)| {
      assert LimiterProtocol.Since(cfg, s', ip, t) == LimiterProtocol.Since(cfg, s, ip, t);
      UpperBound(log, ip, t - cfg.window, s.clock, now);
    }
  }

  /** The table after request `n` of `ip` has been admitted or denied. */
  function Decided(s: LimiterProtocol.State, n: nat, ip: string, admitted: bool): LimiterProtocol.State {
    if admitted
    then s.(reqs := s.reqs[n := LimiterProtocol.Request(ip, s.clock, LimiterProtocol.Committed)],
            table := s.table + {n})
    else s.(reqs := s.reqs[n := LimiterProtocol.Request(ip, s.clock, LimiterProtocol.Denied)])
  }

  /** A call made alone counts exactly what the log has in its window. */
  lemma PostgresAnswers(cfg: Config, s: LimiterProtocol.State, log: seq<Row>, n: nat, ip: string)
    requires cfg.Valid() && TableMatches(cfg, s, log, n)
    ensures LimiterProtocol.AllowAlone(cfg, s, n, ip) == Decided(s, n, ip, Admits(cfg, log, ip, s.clock))
  {
    var begun := s.(reqs := s.reqs[n := LimiterProtocol.Request(ip, s.clock, LimiterProtocol.Begun)]);
    assert LimiterProtocol.Visible(begun, ip, s.clock - cfg.window) == LimiterProtocol.Since(cfg, s, ip, s.clock);
  }

  lemma DecidedQuiet(cfg: Config, s: LimiterProtocol.State, n: nat, ip: string, admitted: bool)
    requires TableQuiet(cfg, s, n)
    ensures TableQuiet(cfg, Decided(s, n, ip, admitted), n + 1)
  {
  }

  lemma DeniedCounts(cfg: Config, s: LimiterProtocol.State, n: nat, ip: string, ip': string, t: int)
    requires n !in s.reqs
    ensures LimiterProtocol.Since(cfg, Decided(s, n, ip, false), ip', t) == LimiterProtocol.Since(cfg, s, ip', t)
  {
  }

  lemma AdmittedCounts(cfg: Config, s: LimiterProtocol.State, n: nat, ip: string, ip': string, t: int)
    requires n !in s.reqs
    ensures |LimiterProtocol.Since(cfg, Decided(s, n, ip, true), ip', t)|
         == |LimiterProtocol.Since(cfg, s, ip', t)| + if ip' == ip && t - cfg.window < s.clock then 1 else 0
  {
    var before := LimiterProtocol.Since(cfg, s, ip', t);
    var after := LimiterProtocol.Since(cfg, Decided(s, n, ip, true), ip', t);
    if ip' == ip && t - cfg.window < s.clock {
      assert after == before + {n};
    } else {
      assert after == before;
    }
  }

  /** One address and one instant. */
  lemma DecidedMatches(cfg: Config, s: LimiterProtocol.State, log: seq<Row>, n: nat, ip: string, admitted: bool,
      ip': string, t: int)
    requires n !in s.reqs
    requires |LimiterProtocol.Since(cfg, s, ip', t)| == |Times(log, ip', t - cfg.window, s.clock)|
    ensures |LimiterProtocol.Since(cfg, Decided(s, n, ip, admitted), ip', t)|
         == |Times(if admitted then log + [Row(ip, s.clock)] else log, ip', t - cfg.window, s.clock)|
  {
    if admitted {
      AdmittedCounts(cfg, s, n, ip, ip', t);
      TimesSnoc(log, Row(ip, s.clock), ip', t - cfg.window, s.clock);
    } else {
      DeniedCounts(cfg, s, n, ip, ip', t);
    }
  }

  lemma PostgresRequest(cfg: Config, s: LimiterProtocol.State, log: seq<Row>, n: nat, ip: string, admitted: bool)
    requires TableMatches(cfg, s, log, n)
    ensures TableMatches(cfg, Decided(s, n, ip, admitted), if admitted then log + [Row(ip, s.clock)] else log, n + 1)
  {
    DecidedQuiet(cfg, s, n, ip, admitted);
    var log' := if admitted then log + [Row(ip, s.clock)] else log;
    forall ip', t ensures |LimiterProtocol.Since(cfg, Decided(s, n, ip, admitted), ip', t)|
                       == |Times(log', ip', t - cfg.window, s.clock)|
    {
      DecidedMatches(cfg, s, log, n, ip, admitted, ip', t);
    }
  }

  lemma PostgresClean(cfg: Config, hash: string -> int, s: LimiterProtocol.State, log: seq<Row>, n: nat)
    requires cfg.Valid() && TableMatches(cfg, s, log, n)
    ensures TableMatches(cfg, LimiterProtocol.Apply(cfg, hash, s, LimiterProtocol.Cleanup(s.clock)), log, n + 1)
  {
    var s' := LimiterProtocol.Apply(cfg, hash, s, LimiterProtocol.Cleanup(s.clock));
    forall ip, t ensures LimiterProtocol.Since(cfg, s', ip, t) == LimiterProtocol.Since(cfg, s, ip, t) {}
  }

  lemma TickThen(cfg: Config, hash: string -> int, s: LimiterProtocol.State, now: int, rest: seq<LimiterProtocol.Step>)
    requires s.clock <= now
    ensures LimiterProtocol.RunFrom(cfg, hash, s, [LimiterProtocol.Tick(now - s.clock)] + rest)
         == LimiterProtocol.RunFrom(cfg, hash, s.(clock := now), rest)
  {
    LimiterProtocol.RunCons(cfg, hash, s, LimiterProtocol.Tick(now - s.clock), rest);
  }

  lemma ScheduleRuns(cfg: Config, hash: string -> int, s: LimiterProtocol.State, n: nat, op: Op)
    requires s.clock <= op.now && n !in s.reqs && forall q <- s.reqs :: !LimiterProtocol.Holds(s.reqs[q])
    ensures LimiterProtocol.RunFrom(cfg, hash, s, Schedule(s, n, op)) ==
      if op.Request? then LimiterProtocol.AllowAlone(cfg, s.(clock := op.now), n, op.ip)
      else LimiterProtocol.Apply(cfg, hash, s.(clock := op.now), LimiterProtocol.Cleanup(op.now))
  {
    if op.Request? {
      TickThen(cfg, hash, s, op.now, LimiterProtocol.Solo(n, op.ip));
      LimiterProtocol.SoloRuns(cfg, hash, s.(clock := op.now), n, op.ip);
    } else {
      var clean := LimiterProtocol.Cleanup(op.now);
      TickThen(cfg, hash, s, op.now, [clean]);
      LimiterProtocol.RunSingle(cfg, hash, s.(clock := op.now), clean);
    }
  }

  /** One event: the table keeps matching, and a request is answered like the log answers it. */
  lemma PostgresStep(cfg: Config, hash: string -> int, s: LimiterProtocol.State, log: seq<Row>, n: nat, op: Op)
    requires cfg.Valid() && TableMatches(cfg, s, log, n) && s.clock <= op.now
    ensures var s' := LimiterProtocol.RunFrom(cfg, hash, s, Schedule(s, n, op));
      var admitted := op.Request? && Admits(cfg, log, op.ip, op.now);
      && s'.clock == op.now
      && TableMatches(cfg, s', if admitted then log + [Row(op.ip, op.now)] else log, n + 1)
      && (op.Request? ==>
            n in s'.reqs && (s'.reqs[n].phase == LimiterProtocol.Committed <==> admitted))
  {
    var s1 := s.(clock := op.now);
    ScheduleRuns(cfg, hash, s, n, op);
    PostgresTicks(cfg, s, log, n, op.now);
    if op.Request? {
      PostgresAnswers(cfg, s1, log, n, op.ip);
      PostgresRequest(cfg, s1, log, n, op.ip, Admits(cfg, log, op.ip, op.now));
    } else {
      PostgresClean(cfg, hash, s1, log, n);
    }
  }

  lemma NoneYet(cfg: Config)
    ensures TableMatches(cfg, LimiterProtocol.INITIAL, [], 0)
  {
    forall ip, t ensures LimiterProtocol.Since(cfg, LimiterProtocol.INITIAL, ip, t) == {} {}
  }

  lemma {:induction false} PostgresFollows(cfg: Config, hash: string -> int, ops: seq<Op>)
    requires cfg.Valid() && Chronological(ops)
    ensures Postgres(cfg, hash, ops).1 == Reference(cfg, ops).1
    ensures Postgres(cfg, hash, ops).0.clock == LastTime(ops)
    ensures TableMatches(cfg, Postgres(cfg, hash, ops).0, Reference(cfg, ops).0, |ops|)
  {
    if ops == [] {
      NoneYet(cfg);
    } else {
      var n := |ops| - 1;
      PostgresFollows(cfg, hash, ops[..n]);
      PostgresStep(cfg, hash, Postgres(cfg, hash, ops[..n]).0, Reference(cfg, ops[..n]).0, n, ops[n]);
    }
  }

  // ---- Main results ------------------------------------------------------------------------

  /** On every sequence of requests and cleanups with a clock that does not run backwards, the in-memory
      limiter and the Postgres limiter give the answers of the log that is never cleaned. */
  lemma LimitersAgree(cfg: Config, hash: string -> int, ops: seq<Op>)
    requires cfg.Valid() && Chronological(ops)
    ensures InMemory(cfg, ops).1 == Postgres(cfg, hash, ops).1 == Reference(cfg, ops).1
  {
    MemoryFollows(cfg, ops);
    PostgresFollows(cfg, hash, ops);
  }

  /** Every list that the in-memory limiter keeps is non-empty, sorted and no longer than the limit. */
  lemma VisitorListsStaySmall(cfg: Config, ops: seq<Op>, ip: string)
    requires cfg.Valid() && Chronological(ops) && ip in InMemory(cfg, ops).0
    ensures 1 <= |InMemory(cfg, ops).0[ip].requests| <= cfg.requestsPerIP
    ensures Ascending(InMemory(cfg, ops).0[ip].requests)
  {
    MemoryFollows(cfg, ops);
    ReferenceAscending(cfg, ops);
    var v := InMemory(cfg, ops).0[ip];
    assert VisitorMatches(cfg, v, Reference(cfg, ops).0, ip, LastTime(ops));
    TimesAscending(Reference(cfg, ops).0, ip, v.lastClean - cfg.window, v.lastClean);
  }

  ghost predicate Ascending(times: seq<int>) {
    forall i, j | 0 <= i < j < |times| :: times[i] <= times[j]
  }

  /** The log is in order of time and ends no later than `end`. */
  ghost predicate AscendingLog(log: seq<Row>, end: int) {
    && (forall i | 0 <= i < |log| :: log[i].time <= end)
    && (forall i, j | 0 <= i < j < |log| :: log[i].time <= log[j].time)
  }

  lemma AscendingGrows(log: seq<Row>, before: int, end: int, ip: string)
    requires AscendingLog(log, before) && before <= end
    ensures AscendingLog(log, end) && AscendingLog(log + [Row(ip, end)], end)
  {
  }

  lemma {:induction false} ReferenceAscending(cfg: Config, ops: seq<Op>)
    requires Chronological(ops)
    ensures AscendingLog(Reference(cfg, ops).0, LastTime(ops))
  {
    if ops != [] {
      var n := |ops| - 1;
      ReferenceAscending(cfg, ops[..n]);
      assert LastTime(ops[..n]) <= LastTime(ops);
      AscendingGrows(Reference(cfg, ops[..n]).0, LastTime(ops[..n]), LastTime(ops),
                     if ops[n].Request? then ops[n].ip else "");
    }
  }

  lemma {:induction false} TimesAscending(log: seq<Row>, ip: string, lo: int, hi: int)
    requires log != [] ==> AscendingLog(log, log[|log| - 1].time)
    ensures Ascending(Times(log, ip, lo, hi))
    ensures forall i | 0 <= i < |Times(log, ip, lo, hi)| ::
      log != [] && Times(log, ip, lo, hi)[i] <= log[|log| - 1].time
  {
    if log != [] {
      var front := log[..|log| - 1];
      TimesAscending(front, ip, lo, hi);
      if front != [] {
        assert front[|front| - 1] == log[|log| - 2];
      }
    }
  }
}
