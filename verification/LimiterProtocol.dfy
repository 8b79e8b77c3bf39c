/** The Postgres rate limiter as a protocol: any number of replicas run `allow` concurrently, one SQL
    statement per step, while cleanup jobs delete rows. The request time is read before the advisory
    lock is taken, so the order of the locks and the order of the times may disagree. */
module LimiterProtocol {
  import opened Common
  import opened RateLimit

  /** Where one call of `allow` stands. The transaction holds the advisory lock from Locked to Inserted.
      Failed covers every fail-open exit, the expired deadline and a crash: all roll back. */
  datatype Phase = Begun | Locked | Counted | Inserted | Committed | Denied | Failed

  /** One call of `allow`; `now` is both the request time and the start of its 2s deadline. */
  datatype Request = Request(ip: string, now: int, phase: Phase)

  /** `table` holds the ids of the committed requests whose row has not been deleted. */
  datatype State = State(clock: int, reqs: map<nat, Request>, table: set<nat>)

  datatype Step =
    | Tick(delta: nat)
    | Begin(id: nat, ip: string)
    | Lock(id: nat)
    | Count(id: nat)
    | Insert(id: nat)
    | Commit(id: nat)
    | Fail(id: nat)
    | Cleanup(asOf: int) // the cleanup job's own clock reading, taken at or before the DELETE

  /** The request has counted fewer rows than the limit and is about to be recorded. */
  predicate Checked(r: Request) {
    r.phase == Counted || r.phase == Inserted
  }

  predicate Holds(r: Request) {
    r.phase == Locked || Checked(r)
  }

  predicate Unfinished(r: Request) {
    r.phase == Begun || Holds(r)
  }

  /** A statement of request `id` can still run: the request is in phase `p` and its deadline is not over. */
  predicate Ready(s: State, id: nat, p: Phase) {
    id in s.reqs && s.reqs[id].phase == p && s.clock <= s.reqs[id].now + DB_TIMEOUT
  }

  /** No other transaction holds the advisory lock for this key; `hash` stands for hashtext. */
  predicate LockFree(hash: string -> int, s: State, id: nat)
    requires id in s.reqs
  {
    forall q <- s.reqs :: q != id && Holds(s.reqs[q]) ==> hash(s.reqs[q].ip) != hash(s.reqs[id].ip)
  }

  /** The rows that the COUNT statement sees. */
  function Visible(s: State, ip: string, after: int): set<nat> {
    set q <- s.table | q in s.reqs && s.reqs[q].ip == ip && s.reqs[q].now > after
  }

  function SetPhase(s: State, id: nat, p: Phase): State
    requires id in s.reqs
  {
    s.(reqs := s.reqs[id := s.reqs[id].(phase := p)])
  }

  predicate Enabled(hash: string -> int, s: State, step: Step) {
    match step
    case Tick(_) => true
    case Begin(id, _) => id !in s.reqs
    case Lock(id) => Ready(s, id, Begun) && LockFree(hash, s, id)
    case Count(id) => Ready(s, id, Locked)
    case Insert(id) => Ready(s, id, Counted)
    case Commit(id) => Ready(s, id, Inserted)
    case Fail(id) => id in s.reqs && Unfinished(s.reqs[id])
    case Cleanup(asOf) => asOf <= s.clock
  }

  /** One step; a step that is not enabled leaves the state alone. */
  function Apply(cfg: Config, hash: string -> int, s: State, step: Step): State {
    if !Enabled(hash, s, step) then s else
    match step
    case Tick(delta) => s.(clock := s.clock + delta)
    case Begin(id, ip) => s.(reqs := s.reqs[id := Request(ip, s.clock, Begun)])
    case Lock(id) => SetPhase(s, id, Locked)
    case Count(id) =>
      var r := s.reqs[id];
      if |Visible(s, r.ip, r.now - cfg.window)| >= cfg.requestsPerIP
      then SetPhase(s, id, Denied)
      else SetPhase(s, id, Counted)
    case Insert(id) => SetPhase(s, id, Inserted)
    case Commit(id) => SetPhase(s, id, Committed).(table := s.table + {id})
    case Fail(id) => SetPhase(s, id, Failed)
    case Cleanup(asOf) =>
      var cutoff := asOf - cfg.window * CLEANUP_MULTIPLIER;
      s.(table := set q <- s.table | q in s.reqs && s.reqs[q].now >= cutoff)
  }

  function RunFrom(cfg: Config, hash: string -> int, s: State, steps: seq<Step>): State {
    if steps == [] then s
    else Apply(cfg, hash, RunFrom(cfg, hash, s, steps[..|steps| - 1]), steps[|steps| - 1])
  }

  const INITIAL := State(0, map[], {})

  /** The state after a schedule, starting from an empty table at time 0. */
  function Run(cfg: Config, hash: string -> int, steps: seq<Step>): State {
    RunFrom(cfg, hash, INITIAL, steps)
  }

  /** The requests of `ip` ever committed with a time in (t - window, t], deleted rows included. */
  function Within(cfg: Config, s: State, ip: string, t: int): set<nat> {
    set q <- s.reqs | s.reqs[q].phase == Committed && s.reqs[q].ip == ip && t - cfg.window < s.reqs[q].now <= t
  }

  /** The requests of `ip` ever committed with a time after t - window: what a COUNT for `t` ought to see. */
  function Since(cfg: Config, s: State, ip: string, t: int): set<nat> {
    set q <- s.reqs | s.reqs[q].phase == Committed && s.reqs[q].ip == ip && t - cfg.window < s.reqs[q].now
  }

  /** The limiter's promise: no window of length cfg.window holds more than the limit. */
  ghost predicate Safe(cfg: Config, s: State) {
    forall ip, t :: |Within(cfg, s, ip, t)| <= cfg.requestsPerIP
  }

  // ---- The inductive invariant -------------------------------------------------------------

  ghost predicate Bookkeeping(s: State) {
    && (forall q <- s.reqs :: s.reqs[q].now <= s.clock)
    && (forall q <- s.table :: q in s.reqs && s.reqs[q].phase == Committed)
  }

  ghost predicate MutualExclusion(hash: string -> int, s: State) {
    forall p <- s.reqs, q <- s.reqs ::
      p != q && Holds(s.reqs[p]) && Holds(s.reqs[q]) ==> hash(s.reqs[p].ip) != hash(s.reqs[q].ip)
  }

  /** Cleanup only took rows too old for any request still within its deadline. */
  ghost predicate OnlyStaleDeleted(cfg: Config, s: State) {
    forall q <- s.reqs :: s.reqs[q].phase == Committed && q !in s.table ==>
      cfg.window >= DB_TIMEOUT && s.reqs[q].now < s.clock - cfg.window * CLEANUP_MULTIPLIER
  }

  /** A request that has passed the check still has room, whatever was committed meanwhile. */
  ghost predicate RoomReserved(cfg: Config, s: State) {
    forall p <- s.reqs :: Checked(s.reqs[p]) ==>
      |Since(cfg, s, s.reqs[p].ip, s.reqs[p].now)| < cfg.requestsPerIP
  }

  /** A denied request found its window full. */
  ghost predicate DenialsJustified(cfg: Config, s: State) {
    forall p <- s.reqs :: s.reqs[p].phase == Denied ==>
      |Since(cfg, s, s.reqs[p].ip, s.reqs[p].now)| >= cfg.requestsPerIP
  }

  ghost predicate Inv(cfg: Config, hash: string -> int, s: State) {
    && Bookkeeping(s)
    && MutualExclusion(hash, s)
    && OnlyStaleDeleted(cfg, s)
    && RoomReserved(cfg, s)
    && DenialsJustified(cfg, s)
    && Safe(cfg, s)
  }

  /** A step that neither commits nor changes a request time keeps every count. */
  lemma SameCommitted(cfg: Config, s: State, s': State)
    requires forall q <- s.reqs :: q in s'.reqs && s'.reqs[q].(phase := s.reqs[q].phase) == s.reqs[q]
    requires forall q <- s'.reqs :: s'.reqs[q].phase == Committed <==> q in s.reqs && s.reqs[q].phase == Committed
    ensures forall ip, t :: Within(cfg, s', ip, t) == Within(cfg, s, ip, t)
    ensures forall ip, t :: Since(cfg, s', ip, t) == Since(cfg, s, ip, t)
  {
  }

  /** A request that counts in time sees every row it ought to, also the deleted ones: there are none. */
  lemma CountIsExact(cfg: Config, hash: string -> int, s: State, id: nat)
    requires Bookkeeping(s) && OnlyStaleDeleted(cfg, s) && Ready(s, id, Locked)
    ensures Visible(s, s.reqs[id].ip, s.reqs[id].now - cfg.window) == Since(cfg, s, s.reqs[id].ip, s.reqs[id].now)
    ensures Apply(cfg, hash, s, Count(id)) ==
            SetPhase(s, id, if |Since(cfg, s, s.reqs[id].ip, s.reqs[id].now)| >= cfg.requestsPerIP
                            then Denied else Counted)
  {
  }

  lemma MoveKeepsExclusion(hash: string -> int, s: State, id: nat, p: Phase)
    requires MutualExclusion(hash, s) && id in s.reqs
    requires Holds(s.reqs[id]) || (p == Locked && LockFree(hash, s, id)) || p == Denied || p == Failed
    ensures MutualExclusion(hash, SetPhase(s, id, p))
  {
  }

  /** Counts that do not change keep what was said about them. */
  lemma SameCountsKeep(cfg: Config, s: State, s': State)
    requires forall ip, t :: Within(cfg, s', ip, t) == Within(cfg, s, ip, t)
    ensures Safe(cfg, s) ==> Safe(cfg, s')
  {
    forall ip, t | Safe(cfg, s) ensures |Within(cfg, s', ip, t)| <= cfg.requestsPerIP {
      assert Within(cfg, s', ip, t) == Within(cfg, s, ip, t);
    }
  }

  /** What is known of one request that has been checked or denied. */
  ghost predicate Justified(cfg: Config, s: State, r: Request) {
    && (Checked(r) ==> |Since(cfg, s, r.ip, r.now)| < cfg.requestsPerIP)
    && (r.phase == Denied ==> |Since(cfg, s, r.ip, r.now)| >= cfg.requestsPerIP)
  }

  lemma AllJustified(cfg: Config, s: State)
    ensures RoomReserved(cfg, s) && DenialsJustified(cfg, s) <==> forall p <- s.reqs :: Justified(cfg, s, s.reqs[p])
  {
    if forall p <- s.reqs :: Justified(cfg, s, s.reqs[p]) {
      forall p <- s.reqs ensures Justified(cfg, s, s.reqs[p]) {}
    }
  }

  lemma MoveKeepsJustified(cfg: Config, s: State, id: nat, p: Phase)
    requires RoomReserved(cfg, s) && DenialsJustified(cfg, s) && id in s.reqs
    requires forall ip, t :: Since(cfg, SetPhase(s, id, p), ip, t) == Since(cfg, s, ip, t)
    requires Justified(cfg, s, s.reqs[id].(phase := p))
    ensures RoomReserved(cfg, SetPhase(s, id, p)) && DenialsJustified(cfg, SetPhase(s, id, p))
  {
    AllJustified(cfg, s);
    var s' := SetPhase(s, id, p);
    forall q <- s'.reqs ensures Justified(cfg, s', s'.reqs[q]) {
      assert Since(cfg, s', s'.reqs[q].ip, s'.reqs[q].now) == Since(cfg, s, s'.reqs[q].ip, s'.reqs[q].now);
      assert q != id ==> Justified(cfg, s, s.reqs[q]);
    }
    AllJustified(cfg, s');
  }

  lemma MoveKeepsTable(cfg: Config, s: State, id: nat, p: Phase)
    requires Bookkeeping(s) && OnlyStaleDeleted(cfg, s) && id in s.reqs && Unfinished(s.reqs[id]) && p != Committed
    ensures Bookkeeping(SetPhase(s, id, p)) && OnlyStaleDeleted(cfg, SetPhase(s, id, p))
  {
  }

  /** Every phase change except a commit keeps the invariant if the new phase is justified. */
  lemma MoveKeepsInv(cfg: Config, hash: string -> int, s: State, id: nat, p: Phase)
    requires Inv(cfg, hash, s) && id in s.reqs && Unfinished(s.reqs[id])
    requires p != Begun && p != Committed
    requires Holds(s.reqs[id]) || p == Failed || (p == Locked && LockFree(hash, s, id))
    requires p == Counted || p == Inserted ==> |Since(cfg, s, s.reqs[id].ip, s.reqs[id].now)| < cfg.requestsPerIP
    requires p == Denied ==> |Since(cfg, s, s.reqs[id].ip, s.reqs[id].now)| >= cfg.requestsPerIP
    ensures Inv(cfg, hash, SetPhase(s, id, p))
  {
    MoveKeepsExclusion(hash, s, id, p);
    MoveKeepsTable(cfg, s, id, p);
    SameCommitted(cfg, s, SetPhase(s, id, p));
    SameCountsKeep(cfg, s, SetPhase(s, id, p));
    MoveKeepsJustified(cfg, s, id, p);
  }

  lemma BeginKeepsTable(cfg: Config, hash: string -> int, s: State, id: nat, r: Request)
    requires cfg.Valid() && Bookkeeping(s) && OnlyStaleDeleted(cfg, s) && MutualExclusion(hash, s)
    requires id !in s.reqs && r.phase == Begun && r.now == s.clock
    ensures var s' := s.(reqs := s.reqs[id := r]);
      Bookkeeping(s') && OnlyStaleDeleted(cfg, s') && MutualExclusion(hash, s')
  {
  }

  lemma BeginKeepsCounts(cfg: Config, s: State, id: nat, r: Request)
    requires RoomReserved(cfg, s) && DenialsJustified(cfg, s) && Safe(cfg, s) && id !in s.reqs && r.phase == Begun
    ensures var s' := s.(reqs := s.reqs[id := r]);
      RoomReserved(cfg, s') && DenialsJustified(cfg, s') && Safe(cfg, s')
  {
    var s' := s.(reqs := s.reqs[id := r]);
    SameCommitted(cfg, s, s');
    SameCountsKeep(cfg, s, s');
    AllJustified(cfg, s);
    forall q <- s'.reqs ensures Justified(cfg, s', s'.reqs[q]) {
      assert Since(cfg, s', s'.reqs[q].ip, s'.reqs[q].now) == Since(cfg, s, s'.reqs[q].ip, s'.reqs[q].now);
      assert q != id ==> Justified(cfg, s, s.reqs[q]);
    }
    AllJustified(cfg, s');
  }

  lemma BeginKeepsInv(cfg: Config, hash: string -> int, s: State, id: nat, ip: string)
    requires cfg.Valid() && Inv(cfg, hash, s) && id !in s.reqs
    ensures Inv(cfg, hash, Apply(cfg, hash, s, Begin(id, ip)))
  {
    BeginKeepsTable(cfg, hash, s, id, Request(ip, s.clock, Begun));
    BeginKeepsCounts(cfg, s, id, Request(ip, s.clock, Begun));
  }

  lemma TickKeepsInv(cfg: Config, hash: string -> int, s: State, delta: nat)
    requires Inv(cfg, hash, s)
    ensures Inv(cfg, hash, Apply(cfg, hash, s, Tick(delta)))
  {
    SameCommitted(cfg, s, Apply(cfg, hash, s, Tick(delta)));
  }

  lemma CountKeepsInv(cfg: Config, hash: string -> int, s: State, id: nat)
    requires Inv(cfg, hash, s) && Ready(s, id, Locked)
    ensures Inv(cfg, hash, Apply(cfg, hash, s, Count(id)))
  {
    CountIsExact(cfg, hash, s, id);
    MoveKeepsInv(cfg, hash, s, id,
                 if |Since(cfg, s, s.reqs[id].ip, s.reqs[id].now)| >= cfg.requestsPerIP then Denied else Counted);
  }

  lemma CleanupKeepsInv(cfg: Config, hash: string -> int, s: State, asOf: int)
    requires cfg.Valid() && cfg.window >= DB_TIMEOUT && Inv(cfg, hash, s) && asOf <= s.clock
    ensures Inv(cfg, hash, Apply(cfg, hash, s, Cleanup(asOf)))
  {
    SameCommitted(cfg, s, Apply(cfg, hash, s, Cleanup(asOf)));
  }

  /** The argument behind the limit: whatever the order of the times, everything in a window that
      contains the new request was counted by it. */
  lemma CommitFits(cfg: Config, s: State, id: nat, ip: string, t: int)
    requires id in s.reqs && s.reqs[id].phase == Inserted
    requires |Since(cfg, s, s.reqs[id].ip, s.reqs[id].now)| < cfg.requestsPerIP
    requires |Within(cfg, s, ip, t)| <= cfg.requestsPerIP
    ensures |Within(cfg, SetPhase(s, id, Committed), ip, t)| <= cfg.requestsPerIP
  {
    var r, s' := s.reqs[id], SetPhase(s, id, Committed);
    if ip == r.ip && t - cfg.window < r.now <= t {
      assert Within(cfg, s', ip, t) == Within(cfg, s, ip, t) + {id};
      SubsetSize(Within(cfg, s, ip, t), Since(cfg, s, ip, r.now));
    } else {
      assert Within(cfg, s', ip, t) == Within(cfg, s, ip, t);
    }
  }

  lemma CommitIsSafe(cfg: Config, hash: string -> int, s: State, id: nat)
    requires Safe(cfg, s) && RoomReserved(cfg, s) && Ready(s, id, Inserted)
    ensures Safe(cfg, Apply(cfg, hash, s, Commit(id)))
  {
    var s' := Apply(cfg, hash, s, Commit(id));
    forall ip, t ensures |Within(cfg, s', ip, t)| <= cfg.requestsPerIP {
      CommitFits(cfg, s, id, ip, t);
      assert Within(cfg, s', ip, t) == Within(cfg, SetPhase(s, id, Committed), ip, t);
    }
  }

  lemma CommitKeepsInv(cfg: Config, hash: string -> int, s: State, id: nat)
    requires Inv(cfg, hash, s) && Enabled(hash, s, Commit(id))
    ensures Inv(cfg, hash, Apply(cfg, hash, s, Commit(id)))
  {
    var s' := Apply(cfg, hash, s, Commit(id));
    CommitIsSafe(cfg, hash, s, id);
    forall p <- s'.reqs ensures
      var r := s'.reqs[p];
      && (Checked(r) ==> |Since(cfg, s', r.ip, r.now)| < cfg.requestsPerIP)
      && (r.phase == Denied ==> |Since(cfg, s', r.ip, r.now)| >= cfg.requestsPerIP)
    {
      var r := s'.reqs[p];
      if Checked(r) {
        assert r.ip != s.reqs[id].ip;
        assert Since(cfg, s', r.ip, r.now) == Since(cfg, s, r.ip, r.now);
      } else {
        SubsetSize(Since(cfg, s, r.ip, r.now), Since(cfg, s', r.ip, r.now));
      }
    }
  }

  /** Every step keeps the invariant, as long as cleanup cannot outrun a transaction's deadline. */
  lemma StepKeepsInv(cfg: Config, hash: string -> int, s: State, step: Step)
    requires cfg.Valid() && Inv(cfg, hash, s)
    requires step.Cleanup? ==> cfg.window >= DB_TIMEOUT
    ensures Inv(cfg, hash, Apply(cfg, hash, s, step))
  {
    if Enabled(hash, s, step) {
      match step
      case Tick(delta) => TickKeepsInv(cfg, hash, s, delta);
      case Begin(id, ip) => BeginKeepsInv(cfg, hash, s, id, ip);
      case Lock(id) => MoveKeepsInv(cfg, hash, s, id, Locked);
      case Count(id) => CountKeepsInv(cfg, hash, s, id);
      case Insert(id) => MoveKeepsInv(cfg, hash, s, id, Inserted);
      case Commit(id) => CommitKeepsInv(cfg, hash, s, id);
      case Fail(id) => MoveKeepsInv(cfg, hash, s, id, Failed);
      case Cleanup(asOf) => CleanupKeepsInv(cfg, hash, s, asOf);
    }
  }

  lemma {:induction false} RunKeepsInv(cfg: Config, hash: string -> int, steps: seq<Step>)
    requires cfg.Valid()
    requires cfg.window >= DB_TIMEOUT || forall i | 0 <= i < |steps| :: !steps[i].Cleanup?
    ensures Inv(cfg, hash, Run(cfg, hash, steps))
  {
    if steps == [] {
      forall ip, t ensures Within(cfg, Run(cfg, hash, []), ip, t) == {} {}
    } else {
      var init := steps[..|steps| - 1];
      RunKeepsInv(cfg, hash, init);
      StepKeepsInv(cfg, hash, Run(cfg, hash, init), steps[|steps| - 1]);
    }
  }

  // ---- Safety ------------------------------------------------------------------------------

  /** Without the cleanup job no schedule breaks the limit, whatever the window. */
  lemma LimitHoldsWithoutCleanup(cfg: Config, hash: string -> int, steps: seq<Step>)
    requires cfg.Valid()
    requires forall i | 0 <= i < |steps| :: !steps[i].Cleanup?
    ensures Safe(cfg, Run(cfg, hash, steps))
  {
    RunKeepsInv(cfg, hash, steps);
  }

  /** The limiter keeps its promise on every schedule exactly when the configured window is at least
      the database timeout of two seconds. A one-second window is accepted by the configuration and is not enough. */
  lemma LimitHoldsIffWindowCoversTimeout(cfg: Config, hash: string -> int)
    requires cfg.Valid()
    ensures (forall steps :: Safe(cfg, Run(cfg, hash, steps))) <==> cfg.window >= 2 * SECOND
  {
    if cfg.window >= DB_TIMEOUT {
      forall steps ensures Safe(cfg, Run(cfg, hash, steps)) {
        RunKeepsInv(cfg, hash, steps);
      }
    } else {
      assert cfg.window == SECOND;
      OneSecondWindowFails(cfg, hash, "10.0.0.1");
    }
  }

  // ---- Exactness ---------------------------------------------------------------------------

  function RequestsOf(s: State, ip: string): set<nat> {
    set q <- s.reqs | s.reqs[q].ip == ip
  }

  function Admitted(s: State, ip: string): set<nat> {
    set q <- s.reqs | s.reqs[q].ip == ip && s.reqs[q].phase == Committed
  }

  /** If no request of an address failed and all its requests read times less than a window apart, then
      every interleaving, with other addresses and with cleanup, admits exactly as many as fit. */
  lemma AdmitsExactly(cfg: Config, hash: string -> int, steps: seq<Step>, ip: string)
    requires cfg.Valid()
    requires cfg.window >= DB_TIMEOUT || forall i | 0 <= i < |steps| :: !steps[i].Cleanup?
    requires forall q <- RequestsOf(Run(cfg, hash, steps), ip) ::
      Run(cfg, hash, steps).reqs[q].phase == Committed || Run(cfg, hash, steps).reqs[q].phase == Denied
    requires forall p <- RequestsOf(Run(cfg, hash, steps), ip), q <- RequestsOf(Run(cfg, hash, steps), ip) ::
      Run(cfg, hash, steps).reqs[p].now - Run(cfg, hash, steps).reqs[q].now < cfg.window
    ensures var n := |RequestsOf(Run(cfg, hash, steps), ip)|;
      |Admitted(Run(cfg, hash, steps), ip)| == if n < cfg.requestsPerIP then n else cfg.requestsPerIP
  {
    var s := Run(cfg, hash, steps);
    var all, admitted := RequestsOf(s, ip), Admitted(s, ip);
    RunKeepsInv(cfg, hash, steps);
    SubsetSize(admitted, all);
    if all != {} {
      var last := LatestRequest(s, all);
      assert Within(cfg, s, ip, s.reqs[last].now) == admitted;
    }
    if p :| p in all && s.reqs[p].phase == Denied {
      SubsetSize(Since(cfg, s, ip, s.reqs[p].now), admitted);
    } else {
      assert admitted == all;
    }
  }

  lemma LatestRequest(s: State, ids: set<nat>) returns (last: nat)
    requires ids != {} && forall q <- ids :: q in s.reqs
    ensures last in ids && forall q <- ids :: s.reqs[q].now <= s.reqs[last].now
  {
    last :| last in ids;
    if ids != {last} {
      var other := LatestRequest(s, ids - {last});
      if s.reqs[other].now > s.reqs[last].now { last := other; }
    }
  }

  // ---- A request that meets no other -------------------------------------------------------

  /** The statements of one call of `allow`, back to back; after a denial the last two do not run. */
  function Statements(id: nat): seq<Step> {
    [Lock(id), Count(id), Insert(id), Commit(id)]
  }

  function Solo(id: nat, ip: string): seq<Step> {
    [Begin(id, ip)] + Statements(id)
  }

  /** What those statements do when no other request holds a lock. */
  function Finish(cfg: Config, s: State, id: nat): State
    requires id in s.reqs
  {
    var r := s.reqs[id];
    if |Visible(s, r.ip, r.now - cfg.window)| >= cfg.requestsPerIP
    then SetPhase(s, id, Denied)
    else SetPhase(s, id, Committed).(table := s.table + {id})
  }

  /** What a call made alone does: it counts its window and is recorded exactly if there is room. */
  function AllowAlone(cfg: Config, s: State, id: nat, ip: string): State {
    Finish(cfg, s.(reqs := s.reqs[id := Request(ip, s.clock, Begun)]), id)
  }

  lemma {:induction false} RunConcat(cfg: Config, hash: string -> int, s: State, a: seq<Step>, b: seq<Step>)
    ensures RunFrom(cfg, hash, s, a + b) == RunFrom(cfg, hash, RunFrom(cfg, hash, s, a), b)
  {
    if b == [] {
      assert a + b == a;
    } else {
      var front := b[..|b| - 1];
      assert (a + b)[..|a + b| - 1] == a + front;
      RunConcat(cfg, hash, s, a, front);
    }
  }

  lemma RunSingle(cfg: Config, hash: string -> int, s: State, step: Step)
    ensures RunFrom(cfg, hash, s, [step]) == Apply(cfg, hash, s, step)
  {
    assert [step][..0] == [];
    assert RunFrom(cfg, hash, s, []) == s;
  }

  lemma RunCons(cfg: Config, hash: string -> int, s: State, step: Step, rest: seq<Step>)
    ensures RunFrom(cfg, hash, s, [step] + rest) == RunFrom(cfg, hash, Apply(cfg, hash, s, step), rest)
  {
    RunConcat(cfg, hash, s, [step], rest);
    RunSingle(cfg, hash, s, step);
  }

  lemma RunFour(cfg: Config, hash: string -> int, s: State, a: Step, b: Step, c: Step, d: Step)
    ensures RunFrom(cfg, hash, s, [a, b, c, d]) ==
      Apply(cfg, hash, Apply(cfg, hash, Apply(cfg, hash, Apply(cfg, hash, s, a), b), c), d)
  {
    RunTwo(cfg, hash, s, a, b);
    RunTwo(cfg, hash, RunFrom(cfg, hash, s, [a, b]), c, d);
    RunConcat(cfg, hash, s, [a, b], [c, d]);
    assert [a, b] + [c, d] == [a, b, c, d];
  }

  lemma RunTwo(cfg: Config, hash: string -> int, s: State, a: Step, b: Step)
    ensures RunFrom(cfg, hash, s, [a, b]) == Apply(cfg, hash, Apply(cfg, hash, s, a), b)
  {
    RunCons(cfg, hash, s, a, [b]);
    RunSingle(cfg, hash, Apply(cfg, hash, s, a), b);
    assert [a] + [b] == [a, b];
  }

  /** Locking changes no row, so the COUNT can be taken in the state before the lock. */
  lemma StatementsApply(cfg: Config, hash: string -> int, s: State, id: nat)
    requires Ready(s, id, Begun) && forall q <- s.reqs :: !Holds(s.reqs[q])
    ensures Apply(cfg, hash, Apply(cfg, hash, Apply(cfg, hash, Apply(cfg, hash, s,
              Lock(id)), Count(id)), Insert(id)), Commit(id)) == Finish(cfg, s, id)
  {
    var r := s.reqs[id];
    var s1 := Apply(cfg, hash, s, Lock(id));
    assert s1 == SetPhase(s, id, Locked);
    assert Visible(s1, r.ip, r.now - cfg.window) == Visible(s, r.ip, r.now - cfg.window);
  }

  lemma StatementsRun(cfg: Config, hash: string -> int, s: State, id: nat)
    requires Ready(s, id, Begun) && forall q <- s.reqs :: !Holds(s.reqs[q])
    ensures RunFrom(cfg, hash, s, Statements(id)) == Finish(cfg, s, id)
  {
    RunFour(cfg, hash, s, Lock(id), Count(id), Insert(id), Commit(id));
    StatementsApply(cfg, hash, s, id);
  }

  lemma SoloRuns(cfg: Config, hash: string -> int, s: State, id: nat, ip: string)
    requires id !in s.reqs && forall q <- s.reqs :: !Holds(s.reqs[q])
    ensures RunFrom(cfg, hash, s, Solo(id, ip)) == AllowAlone(cfg, s, id, ip)
  {
    RunCons(cfg, hash, s, Begin(id, ip), Statements(id));
    StatementsRun(cfg, hash, s.(reqs := s.reqs[id := Request(ip, s.clock, Begun)]), id);
  }

  // ---- The one-second window ---------------------------------------------------------------

  /** n requests of `ip`, one after the other, all at time 0. */
  function Burst(n: nat, ip: string): seq<Step> {
    if n == 0 then [] else Burst(n - 1, ip) + Solo(n - 1, ip)
  }

  function Below(n: nat): (ids: set<nat>)
    ensures |ids| == n && forall i :: i in ids <==> 0 <= i < n
  {
    if n == 0 then {} else Below(n - 1) + {n - 1}
  }

  function AfterBurst(n: nat, ip: string): State {
    State(0, map i <- Below(n) :: Request(ip, 0, Committed), Below(n))
  }

  lemma BurstIsQuiet(n: nat, ip: string)
    ensures n !in AfterBurst(n, ip).reqs && forall q <- AfterBurst(n, ip).reqs :: !Holds(AfterBurst(n, ip).reqs[q])
  {
  }

  /** Fewer rows than the limit are visible, so the next request gets in. */
  lemma BurstHasRoom(cfg: Config, n: nat, ip: string)
    requires cfg.Valid() && n < cfg.requestsPerIP
    ensures var s := AfterBurst(n, ip);
      |Visible(s.(reqs := s.reqs[n := Request(ip, 0, Begun)]), ip, 0 - cfg.window)| < cfg.requestsPerIP
  {
    var s := AfterBurst(n, ip);
    assert Visible(s.(reqs := s.reqs[n := Request(ip, 0, Begun)]), ip, 0 - cfg.window) == Below(n);
  }

  lemma BurstGrows(cfg: Config, n: nat, ip: string)
    requires cfg.Valid() && n < cfg.requestsPerIP
    ensures AllowAlone(cfg, AfterBurst(n, ip), n, ip) == AfterBurst(n + 1, ip)
  {
    BurstHasRoom(cfg, n, ip);
    var s := AfterBurst(n, ip);
    assert s.reqs[n := Request(ip, 0, Begun)][n := Request(ip, 0, Committed)] == AfterBurst(n + 1, ip).reqs;
  }

  lemma BurstStep(cfg: Config, hash: string -> int, n: nat, ip: string)
    requires cfg.Valid() && n < cfg.requestsPerIP
    ensures RunFrom(cfg, hash, AfterBurst(n, ip), Solo(n, ip)) == AfterBurst(n + 1, ip)
  {
    BurstIsQuiet(n, ip);
    SoloRuns(cfg, hash, AfterBurst(n, ip), n, ip);
    BurstGrows(cfg, n, ip);
  }

  lemma {:induction false} BurstFits(cfg: Config, hash: string -> int, n: nat, ip: string)
    requires cfg.Valid() && n <= cfg.requestsPerIP
    ensures Run(cfg, hash, Burst(n, ip)) == AfterBurst(n, ip)
  {
    if n == 0 {
      assert AfterBurst(0, ip) == INITIAL;
    } else {
      BurstFits(cfg, hash, n - 1, ip);
      BurstStep(cfg, hash, n - 1, ip);
      RunConcat(cfg, hash, INITIAL, Burst(n - 1, ip), Solo(n - 1, ip));
    }
  }

  /** After a full window at time 0 a request begins just before the window ends. Its statements are
      delayed, within the deadline, until cleanup has removed the rows that it ought to have counted. */
  function Delay(cfg: Config, ip: string): seq<Step>
    requires cfg.Valid()
  {
    [Tick(cfg.window - 1), Begin(cfg.requestsPerIP, ip), Tick(cfg.window + 2), Cleanup(2 * cfg.window + 1)]
  }

  lemma DelayRuns(cfg: Config, hash: string -> int, ip: string)
    requires cfg.Valid()
    ensures var n, s := cfg.requestsPerIP, AfterBurst(cfg.requestsPerIP, ip);
      RunFrom(cfg, hash, s, Delay(cfg, ip))
      == State(2 * cfg.window + 1, s.reqs[n := Request(ip, cfg.window - 1, Begun)], {})
  {
    var n, w, s := cfg.requestsPerIP, cfg.window, AfterBurst(cfg.requestsPerIP, ip);
    RunFour(cfg, hash, s, Tick(w - 1), Begin(n, ip), Tick(w + 2), Cleanup(2 * w + 1));
  }

  /** The table and the request when its statements come to run. */
  function Delayed(cfg: Config, ip: string): State
    requires cfg.Valid()
  {
    State(2 * cfg.window + 1,
          AfterBurst(cfg.requestsPerIP, ip).reqs[cfg.requestsPerIP := Request(ip, cfg.window - 1, Begun)], {})
  }

  lemma DelayedFinishes(cfg: Config, ip: string)
    requires cfg.Valid() && cfg.window == SECOND
    ensures Within(cfg, Finish(cfg, Delayed(cfg, ip), cfg.requestsPerIP), ip, cfg.window - 1)
         == Below(cfg.requestsPerIP + 1)
  {
    assert Visible(Delayed(cfg, ip), ip, -1) == {};
  }

  lemma DelayedRuns(cfg: Config, hash: string -> int, ip: string)
    requires cfg.Valid() && cfg.window == SECOND
    ensures var n := cfg.requestsPerIP;
      Run(cfg, hash, Burst(n, ip) + (Delay(cfg, ip) + Statements(n))) == Finish(cfg, Delayed(cfg, ip), n)
  {
    var n := cfg.requestsPerIP;
    BurstFits(cfg, hash, n, ip);
    RunConcat(cfg, hash, INITIAL, Burst(n, ip), Delay(cfg, ip) + Statements(n));
    RunConcat(cfg, hash, AfterBurst(n, ip), Delay(cfg, ip), Statements(n));
    DelayRuns(cfg, hash, ip);
    StatementsRun(cfg, hash, Delayed(cfg, ip), n);
  }

  lemma OneSecondWindowFails(cfg: Config, hash: string -> int, ip: string)
    requires cfg.Valid() && cfg.window == SECOND
    ensures var n := cfg.requestsPerIP;
      !Safe(cfg, Run(cfg, hash, Burst(n, ip) + (Delay(cfg, ip) + Statements(n))))
  {
    DelayedRuns(cfg, hash, ip);
    DelayedFinishes(cfg, ip);
    assert |Within(cfg, Finish(cfg, Delayed(cfg, ip), cfg.requestsPerIP), ip, cfg.window - 1)| > cfg.requestsPerIP;
  }
}
