/** What the reconciliations of live chat do to the rows of vods, and when one statement has to wait for another
    transaction (backend/chat/auto.go:119-155). */
module ChatVods {
  import opened Common
  import opened Chat

  // ---- Locks on rows of vods ---------------------------------------------------------------

  ghost predicate Apart(tx: Tx, other: Tx) {
    forall id :: !(tx.HoldsVod(id) && other.HoldsVod(id))
  }

  /** No row of vods has been written or deleted by two open transactions. */
  ghost predicate VodsExclusive(s: State) {
    forall u <- s.txs, v <- s.txs | u != v :: Apart(s.txs[u], s.txs[v])
  }

  /** What an open transaction has written to vods agrees with what is committed there. */
  ghost predicate VodsFit(dates: string -> int, db: Db, tx: Tx) {
    && (forall id <- tx.vods :: tx.vods[id] == VodRow(tx.channel, DateOf(dates, id)))
    && (forall id <- tx.vods | id in db.vods :: db.vods[id] == tx.vods[id])
    && (tx.deletes ==> Live(tx.start) in db.vods && db.vods[Live(tx.start)].channel == tx.channel)
  }

  ghost predicate VodInv(dates: string -> int, s: State) {
    && VodsExclusive(s)
    && forall u <- s.txs :: VodsFit(dates, s.db, s.txs[u])
  }

  lemma AddVodKeepsVods(dates: string -> int, s: State, id: VodId, row: VodRow)
    requires VodInv(dates, s)
    ensures VodInv(dates, AddVod(s, id, row))
  {
    var s' := AddVod(s, id, row);
    forall u <- s'.txs ensures VodsFit(dates, s'.db, s'.txs[u]) {
      assert VodsFit(dates, s.db, s.txs[u]);
      assert s' != s ==> !s.txs[u].HoldsVod(id);
    }
  }

  /** A statement that writes a row of vods writes its target, as it should be. */
  lemma StatementFits(dates: string -> int, db: Db, tx: Tx, tx': Tx)
    requires Statement(dates, db, tx) == Some(tx') && VodsOk(dates, db.vods) && VodsFit(dates, db, tx)
    ensures VodsFit(dates, db, tx')
  {
    if tx.stage.Begun? || tx.stage.Ensured? {
      InsertFits(dates, db, tx, tx');
    }
  }

  lemma InsertFits(dates: string -> int, db: Db, tx: Tx, tx': Tx)
    requires Statement(dates, db, tx) == Some(tx') && VodsOk(dates, db.vods) && VodsFit(dates, db, tx)
    requires tx.stage.Begun? || tx.stage.Ensured?
    ensures VodsFit(dates, db, tx')
  {
    var row := VodRow(tx.channel, dates(tx.candidate));
    assert tx'.vods == tx.vods || tx'.vods == tx.vods[Real(tx.candidate) := row];
  }

  lemma StatementHoldsTarget(dates: string -> int, db: Db, tx: Tx, tx': Tx, id: VodId)
    requires Statement(dates, db, tx) == Some(tx') && (tx.deletes ==> tx.stage.Deleted?)
    ensures tx'.HoldsVod(id) ==> tx.HoldsVod(id) || Target(db, tx) == Some(id)
  {
  }

  lemma NextStaysApart(dates: string -> int, s: State, t: nat, tx': Tx, u: nat)
    requires VodsExclusive(s) && t in s.txs && u in s.txs && u != t
    requires Statement(dates, s.db, s.txs[t]) == Some(tx') && (s.txs[t].deletes ==> s.txs[t].stage.Deleted?)
    requires Target(s.db, s.txs[t]).Some? ==> VodFree(s, Target(s.db, s.txs[t]).value, t)
    ensures Apart(tx', s.txs[u]) && Apart(s.txs[u], tx')
  {
    assert Apart(s.txs[t], s.txs[u]);
    forall id ensures !(tx'.HoldsVod(id) && s.txs[u].HoldsVod(id)) {
      StatementHoldsTarget(dates, s.db, s.txs[t], tx', id);
    }
  }

  lemma RunsKeepVods(dates: string -> int, s: State, t: nat, tx': Tx)
    requires Inv(dates, s) && VodInv(dates, s) && t in s.txs && Statement(dates, s.db, s.txs[t]) == Some(tx')
    requires Target(s.db, s.txs[t]).Some? ==> VodFree(s, Target(s.db, s.txs[t]).value, t)
    ensures VodInv(dates, s.(txs := s.txs[t := tx']))
  {
    assert TxInv(dates, s.db, s.txs[t]);
    StatementFits(dates, s.db, s.txs[t], tx');
    forall u <- s.txs | u != t ensures Apart(tx', s.txs[u]) && Apart(s.txs[u], tx') {
      NextStaysApart(dates, s, t, tx', u);
    }
  }

  lemma NextKeepsVods(dates: string -> int, s: State, t: nat)
    requires Inv(dates, s) && VodInv(dates, s)
    ensures VodInv(dates, Apply(dates, s, Next(t)))
  {
    if t in s.txs && (Target(s.db, s.txs[t]).Some? ==> VodFree(s, Target(s.db, s.txs[t]).value, t)) {
      var r := Statement(dates, s.db, s.txs[t]);
      if r.Some? {
        RunsKeepVods(dates, s, t, r.value);
      } else {
        DropKeepsVods(dates, s, t);
      }
    }
  }

  lemma DropKeepsVods(dates: string -> int, s: State, t: nat)
    requires VodInv(dates, s)
    ensures VodInv(dates, s.(txs := s.txs - {t}))
  {
  }

  lemma CommitKeepsVods(dates: string -> int, s: State, t: nat)
    requires Inv(dates, s) && VodInv(dates, s) && t in s.txs
    ensures VodInv(dates, Apply(dates, s, Commit(t)))
  {
    var s' := Apply(dates, s, Commit(t));
    var tx := s.txs[t];
    assert TxInv(dates, s.db, tx);
    forall u <- s'.txs ensures VodsFit(dates, s'.db, s'.txs[u]) {
      assert VodsFit(dates, s.db, s.txs[u]);
      if u != t {
        CommitKeepsFit(dates, s, t, u);
      }
    }
  }

  lemma CommitKeepsFit(dates: string -> int, s: State, t: nat, u: nat)
    requires VodsExclusive(s) && t in s.txs && u in s.txs && u != t && VodsFit(dates, s.db, s.txs[u])
    requires forall id <- s.txs[u].vods :: id.Real?
    ensures VodsFit(dates, Committed(s.db, s.txs[t]), s.txs[u])
  {
    var tx, other := s.txs[t], s.txs[u];
    assert Apart(tx, other);
    forall id <- other.vods ensures id !in tx.vods {
      assert other.HoldsVod(id);
    }
    if other.deletes {
      assert other.HoldsVod(Live(other.start)) && !tx.HoldsVod(Live(other.start));
    }
  }

  lemma NotedHoldsTheSame(tx: Tx, key: nat, m: Msg)
    ensures var tx' := Noted(tx, key, m);
      tx'.vods == tx.vods && tx'.deletes == tx.deletes && tx'.start == tx.start && tx'.channel == tx.channel
  {
  }

  lemma RecordKeepsVods(dates: string -> int, s: State, key: nat, m: Msg)
    requires VodInv(dates, s)
    ensures VodInv(dates, RecordMsg(s, key, m))
  {
    var s' := RecordMsg(s, key, m);
    forall u <- s'.txs ensures VodsFit(dates, s'.db, s'.txs[u]) {
      assert VodsFit(dates, s.db, s.txs[u]);
      NotedHoldsTheSame(s.txs[u], key, m);
    }
    forall u <- s'.txs, v <- s'.txs | u != v ensures Apart(s'.txs[u], s'.txs[v]) {
      NotedHoldsTheSame(s.txs[u], key, m);
      NotedHoldsTheSame(s.txs[v], key, m);
      StaysApart(s.txs[u], s.txs[v], s'.txs[u], s'.txs[v]);
    }
  }

  lemma StaysApart(tx: Tx, other: Tx, tx': Tx, other': Tx)
    requires Apart(tx, other)
    requires tx'.vods == tx.vods && tx'.deletes == tx.deletes && tx'.start == tx.start
    requires other'.vods == other.vods && other'.deletes == other.deletes && other'.start == other.start
    ensures Apart(tx', other')
  {
    forall id ensures !(tx'.HoldsVod(id) && other'.HoldsVod(id)) {
      assert !(tx.HoldsVod(id) && other.HoldsVod(id));
    }
  }

  lemma BeginKeepsVods(dates: string -> int, s: State, t: nat, tx: Tx)
    requires VodInv(dates, s) && tx.vods == map[] && !tx.deletes
    ensures VodInv(dates, s.(txs := s.txs[t := tx]))
  {
    forall u <- s.txs ensures Apart(tx, s.txs[u]) && Apart(s.txs[u], tx) {}
  }

  lemma VisitKeepsVods(dates: string -> int, s: State, t: nat, k: nat)
    requires VodInv(dates, s) && t in s.txs && k in s.db.msgs
    ensures VodInv(dates, s.(txs := s.txs[t := Visited(dates, s.db, s.txs[t], k)]))
  {
    var tx, tx' := s.txs[t], Visited(dates, s.db, s.txs[t], k);
    assert VodsFit(dates, s.db, tx);
    forall u <- s.txs | u != t ensures Apart(tx', s.txs[u]) && Apart(s.txs[u], tx') {
      StaysApart(tx, s.txs[u], tx', s.txs[u]);
      StaysApart(s.txs[u], tx, s.txs[u], tx');
    }
  }

  lemma AddStepKeepsVods(dates: string -> int, s: State, step: Step, s': State)
    requires VodInv(dates, s) && (step.GoLive? || step.Discover?) && s' == Apply(dates, s, step)
    ensures VodInv(dates, s')
  {
    if step.GoLive? {
      AddVodKeepsVods(dates, s, Live(step.start), VodRow(step.channel, step.start));
    } else {
      AddVodKeepsVods(dates, s, Real(step.id), VodRow(step.channel, dates(step.id)));
    }
  }

  lemma RecordStepKeepsVods(dates: string -> int, s: State, step: Step, s': State)
    requires VodInv(dates, s) && step.Record? && s' == Apply(dates, s, step)
    ensures VodInv(dates, s')
  {
    RecordKeepsVods(dates, s, step.key, Msg(step.channel, Live(step.start), step.abs, step.abs - step.start));
  }

  lemma OwnStepKeepsVods(dates: string -> int, s: State, step: Step, s': State)
    requires VodInv(dates, s) && (step.Begin? || step.Visit? || step.Rollback?) && s' == Apply(dates, s, step)
    ensures VodInv(dates, s')
  {
    if s' != s {
      match step
      case Begin(t, channel, start, candidate) => BeginKeepsVods(dates, s, t, Opened(channel, start, candidate));
      case Visit(t, k) => VisitKeepsVods(dates, s, t, k);
      case Rollback(t) => DropKeepsVods(dates, s, t);
    }
  }

  lemma StepKeepsVods(dates: string -> int, s: State, step: Step, s': State)
    requires Inv(dates, s) && VodInv(dates, s) && s' == Apply(dates, s, step)
    ensures VodInv(dates, s')
  {
    if step.GoLive? || step.Discover? {
      AddStepKeepsVods(dates, s, step, s');
    } else if step.Record? {
      RecordStepKeepsVods(dates, s, step, s');
    } else if step.Next? {
      NextKeepsVods(dates, s, step.t);
    } else if step.Commit? {
      if step.t in s.txs {
        CommitKeepsVods(dates, s, step.t);
      }
    } else {
      OwnStepKeepsVods(dates, s, step, s');
    }
  }

  lemma {:induction false} RunKeepsVods(dates: string -> int, steps: seq<Step>)
    ensures VodInv(dates, Run(dates, steps))
  {
    if steps != [] {
      var front := steps[..|steps| - 1];
      RunKeepsVods(dates, front);
      RunKeepsInv(dates, front);
      StepKeepsVods(dates, Run(dates, front), steps[|steps| - 1], Run(dates, steps));
    }
  }

  /** However many reconciliations are open, no row of vods is written by two of them, and no placeholder deleted. */
  lemma NoVodIsWrittenTwice(dates: string -> int, steps: seq<Step>, s: State, t: nat, u: nat)
    requires s == Run(dates, steps) && t in s.txs && u in s.txs && t != u
    ensures s.txs[t].vods.Keys !! s.txs[u].vods.Keys
    ensures !(s.txs[t].deletes && s.txs[u].deletes && s.txs[t].start == s.txs[u].start)
  {
    RunKeepsVods(dates, steps);
    assert Apart(s.txs[t], s.txs[u]);
    forall id | id in s.txs[t].vods && id in s.txs[u].vods ensures false {
      assert s.txs[t].HoldsVod(id) && s.txs[u].HoldsVod(id);
    }
    if s.txs[t].deletes && s.txs[u].deletes && s.txs[t].start == s.txs[u].start {
      assert s.txs[t].HoldsVod(Live(s.txs[t].start)) && s.txs[u].HoldsVod(Live(s.txs[t].start));
    }
  }

  // ---- What becomes of the rows ------------------------------------------------------------

  /** What a commit leaves of the table: the real VOD is there, its own placeholder is gone if the transaction has
      deleted it, and everything else is as it was. */
  lemma CommitSetsVods(dates: string -> int, s: State, t: nat)
    requires Inv(dates, s) && VodInv(dates, s) && t in s.txs && s.txs[t].stage.Deleted?
    ensures var tx, vods := s.txs[t], s.db.vods;
      var vods' := Apply(dates, s, Commit(t)).db.vods;
      && vods'.Keys == vods.Keys + {Real(tx.candidate)} - (if tx.deletes then {Live(tx.start)} else {})
      && (forall id <- vods' | id in vods :: vods'[id] == vods[id])
      && (Real(tx.candidate) !in vods ==> vods'[Real(tx.candidate)] == VodRow(tx.channel, dates(tx.candidate)))
      && (tx.deletes ==> Live(tx.start) in vods && vods[Live(tx.start)].channel == tx.channel)
  {
    assert TxInv(dates, s.db, s.txs[t]) && VodsFit(dates, s.db, s.txs[t]);
  }

  /** A row of vods never changes; only a placeholder can go, and only by the commit of a reconciliation of its own
      channel that has deleted it. */
  lemma VodGoesIff(dates: string -> int, s: State, step: Step, id: VodId)
    requires Inv(dates, s) && VodInv(dates, s) && id in s.db.vods
    ensures var s' := Apply(dates, s, step);
      && (id in s'.db.vods ==> s'.db.vods[id] == s.db.vods[id])
      && (id !in s'.db.vods <==>
            step.Commit? && step.t in s.txs && s.txs[step.t].stage.Deleted? && s.txs[step.t].deletes
            && id == Live(s.txs[step.t].start))
      && (id !in s'.db.vods ==> s.db.vods[id].channel == s.txs[step.t].channel)
  {
    if step.Commit? && step.t in s.txs && s.txs[step.t].stage.Deleted? {
      assert TxInv(dates, s.db, s.txs[step.t]);
      CommitSetsVods(dates, s, step.t);
    }
  }

  /** Between any two points of a run the row of a published VOD stays as it is. */
  lemma {:induction false} PublishedVodsStay(dates: string -> int, steps: seq<Step>, n: nat, id: VodId)
    requires n <= |steps| && id.Real? && id in Run(dates, steps[..n]).db.vods
    ensures id in Run(dates, steps).db.vods && Run(dates, steps).db.vods[id] == Run(dates, steps[..n]).db.vods[id]
  {
    if n == |steps| {
      assert steps[..n] == steps;
    } else {
      var front := steps[..|steps| - 1];
      assert front[..n] == steps[..n];
      PublishedVodsStay(dates, front, n, id);
      RunKeepsInv(dates, front);
      RunKeepsVods(dates, front);
      VodGoesIff(dates, Run(dates, front), steps[|steps| - 1], id);
    }
  }

  // ---- Who waits for whom ------------------------------------------------------------------

  /** Another open transaction has written the row of this transaction's real VOD. */
  ghost predicate CandidateTaken(s: State, t: nat, candidate: string) {
    exists u <- s.txs :: u != t && Real(candidate) in s.txs[u].vods
  }

  ghost predicate PlaceholderTaken(s: State, t: nat, start: int) {
    exists u <- s.txs :: u != t && s.txs[u].deletes && s.txs[u].start == start
  }

  /** The next statement has to wait: its INSERT for another one's of the same row, its UPDATE of the VOD's row for
      whoever has written it, and its DELETE for another one's of the placeholder. */
  ghost predicate MustWait(s: State, t: nat)
    requires t in s.txs
  {
    var tx := s.txs[t];
    match tx.stage
    case Begun => Real(tx.candidate) !in s.db.vods && CandidateTaken(s, t, tx.candidate)
    case Ensured =>
      && Real(tx.candidate) in s.db.vods && s.db.vods[Real(tx.candidate)].channel == tx.channel
      && CandidateTaken(s, t, tx.candidate)
    case Moved =>
      && Live(tx.start) in s.db.vods && s.db.vods[Live(tx.start)].channel == tx.channel
      && PlaceholderTaken(s, t, tx.start)
    case _ => false
  }

  lemma HeldIff(dates: string -> int, s: State, t: nat, tx: Tx)
    requires Inv(dates, s) && VodInv(dates, s)
    ensures !VodFree(s, Real(tx.candidate), t) <==> CandidateTaken(s, t, tx.candidate)
    ensures !VodFree(s, Live(tx.start), t) <==> PlaceholderTaken(s, t, tx.start)
  {
    forall u <- s.txs ensures s.txs[u].HoldsVod(Live(tx.start)) <==> s.txs[u].deletes && s.txs[u].start == tx.start {
      assert TxInv(dates, s.db, s.txs[u]);
    }
  }

  /** A transaction that has inserted the VOD's row need not wait to update it. */
  lemma OwnRowIsFree(dates: string -> int, s: State, t: nat)
    requires Inv(dates, s) && VodInv(dates, s) && t in s.txs && !s.txs[t].stage.Begun?
    requires Real(s.txs[t].candidate) !in s.db.vods
    ensures !CandidateTaken(s, t, s.txs[t].candidate)
  {
    var id := Real(s.txs[t].candidate);
    assert TxInv(dates, s.db, s.txs[t]);
    forall u <- s.txs | u != t ensures id !in s.txs[u].vods {
      assert Apart(s.txs[t], s.txs[u]) && s.txs[t].HoldsVod(id);
    }
  }

  /** The row that the next statement writes is the one that it has to wait for. */
  lemma TargetHeldIff(dates: string -> int, s: State, t: nat)
    requires Inv(dates, s) && VodInv(dates, s) && t in s.txs
    ensures MustWait(s, t) <==>
      Target(s.db, s.txs[t]).Some? && !VodFree(s, Target(s.db, s.txs[t]).value, t)
  {
    HeldIff(dates, s, t, s.txs[t]);
    assert TxInv(dates, s.db, s.txs[t]);
    if s.txs[t].stage.Ensured? && Real(s.txs[t].candidate) !in s.db.vods {
      OwnRowIsFree(dates, s, t);
    }
    if s.txs[t].stage.Ensured? {
      assert VodsFit(dates, s.db, s.txs[t]);
    }
  }

  /** A statement waits exactly then, and otherwise it runs; if it is refused the transaction is gone. */
  lemma NextWaitsIff(dates: string -> int, s: State, t: nat)
    requires Inv(dates, s) && VodInv(dates, s) && t in s.txs
    ensures MustWait(s, t) ==> Apply(dates, s, Next(t)) == s
    ensures !MustWait(s, t) ==>
      Apply(dates, s, Next(t)) == match Statement(dates, s.db, s.txs[t])
                                  case None => s.(txs := s.txs - {t})
                                  case Some(tx) => s.(txs := s.txs[t := tx])
  {
    TargetHeldIff(dates, s, t);
  }

  /** An UPDATE waits at a row exactly if another open transaction has written it. */
  lemma VisitWaitsIff(dates: string -> int, s: State, t: nat, k: nat)
    requires Inv(dates, s) && t in s.txs && k in s.txs[t].todo
    ensures k in s.db.msgs
    ensures if exists u <- s.txs :: u != t && k in s.txs[u].msgs then Apply(dates, s, Visit(t, k)) == s
            else Apply(dates, s, Visit(t, k)) == s.(txs := s.txs[t := Visited(dates, s.db, s.txs[t], k)])
  {
    assert TxInv(dates, s.db, s.txs[t]);
  }

  /** A row visited is done with, also if another reconciliation has moved it meanwhile; then nothing is written. */
  lemma VisitedIsDone(dates: string -> int, db: Db, tx: Tx, k: nat)
    requires k in db.msgs
    ensures Visited(dates, db, tx, k).todo == tx.todo - {k}
    ensures Seen(db, tx, k).channel != tx.channel || Seen(db, tx, k).vodId != Live(tx.start) ==>
      Visited(dates, db, tx, k) == tx.(todo := tx.todo - {k})
  {
  }

  /** An INSERT into vods by somebody else does nothing if the row is there; a new one takes effect, unless an open
      transaction has inserted it. A stream's row bears the instant it was seen to start. */
  lemma InsertTakesEffectIff(dates: string -> int, s: State, channel: string, start: int, name: string)
    requires Inv(dates, s) && VodInv(dates, s)
    ensures Apply(dates, s, GoLive(channel, start)) ==
      if Live(start) in s.db.vods then s
      else s.(db := s.db.(vods := s.db.vods[Live(start) := VodRow(channel, start)]))
    ensures Apply(dates, s, Discover(channel, name)) ==
      if Real(name) in s.db.vods || exists u <- s.txs :: Real(name) in s.txs[u].vods then s
      else s.(db := s.db.(vods := s.db.vods[Real(name) := VodRow(channel, dates(name))]))
  {
    forall u <- s.txs ensures s.txs[u].HoldsVod(Live(start)) ==> Live(start) in s.db.vods {
      assert TxInv(dates, s.db, s.txs[u]) && VodsFit(dates, s.db, s.txs[u]);
    }
  }

  /** A message is recorded, timed from the start of the stream, exactly if its placeholder is there and no open
      transaction has deleted it. */
  lemma RecordTakesEffectIff(dates: string -> int, s: State, key: nat, channel: string, start: int, abs: int)
    requires key !in s.db.msgs
    ensures var s' := Apply(dates, s, Record(key, channel, start, abs));
      var deleted := exists u <- s.txs :: s.txs[u].deletes && s.txs[u].start == start;
      && s'.db.vods == s.db.vods && s'.skewed == s.skewed && s'.txs.Keys == s.txs.Keys
      && s'.db.msgs == if Live(start) in s.db.vods && !deleted
                       then s.db.msgs[key := Msg(channel, Live(start), abs, abs - start)] else s.db.msgs
  {
  }

  /** A rollback undoes whatever its transaction has done, and nothing else. */
  lemma RollbackUndoes(dates: string -> int, s: State, t: nat)
    ensures Apply(dates, s, Rollback(t)) == State(s.db, s.txs - {t}, s.skewed)
  {
  }
}
