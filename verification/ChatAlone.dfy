/** A reconciliation that meets nobody else does what the transaction of backend/chat/auto.go:119-155 is for. */
module ChatAlone {
  import opened Common
  import opened Chat

  /** The messages recorded by the channel under its placeholder. */
  function Selected(db: Db, tx: Tx): set<nat> {
    set k <- db.msgs | db.msgs[k].channel == tx.channel && db.msgs[k].vodId == Live(tx.start)
  }

  /** The placeholder's row is the channel's own. */
  predicate OwnsPlaceholder(db: Db, tx: Tx) {
    Live(tx.start) in db.vods && db.vods[Live(tx.start)].channel == tx.channel
  }

  function MovedMsg(dates: string -> int, tx: Tx, m: Msg): Msg {
    Msg(m.channel, Real(tx.candidate), m.abs, m.rel - (dates(tx.candidate) - tx.start))
  }

  /** What the whole transaction is for: the real VOD has a row, the channel's messages are there and timed from its
      start, and the placeholder is gone. */
  function Reconciled(dates: string -> int, db: Db, tx: Tx): Db {
    var vods := if Real(tx.candidate) in db.vods then db.vods
                else db.vods[Real(tx.candidate) := VodRow(tx.channel, dates(tx.candidate))];
    Db(vods - (if OwnsPlaceholder(db, tx) then {Live(tx.start)} else {}),
       map k <- db.msgs :: if k in Selected(db, tx) then MovedMsg(dates, tx, db.msgs[k]) else db.msgs[k])
  }

  /** Another channel's message names the placeholder that is to be deleted. */
  predicate Refused(db: Db, tx: Tx) {
    OwnsPlaceholder(db, tx)
    && exists k <- db.msgs :: db.msgs[k].vodId == Live(tx.start) && db.msgs[k].channel != tx.channel
  }

  // ---- Runs --------------------------------------------------------------------------------

  /** The state with a single open transaction. */
  function Only(s: State, tx: Tx): State {
    s.(txs := map[0 := tx])
  }

  lemma OneMore(dates: string -> int, steps: seq<Step>, step: Step)
    ensures Run(dates, steps + [step]) == Apply(dates, Run(dates, steps), step)
  {
    assert (steps + [step])[..|steps|] == steps;
  }

  lemma BeginOnly(dates: string -> int, front: seq<Step>, s: State, tx: Tx)
    requires s == Run(dates, front) && s.txs == map[] && tx == Opened(tx.channel, tx.start, tx.candidate)
    ensures Run(dates, front + [Begin(0, tx.channel, tx.start, tx.candidate)]) == Only(s, tx)
  {
    OneMore(dates, front, Begin(0, tx.channel, tx.start, tx.candidate));
  }

  /** Nobody makes it wait. */
  lemma NextOnly(dates: string -> int, front: seq<Step>, s: State, tx: Tx, tx': Tx)
    requires Run(dates, front) == Only(s, tx) && Statement(dates, s.db, tx) == Some(tx')
    ensures Run(dates, front + [Next(0)]) == Only(s, tx')
  {
    OneMore(dates, front, Next(0));
    assert forall id :: VodFree(Only(s, tx), id, 0);
    assert map[0 := tx][0 := tx'] == map[0 := tx'];
  }

  lemma VisitOnly(dates: string -> int, front: seq<Step>, s: State, tx: Tx, k: nat, tx': Tx)
    requires Run(dates, front) == Only(s, tx) && k in tx.todo && k in s.db.msgs
    requires tx' == Visited(dates, s.db, tx, k)
    ensures Run(dates, front + [Visit(0, k)]) == Only(s, tx')
  {
    OneMore(dates, front, Visit(0, k));
    assert MsgFree(Only(s, tx), k, 0);
    assert map[0 := tx][0 := tx'] == map[0 := tx'];
  }

  // ---- The row of the VOD ------------------------------------------------------------------

  /** After its INSERT and its UPDATE of the row: it has written the row, unless that is another channel's. */
  function Prepared(dates: string -> int, db: Db, tx: Tx): Tx {
    var id := Real(tx.candidate);
    tx.(stage := Refreshed,
        vods := if id in db.vods && db.vods[id].channel != tx.channel then map[]
                else map[id := VodRow(tx.channel, dates(tx.candidate))])
  }

  lemma PreparedRuns(dates: string -> int, front: seq<Step>, s: State, tx: Tx)
    requires Run(dates, front) == Only(s, tx) && tx == Opened(tx.channel, tx.start, tx.candidate)
    ensures Run(dates, front + [Next(0)] + [Next(0)]) == Only(s, Prepared(dates, s.db, tx))
  {
    var id, row := Real(tx.candidate), VodRow(tx.channel, dates(tx.candidate));
    var tx1 := tx.(stage := Ensured, vods := if id in s.db.vods then map[] else map[id := row]);
    assert map[][id := row] == map[id := row] && map[id := row][id := row] == map[id := row];
    NextOnly(dates, front, s, tx, tx1);
    NextOnly(dates, front + [Next(0)], s, tx1, Prepared(dates, s.db, tx));
  }

  // ---- The shift ---------------------------------------------------------------------------

  function ShiftedMsg(dates: string -> int, tx: Tx, m: Msg): Msg {
    m.(rel := m.rel - (dates(tx.candidate) - tx.start))
  }

  /** In the middle of the shift, with these rows done. */
  function Shifts(dates: string -> int, db: Db, tx: Tx, done: set<nat>): Tx {
    tx.(stage := Shifting, todo := Selected(db, tx) - done, shifted := done,
        msgs := map k <- done | k in db.msgs :: ShiftedMsg(dates, tx, db.msgs[k]))
  }

  lemma ShiftOneMore(dates: string -> int, db: Db, tx: Tx, done: set<nat>, k: nat)
    requires tx.stage.Refreshed? && k in Selected(db, tx) - done
    ensures Visited(dates, db, Shifts(dates, db, tx, done), k) == Shifts(dates, db, tx, done + {k})
  {
    var a, b := Visited(dates, db, Shifts(dates, db, tx, done), k), Shifts(dates, db, tx, done + {k});
    assert a.todo == b.todo;
    assert a.msgs == b.msgs;
  }

  lemma NothingLeft(all: set<nat>, done: set<nat>)
    requires done <= all && all - done == {}
    ensures done == all
  {
    assert all == done + (all - done);
  }

  lemma {:induction false} ShiftRuns(dates: string -> int, front: seq<Step>, s: State, tx: Tx, done: set<nat>)
    returns (steps: seq<Step>)
    requires tx.stage.Refreshed? && done <= Selected(s.db, tx)
    requires Run(dates, front) == Only(s, Shifts(dates, s.db, tx, done))
    ensures Run(dates, steps) == Only(s, Shifts(dates, s.db, tx, Selected(s.db, tx)))
    decreases Selected(s.db, tx) - done
  {
    if Selected(s.db, tx) - done == {} {
      NothingLeft(Selected(s.db, tx), done);
      steps := front;
    } else {
      var k :| k in Selected(s.db, tx) - done;
      ShiftOneMore(dates, s.db, tx, done, k);
      VisitOnly(dates, front, s, Shifts(dates, s.db, tx, done), k, Shifts(dates, s.db, tx, done + {k}));
      steps := ShiftRuns(dates, front + [Visit(0, k)], s, tx, done + {k});
    }
  }

  /** After the shift, which has nothing to do if the VOD starts with the stream. */
  function AllShifted(dates: string -> int, db: Db, tx: Tx): Tx {
    if dates(tx.candidate) == tx.start then tx.(stage := Stage.Shifted)
    else Shifts(dates, db, tx, Selected(db, tx)).(stage := Stage.Shifted, todo := {})
  }

  lemma TakesSelected(dates: string -> int, db: Db, tx: Tx)
    requires tx.msgs == map[]
    ensures Taken(db, tx) == Selected(db, tx)
  {
  }

  lemma AllShiftedRuns(dates: string -> int, front: seq<Step>, s: State, tx: Tx) returns (steps: seq<Step>)
    requires tx.stage.Refreshed? && tx.msgs == map[] && tx.shifted == {} && Run(dates, front) == Only(s, tx)
    ensures Run(dates, steps) == Only(s, AllShifted(dates, s.db, tx))
  {
    if dates(tx.candidate) == tx.start {
      NextOnly(dates, front, s, tx, AllShifted(dates, s.db, tx));
      steps := front + [Next(0)];
    } else {
      TakesSelected(dates, s.db, tx);
      assert Selected(s.db, tx) - {} == Selected(s.db, tx);
      assert Statement(dates, s.db, tx) == Some(Shifts(dates, s.db, tx, {}));
      NextOnly(dates, front, s, tx, Shifts(dates, s.db, tx, {}));
      steps := ShiftRuns(dates, front + [Next(0)], s, tx, {});
      var done := Shifts(dates, s.db, tx, Selected(s.db, tx));
      assert done.todo == {};
      NextOnly(dates, steps, s, done, AllShifted(dates, s.db, tx));
      steps := steps + [Next(0)];
    }
  }

  // ---- The move ----------------------------------------------------------------------------

  /** In the middle of the move, with these rows done; `tx` is the transaction before it. */
  function Moves(dates: string -> int, db: Db, tx: Tx, done: set<nat>): Tx {
    tx.(stage := Moving, todo := Selected(db, tx) - done,
        msgs := map k <- db.msgs | k in done || k in tx.msgs ::
          if k in done then MovedMsg(dates, tx, db.msgs[k]) else tx.msgs[k])
  }

  /** What the move finds. */
  ghost predicate ReadyToMove(dates: string -> int, db: Db, tx: Tx) {
    && tx.msgs.Keys <= Selected(db, tx)
    && (forall k <- Selected(db, tx) :: Seen(db, tx, k) == ShiftedMsg(dates, tx, db.msgs[k]))
  }

  lemma ShiftedIsReady(dates: string -> int, db: Db, tx: Tx)
    requires tx.msgs == map[] && tx.shifted == {}
    ensures ReadyToMove(dates, db, AllShifted(dates, db, tx))
    ensures Selected(db, AllShifted(dates, db, tx)) == Selected(db, tx)
  {
  }

  lemma MoveOneMore(dates: string -> int, db: Db, tx: Tx, done: set<nat>, k: nat)
    requires ReadyToMove(dates, db, tx) && k in Selected(db, tx) - done
    ensures Visited(dates, db, Moves(dates, db, tx, done), k) == Moves(dates, db, tx, done + {k})
  {
    var now := Moves(dates, db, tx, done);
    var a, b := Visited(dates, db, now, k), Moves(dates, db, tx, done + {k});
    assert Seen(db, now, k) == ShiftedMsg(dates, tx, db.msgs[k]);
    assert a.todo == b.todo;
    MovedMsgs(dates, db, tx, done, k);
  }

  lemma MovedMsgs(dates: string -> int, db: Db, tx: Tx, done: set<nat>, k: nat)
    requires k in db.msgs
    ensures Moves(dates, db, tx, done).msgs[k := MovedMsg(dates, tx, db.msgs[k])]
         == Moves(dates, db, tx, done + {k}).msgs
  {
  }

  lemma {:induction false} MoveRuns(dates: string -> int, front: seq<Step>, s: State, tx: Tx, done: set<nat>)
    returns (steps: seq<Step>)
    requires ReadyToMove(dates, s.db, tx) && done <= Selected(s.db, tx)
    requires Run(dates, front) == Only(s, Moves(dates, s.db, tx, done))
    ensures Run(dates, steps) == Only(s, Moves(dates, s.db, tx, Selected(s.db, tx)))
    decreases Selected(s.db, tx) - done
  {
    if Selected(s.db, tx) - done == {} {
      NothingLeft(Selected(s.db, tx), done);
      steps := front;
    } else {
      var k :| k in Selected(s.db, tx) - done;
      MoveOneMore(dates, s.db, tx, done, k);
      VisitOnly(dates, front, s, Moves(dates, s.db, tx, done), k, Moves(dates, s.db, tx, done + {k}));
      steps := MoveRuns(dates, front + [Visit(0, k)], s, tx, done + {k});
    }
  }

  function AllMoved(dates: string -> int, db: Db, tx: Tx): Tx {
    Moves(dates, db, tx, Selected(db, tx)).(stage := Moved, todo := {})
  }

  lemma MoveStarts(dates: string -> int, db: Db, tx: Tx)
    requires tx.stage.Shifted? && ReadyToMove(dates, db, tx)
    ensures Statement(dates, db, tx) == Some(Moves(dates, db, tx, {}))
  {
    forall k <- db.msgs ensures tx.Selects(Seen(db, tx, k)) <==> k in Selected(db, tx) {}
    assert Taken(db, tx) == Selected(db, tx) - {};
    assert Moves(dates, db, tx, {}).msgs == tx.msgs;
  }

  lemma AllMovedRuns(dates: string -> int, front: seq<Step>, s: State, tx: Tx) returns (steps: seq<Step>)
    requires tx.stage.Shifted? && ReadyToMove(dates, s.db, tx) && Run(dates, front) == Only(s, tx)
    ensures Run(dates, steps) == Only(s, AllMoved(dates, s.db, tx))
  {
    MoveStarts(dates, s.db, tx);
    NextOnly(dates, front, s, tx, Moves(dates, s.db, tx, {}));
    steps := MoveRuns(dates, front + [Next(0)], s, tx, {});
    var done := Moves(dates, s.db, tx, Selected(s.db, tx));
    assert done.todo == {};
    NextOnly(dates, steps, s, done, AllMoved(dates, s.db, tx));
    steps := steps + [Next(0)];
  }

  // ---- The end -----------------------------------------------------------------------------

  lemma RefusedIffRefused(dates: string -> int, db: Db, tx: Tx)
    requires ReadyToMove(dates, db, tx)
    ensures DeleteRefused(db, AllMoved(dates, db, tx)) <==> Refused(db, tx)
  {
    var done := AllMoved(dates, db, tx);
    forall k <- db.msgs
      ensures Seen(db, done, k).vodId == Live(tx.start) <==>
        db.msgs[k].vodId == Live(tx.start) && db.msgs[k].channel != tx.channel
    {
    }
  }

  /** What the transaction has written to vods, for a VOD whose committed row has the right date. */
  ghost predicate VodsReady(dates: string -> int, db: Db, tx: Tx) {
    && (Real(tx.candidate) in db.vods ==> db.vods[Real(tx.candidate)].date == dates(tx.candidate))
    && tx.vods == Prepared(dates, db, tx).vods
  }

  lemma CommittedVods(dates: string -> int, db: Db, tx: Tx, tx': Tx)
    requires VodsReady(dates, db, tx) && tx' == tx.(msgs := tx'.msgs, deletes := OwnsPlaceholder(db, tx))
    ensures Committed(db, tx').vods == Reconciled(dates, db, tx).vods
  {
    var id := Real(tx.candidate);
    var row := VodRow(tx.channel, dates(tx.candidate));
    assert db.vods + tx.vods == if id in db.vods then db.vods else db.vods[id := row];
  }

  lemma CommittedMsgs(dates: string -> int, db: Db, tx: Tx)
    requires ReadyToMove(dates, db, tx)
    ensures db.msgs + AllMoved(dates, db, tx).msgs == Reconciled(dates, db, tx).msgs
  {
  }

  lemma CommittedIsReconciled(dates: string -> int, db: Db, tx: Tx, tx': Tx)
    requires ReadyToMove(dates, db, tx) && VodsReady(dates, db, tx)
    requires tx' == AllMoved(dates, db, tx).(stage := Deleted, deletes := OwnsPlaceholder(db, tx))
    ensures Committed(db, tx') == Reconciled(dates, db, tx)
  {
    CommittedVods(dates, db, tx, tx.(msgs := tx'.msgs, deletes := tx'.deletes));
    CommittedMsgs(dates, db, tx);
  }

  lemma NothingIsLate(dates: string -> int, db: Db, tx: Tx)
    requires tx.msgs == map[] && tx.shifted == {}
    ensures Late(dates, AllMoved(dates, db, AllShifted(dates, db, tx))) == {}
  {
  }

  lemma CommitOnly(dates: string -> int, front: seq<Step>, s: State, tx: Tx)
    requires Run(dates, front) == Only(s, tx) && s.txs == map[] && tx.stage.Deleted? && Late(dates, tx) == {}
    ensures Run(dates, front + [Commit(0)]) == State(Committed(s.db, tx), map[], s.skewed)
  {
    OneMore(dates, front, Commit(0));
    assert map[0 := tx] - {0} == map[];
    assert s.skewed + {} == s.skewed;
  }

  lemma RefusedOnly(dates: string -> int, front: seq<Step>, s: State, tx: Tx)
    requires Run(dates, front) == Only(s, tx) && s.txs == map[] && Statement(dates, s.db, tx).None?
    ensures Run(dates, front + [Next(0)]) == s
  {
    OneMore(dates, front, Next(0));
    assert forall id :: VodFree(Only(s, tx), id, 0);
    assert map[0 := tx] - {0} == map[];
  }

  lemma EndRuns(dates: string -> int, front: seq<Step>, s: State, tx: Tx) returns (steps: seq<Step>)
    requires s.txs == map[] && ReadyToMove(dates, s.db, tx) && VodsReady(dates, s.db, tx) && !tx.deletes
    requires Late(dates, AllMoved(dates, s.db, tx)) == {} && Run(dates, front) == Only(s, AllMoved(dates, s.db, tx))
    ensures Run(dates, steps) ==
      if Refused(s.db, tx) then s else State(Reconciled(dates, s.db, tx), map[], s.skewed)
  {
    var moved := AllMoved(dates, s.db, tx);
    RefusedIffRefused(dates, s.db, tx);
    if Refused(s.db, tx) {
      RefusedOnly(dates, front, s, moved);
      steps := front + [Next(0)];
    } else {
      var last := moved.(stage := Deleted, deletes := OwnsPlaceholder(s.db, tx));
      NextOnly(dates, front, s, moved, last);
      CommittedIsReconciled(dates, s.db, tx, last);
      CommitOnly(dates, front + [Next(0)], s, last);
      steps := front + [Next(0)] + [Commit(0)];
    }
  }

  /** The job is still the same one. */
  lemma SameJob(dates: string -> int, db: Db, tx: Tx, tx': Tx)
    requires tx'.channel == tx.channel && tx'.start == tx.start && tx'.candidate == tx.candidate
    ensures Reconciled(dates, db, tx') == Reconciled(dates, db, tx) && Refused(db, tx') == Refused(db, tx)
  {
    assert Selected(db, tx') == Selected(db, tx);
  }

  lemma PreparedIsReady(dates: string -> int, s: State, tx: Tx)
    requires DbInv(dates, s) && tx == Opened(tx.channel, tx.start, tx.candidate)
    ensures var tx' := AllShifted(dates, s.db, Prepared(dates, s.db, tx));
      && tx'.channel == tx.channel && tx'.start == tx.start && tx'.candidate == tx.candidate
      && VodsReady(dates, s.db, tx') && !tx'.deletes && tx'.stage.Shifted?
  {
  }

  lemma UpToTheMove(dates: string -> int, front: seq<Step>, s: State, tx: Tx) returns (steps: seq<Step>)
    requires s == Run(dates, front) && s.txs == map[] && tx == Opened(tx.channel, tx.start, tx.candidate)
    ensures Run(dates, steps) == Only(s, AllShifted(dates, s.db, Prepared(dates, s.db, tx)))
  {
    BeginOnly(dates, front, s, tx);
    steps := front + [Begin(0, tx.channel, tx.start, tx.candidate)];
    PreparedRuns(dates, steps, s, tx);
    steps := AllShiftedRuns(dates, steps + [Next(0)] + [Next(0)], s, Prepared(dates, s.db, tx));
  }

  lemma FromTheMove(dates: string -> int, front: seq<Step>, s: State, tx: Tx) returns (steps: seq<Step>)
    requires s.txs == map[] && tx.stage.Shifted? && ReadyToMove(dates, s.db, tx) && VodsReady(dates, s.db, tx)
    requires !tx.deletes && Late(dates, AllMoved(dates, s.db, tx)) == {} && Run(dates, front) == Only(s, tx)
    ensures Run(dates, steps) ==
      if Refused(s.db, tx) then s else State(Reconciled(dates, s.db, tx), map[], s.skewed)
  {
    steps := AllMovedRuns(dates, front, s, tx);
    steps := EndRuns(dates, steps, s, tx);
  }

  /** From whatever run without an open transaction, a reconciliation that meets no other one and no recording gets
      to its end and does exactly what it is for; or, exactly if another channel's message names its placeholder,
      it leaves everything as it was. */
  lemma AloneItReconciles(dates: string -> int, front: seq<Step>, s: State, tx: Tx) returns (steps: seq<Step>)
    requires s == Run(dates, front) && s.txs == map[] && tx == Opened(tx.channel, tx.start, tx.candidate)
    ensures Run(dates, steps) ==
      if Refused(s.db, tx) then s else State(Reconciled(dates, s.db, tx), map[], s.skewed)
  {
    RunKeepsInv(dates, front);
    var shifted := AllShifted(dates, s.db, Prepared(dates, s.db, tx));
    PreparedIsReady(dates, s, tx);
    ShiftedIsReady(dates, s.db, Prepared(dates, s.db, tx));
    NothingIsLate(dates, s.db, Prepared(dates, s.db, tx));
    SameJob(dates, s.db, tx, shifted);
    steps := UpToTheMove(dates, front, s, tx);
    steps := FromTheMove(dates, steps, s, shifted);
  }
}
