/** Live chat (backend/chat). Messages of a running stream are recorded under a placeholder VOD; once the
    real VOD is published a transaction shifts their relative times and moves them there. Any number of
    reconciliations may be open at once, of the same placeholder or of others, under PostgreSQL's default
    isolation: a statement sees the rows committed when it starts and those of its own transaction, its UPDATEs
    go row by row, a row that another open transaction has written makes them wait for its end, and then the
    row is looked at again. Times are in seconds. */
module Chat {
  import opened Common

  /** The id of a vods row: "live-<unix start>" for a placeholder, a Twitch id otherwise. */
  datatype VodId = Live(start: int) | Real(id: string)

  datatype VodRow = VodRow(channel: string, date: int)

  datatype Msg = Msg(channel: string, vodId: VodId, abs: int, rel: int)

  datatype Db = Db(vods: map<VodId, VodRow>, msgs: map<nat, Msg>)

  /** How far a reconciliation has come; in Shifting and Moving an UPDATE is under way. */
  datatype Stage = Begun | Ensured | Refreshed | Shifting | Shifted | Moving | Moved | Deleted {
    predicate BeforeShift() { Begun? || Ensured? || Refreshed? }
    predicate ShiftTaken() { Shifting? || Shifted? }
    predicate MoveTaken() { Moving? || Moved? || Deleted? }
  }

  /** A reconciliation of the placeholder Live(start). `vods` and `msgs` are the rows it has written, and
      `deletes` says that it has deleted the placeholder's row; `todo` are the messages that its UPDATE under
      way still has to visit. The rest is for the proofs: the messages it has shifted, and those recorded under
      the placeholder after the shift had taken its rows and before the move did (`gap`), or later (`after`). */
  datatype Tx = Tx(
    channel: string, start: int, candidate: string, stage: Stage,
    vods: map<VodId, VodRow>, deletes: bool, msgs: map<nat, Msg>, todo: set<nat>,
    shifted: set<nat>, gap: set<nat>, after: set<nat>
  ) {
    /** Both updates of chat_messages select the same rows. */
    predicate Selects(m: Msg) { m.channel == channel && m.vodId == Live(start) }

    /** It has written this row of vods, or deleted it. */
    predicate HoldsVod(id: VodId) { id in vods || (deletes && id == Live(start)) }
  }

  /** The committed database and the open transactions. `skewed` records the messages that a committed
      reconciliation moved without shifting them. */
  datatype State = State(db: Db, txs: map<nat, Tx>, skewed: set<nat>)

  const INITIAL := State(Db(map[], map[]), map[], {})

  datatype Step =
    | GoLive(channel: string, start: int)
    | Discover(channel: string, id: string)
    | Record(key: nat, channel: string, start: int, abs: int)
    | Begin(t: nat, channel: string, start: int, candidate: string)
    | Next(t: nat)          // a statement runs, or an UPDATE takes its rows, or is done with them
    | Visit(t: nat, k: nat) // the UPDATE under way comes to a row
    | Rollback(t: nat)      // on an error, a deadlock or a crash
    | Commit(t: nat)

  /** The date of a VOD; `dates` gives those of the real VODs. */
  function DateOf(dates: string -> int, id: VodId): int {
    match id
    case Live(start) => start
    case Real(name) => dates(name)
  }

  /** By how much the real VOD starts later than the stream was seen to start. */
  function Delta(dates: string -> int, tx: Tx): int {
    dates(tx.candidate) - tx.start
  }

  // ---- What a transaction sees -------------------------------------------------------------

  function SeenVods(db: Db, tx: Tx): map<VodId, VodRow> {
    (db.vods + tx.vods) - if tx.deletes then {Live(tx.start)} else {}
  }

  function Seen(db: Db, tx: Tx, k: nat): Msg
    requires k in db.msgs
  {
    if k in tx.msgs then tx.msgs[k] else db.msgs[k]
  }

  /** The rows that an UPDATE takes when it starts. */
  function Taken(db: Db, tx: Tx): set<nat> {
    set k <- db.msgs | tx.Selects(Seen(db, tx, k))
  }

  // ---- Statements --------------------------------------------------------------------------

  /** DELETE of a vods row is refused while messages refer to it; it matches only the channel's own row. */
  predicate DeleteMatches(db: Db, tx: Tx) {
    Live(tx.start) in db.vods && db.vods[Live(tx.start)].channel == tx.channel
  }

  predicate DeleteRefused(db: Db, tx: Tx) {
    DeleteMatches(db, tx) && exists k <- db.msgs :: Seen(db, tx, k).vodId == Live(tx.start)
  }

  /** The row of vods that the next statement writes. */
  function Target(db: Db, tx: Tx): Option<VodId> {
    var id := Real(tx.candidate);
    match tx.stage
    case Begun => if id in db.vods then None else Some(id)
    case Ensured =>
      if id in SeenVods(db, tx) && SeenVods(db, tx)[id].channel == tx.channel then Some(id) else None
    case Moved => if DeleteMatches(db, tx) then Some(Live(tx.start)) else None
    case _ => None
  }

  /** The next statement, or the next part of an UPDATE; a refused DELETE aborts. */
  function Statement(dates: string -> int, db: Db, tx: Tx): Option<Tx> {
    var id := Real(tx.candidate);
    match tx.stage
    case Begun =>
      if id in db.vods then Some(tx.(stage := Ensured))
      else Some(tx.(stage := Ensured, vods := tx.vods[id := VodRow(tx.channel, dates(tx.candidate))]))
    case Ensured =>
      if Target(db, tx).None? then Some(tx.(stage := Refreshed))
      else Some(tx.(stage := Refreshed, vods := tx.vods[id := VodRow(tx.channel, dates(tx.candidate))]))
    case Refreshed =>
      if Delta(dates, tx) == 0 then Some(tx.(stage := Shifted)) else Some(tx.(stage := Shifting, todo := Taken(db, tx)))
    case Shifting => Some(if tx.todo == {} then tx.(stage := Shifted) else tx)
    case Shifted => Some(tx.(stage := Moving, todo := Taken(db, tx)))
    case Moving => Some(if tx.todo == {} then tx.(stage := Moved) else tx)
    case Moved =>
      if DeleteRefused(db, tx) then None else Some(tx.(stage := Deleted, deletes := DeleteMatches(db, tx)))
    case Deleted => Some(tx)
  }

  /** The UPDATE under way comes to row k, which no other open transaction has written, and looks at it again. */
  function Visited(dates: string -> int, db: Db, tx: Tx, k: nat): Tx
    requires k in db.msgs
  {
    var m := Seen(db, tx, k);
    if !tx.Selects(m) then tx.(todo := tx.todo - {k})
    else if tx.stage.Shifting?
    then tx.(todo := tx.todo - {k}, shifted := tx.shifted + {k},
             msgs := tx.msgs[k := m.(rel := m.rel - Delta(dates, tx))])
    else tx.(todo := tx.todo - {k}, msgs := tx.msgs[k := m.(vodId := Real(tx.candidate))])
  }

  // ---- Steps -------------------------------------------------------------------------------

  function Opened(channel: string, start: int, candidate: string): Tx {
    Tx(channel, start, candidate, Begun, map[], false, map[], {}, {}, {}, {})
  }

  /** No open transaction but t has written this row of vods. */
  predicate VodFree(s: State, id: VodId, t: nat) {
    forall u <- s.txs | u != t :: !s.txs[u].HoldsVod(id)
  }

  predicate MsgFree(s: State, k: nat, t: nat) {
    forall u <- s.txs | u != t :: k !in s.txs[u].msgs
  }

  /** INSERT INTO vods ... ON CONFLICT DO NOTHING by somebody else; a row that an open transaction has inserted
      or deleted makes it wait. */
  function AddVod(s: State, id: VodId, row: VodRow): State {
    if id in s.db.vods || (exists u <- s.txs :: s.txs[u].HoldsVod(id)) then s
    else s.(db := s.db.(vods := s.db.vods[id := row]))
  }

  /** What the proofs keep of a recording. */
  function Noted(tx: Tx, key: nat, m: Msg): Tx {
    if !tx.Selects(m) then tx
    else if tx.stage.ShiftTaken() then tx.(gap := tx.gap + {key})
    else if tx.stage.MoveTaken() then tx.(after := tx.after + {key})
    else tx
  }

  /** The recorder's INSERT finds the placeholder, and nobody is deleting it. */
  predicate CanRecord(s: State, key: nat, m: Msg) {
    && key !in s.db.msgs && m.vodId in s.db.vods
    && forall u <- s.txs :: !(s.txs[u].deletes && m.vodId == Live(s.txs[u].start))
  }

  function RecordMsg(s: State, key: nat, m: Msg): State {
    if !CanRecord(s, key, m) then s
    else State(s.db.(msgs := s.db.msgs[key := m]), map u <- s.txs :: Noted(s.txs[u], key, m), s.skewed)
  }

  /** The messages that the transaction moves without having shifted them. */
  function Late(dates: string -> int, tx: Tx): set<nat> {
    if Delta(dates, tx) == 0 then {} else tx.msgs.Keys - tx.shifted
  }

  function Committed(db: Db, tx: Tx): Db {
    Db(SeenVods(db, tx), db.msgs + tx.msgs)
  }

  function Apply(dates: string -> int, s: State, step: Step): State {
    match step
    case GoLive(channel, start) => AddVod(s, Live(start), VodRow(channel, start))
    case Discover(channel, id) => AddVod(s, Real(id), VodRow(channel, dates(id)))
    case Record(key, channel, start, abs) => RecordMsg(s, key, Msg(channel, Live(start), abs, abs - start))
    case Begin(t, channel, start, candidate) =>
      if t in s.txs then s
      else s.(txs := s.txs[t := Opened(channel, start, candidate)])
    case Next(t) =>
      if t !in s.txs || (Target(s.db, s.txs[t]).Some? && !VodFree(s, Target(s.db, s.txs[t]).value, t)) then s
      else
        var r := Statement(dates, s.db, s.txs[t]);
        if r.None? then s.(txs := s.txs - {t}) else s.(txs := s.txs[t := r.value])
    case Visit(t, k) =>
      if t !in s.txs || k !in s.txs[t].todo || k !in s.db.msgs || !MsgFree(s, k, t) then s
      else s.(txs := s.txs[t := Visited(dates, s.db, s.txs[t], k)])
    case Rollback(t) => s.(txs := s.txs - {t})
    case Commit(t) =>
      if t !in s.txs || !s.txs[t].stage.Deleted? then s
      else State(Committed(s.db, s.txs[t]), s.txs - {t}, s.skewed + Late(dates, s.txs[t]))
  }

  function Run(dates: string -> int, steps: seq<Step>): State {
    if steps == [] then INITIAL
    else Apply(dates, Run(dates, steps[..|steps| - 1]), steps[|steps| - 1])
  }

  // ---- The committed database --------------------------------------------------------------

  predicate Aligned(dates: string -> int, m: Msg) {
    m.rel == m.abs - DateOf(dates, m.vodId)
  }

  ghost predicate VodsOk(dates: string -> int, vods: map<VodId, VodRow>) {
    forall id <- vods :: vods[id].date == DateOf(dates, id)
  }

  /** The foreign key from messages to vods. */
  ghost predicate KeysExist(db: Db) {
    forall k <- db.msgs :: db.msgs[k].vodId in db.vods
  }

  /** A message is out of place exactly if it is one of the skewed ones, which have been moved already. */
  ghost predicate MsgOk(dates: string -> int, k: nat, m: Msg, skewed: set<nat>) {
    (Aligned(dates, m) <==> k !in skewed) && (k in skewed ==> m.vodId.Real?)
  }

  ghost predicate DbInv(dates: string -> int, s: State) {
    && VodsOk(dates, s.db.vods) && KeysExist(s.db)
    && (forall k <- s.db.msgs :: MsgOk(dates, k, s.db.msgs[k], s.skewed))
    && s.skewed <= s.db.msgs.Keys
  }

  // ---- The open transactions ---------------------------------------------------------------

  /** What a transaction's version w of a committed message m can be. */
  ghost predicate Version(dates: string -> int, tx: Tx, k: nat, m: Msg, w: Msg) {
    && tx.Selects(m)
    && w == m.(rel := if k in tx.shifted then m.rel - Delta(dates, tx) else m.rel, vodId := w.vodId)
    && (w.vodId == Real(tx.candidate) || (w.vodId == m.vodId && k in tx.shifted))
    && (!tx.stage.MoveTaken() ==> w.vodId.Live?)
    && (tx.stage.MoveTaken() && w.vodId.Live? ==> k in tx.todo)
    && (k !in tx.shifted && Delta(dates, tx) != 0 ==> k in tx.gap)
  }

  /** Nothing that the transaction selects escapes it but what came too late. */
  ghost predicate Covered(dates: string -> int, tx: Tx, k: nat) {
    && (tx.stage.ShiftTaken() && Delta(dates, tx) != 0 ==> k in tx.todo || k in tx.shifted || k in tx.gap)
    && (tx.stage.MoveTaken() ==> k in tx.todo || k in tx.msgs || k in tx.after)
    && (tx.stage.Moving? && k in tx.todo && Delta(dates, tx) != 0 ==> k in tx.shifted || k in tx.gap)
  }

  /** The invariant of an open transaction and a committed message. */
  ghost predicate RowOk(dates: string -> int, tx: Tx, k: nat, m: Msg) {
    && (k in tx.msgs ==> Version(dates, tx, k, m, tx.msgs[k]))
    && (tx.Selects(m) ==> Covered(dates, tx, k))
    && (tx.deletes && m.vodId == Live(tx.start) ==> k in tx.msgs)
    && (k in tx.after ==> k !in tx.msgs && k !in tx.todo)
    && (tx.stage.Shifting? && k in tx.todo ==> k !in tx.msgs)
  }

  ghost predicate TxShape(dates: string -> int, db: Db, tx: Tx) {
    && VodsOk(dates, tx.vods) && (forall id <- tx.vods :: id == Real(tx.candidate))
    && (!tx.stage.Begun? ==> Real(tx.candidate) in db.vods || Real(tx.candidate) in tx.vods)
    && tx.msgs.Keys <= db.msgs.Keys && tx.todo <= db.msgs.Keys && tx.after <= db.msgs.Keys
    && tx.shifted <= tx.msgs.Keys
    && (tx.stage.BeforeShift() ==> tx.msgs == map[] && tx.after == {})
    && (!tx.stage.Shifting? && !tx.stage.Moving? ==> tx.todo == {})
    && (!tx.stage.MoveTaken() ==> tx.after == {})
    && (tx.deletes ==> tx.stage.Deleted?)
  }

  /** What has been recorded in the gap was not there to be shifted, and the move has not yet taken its rows. */
  ghost predicate GapOk(db: Db, tx: Tx) {
    && tx.gap <= db.msgs.Keys && tx.gap !! tx.shifted && tx.gap !! tx.after
    && (tx.stage.BeforeShift() ==> tx.gap == {})
    && (tx.stage.Shifting? ==> tx.gap !! tx.todo)
  }

  ghost predicate TxInv(dates: string -> int, db: Db, tx: Tx) {
    && TxShape(dates, db, tx) && GapOk(db, tx)
    && (forall k <- db.msgs :: RowOk(dates, tx, k, db.msgs[k]))
  }

  /** No message has been written by two open transactions. */
  ghost predicate Exclusive(s: State) {
    forall u <- s.txs, v <- s.txs | u != v :: s.txs[u].msgs.Keys !! s.txs[v].msgs.Keys
  }

  ghost predicate Inv(dates: string -> int, s: State) {
    && DbInv(dates, s) && Exclusive(s)
    && (forall u <- s.txs :: TxInv(dates, s.db, s.txs[u]))
  }

  // ---- Steps of others ---------------------------------------------------------------------

  lemma AddVodKeepsInv(dates: string -> int, s: State, id: VodId, row: VodRow)
    requires Inv(dates, s) && row.date == DateOf(dates, id)
    ensures Inv(dates, AddVod(s, id, row))
  {
    var s' := AddVod(s, id, row);
    forall u <- s'.txs ensures TxInv(dates, s'.db, s'.txs[u]) {
      assert TxInv(dates, s.db, s.txs[u]);
    }
  }

  /** A message recorded during a transaction was not there to be taken by an earlier statement. */
  lemma RecordKeepsRow(dates: string -> int, db: Db, tx: Tx, key: nat, m: Msg, k: nat)
    requires TxInv(dates, db, tx) && key !in db.msgs && !(tx.deletes && m.vodId == Live(tx.start))
    requires k in db.msgs || k == key
    ensures RowOk(dates, Noted(tx, key, m), k, if k == key then m else db.msgs[k])
  {
    assert k != key ==> RowOk(dates, tx, k, db.msgs[k]);
  }

  lemma RecordKeepsShape(dates: string -> int, db: Db, tx: Tx, key: nat, m: Msg)
    requires TxShape(dates, db, tx) && key !in db.msgs
    ensures TxShape(dates, db.(msgs := db.msgs[key := m]), Noted(tx, key, m))
  {
  }

  lemma RecordKeepsGap(dates: string -> int, db: Db, tx: Tx, key: nat, m: Msg)
    requires TxShape(dates, db, tx) && GapOk(db, tx) && key !in db.msgs
    ensures GapOk(db.(msgs := db.msgs[key := m]), Noted(tx, key, m))
  {
  }

  lemma RecordKeepsTx(dates: string -> int, db: Db, tx: Tx, key: nat, m: Msg)
    requires TxInv(dates, db, tx) && key !in db.msgs && !(tx.deletes && m.vodId == Live(tx.start))
    ensures TxInv(dates, db.(msgs := db.msgs[key := m]), Noted(tx, key, m))
  {
    var db' := db.(msgs := db.msgs[key := m]);
    RecordKeepsShape(dates, db, tx, key, m);
    RecordKeepsGap(dates, db, tx, key, m);
    forall k <- db'.msgs ensures RowOk(dates, Noted(tx, key, m), k, db'.msgs[k]) {
      RecordKeepsRow(dates, db, tx, key, m, k);
    }
  }

  lemma RecordKeepsDb(dates: string -> int, s: State, key: nat, m: Msg)
    requires DbInv(dates, s) && m.vodId.Live? && Aligned(dates, m) && CanRecord(s, key, m)
    ensures DbInv(dates, RecordMsg(s, key, m))
  {
    var s' := RecordMsg(s, key, m);
    forall k <- s'.db.msgs ensures MsgOk(dates, k, s'.db.msgs[k], s'.skewed) {
      assert k != key ==> MsgOk(dates, k, s.db.msgs[k], s.skewed);
    }
  }

  lemma RecordKeepsExclusive(s: State, key: nat, m: Msg)
    requires Exclusive(s)
    ensures Exclusive(RecordMsg(s, key, m))
  {
    var s' := RecordMsg(s, key, m);
    forall u <- s'.txs, v <- s'.txs | u != v ensures s'.txs[u].msgs.Keys !! s'.txs[v].msgs.Keys {
      assert s.txs[u].msgs.Keys !! s.txs[v].msgs.Keys;
      assert s'.txs[u].msgs == s.txs[u].msgs && s'.txs[v].msgs == s.txs[v].msgs;
    }
  }

  lemma RecordKeepsInv(dates: string -> int, s: State, key: nat, m: Msg)
    requires Inv(dates, s) && m.vodId.Live? && Aligned(dates, m)
    ensures Inv(dates, RecordMsg(s, key, m))
  {
    if CanRecord(s, key, m) {
      var s' := RecordMsg(s, key, m);
      RecordKeepsDb(dates, s, key, m);
      RecordKeepsExclusive(s, key, m);
      forall u <- s'.txs ensures TxInv(dates, s'.db, s'.txs[u]) {
        RecordKeepsTx(dates, s.db, s.txs[u], key, m);
      }
    }
  }

  // ---- Steps of a transaction --------------------------------------------------------------

  lemma OpenedIsOk(dates: string -> int, db: Db, channel: string, start: int, candidate: string)
    ensures TxInv(dates, db, Opened(channel, start, candidate))
  {
  }

  lemma BeginKeepsInv(dates: string -> int, s: State, t: nat, channel: string, start: int, candidate: string)
    requires Inv(dates, s) && t !in s.txs
    ensures Inv(dates, s.(txs := s.txs[t := Opened(channel, start, candidate)]))
  {
    OpenedIsOk(dates, s.db, channel, start, candidate);
  }

  /** An UPDATE takes its rows. */
  lemma TakingKeepsRow(dates: string -> int, db: Db, tx: Tx, k: nat)
    requires TxShape(dates, db, tx) && k in db.msgs && RowOk(dates, tx, k, db.msgs[k])
    requires tx.stage.Shifted? || (tx.stage.Refreshed? && Delta(dates, tx) != 0)
    ensures RowOk(dates, Statement(dates, db, tx).value, k, db.msgs[k])
  {
  }

  lemma StatementKeepsRow(dates: string -> int, db: Db, tx: Tx, k: nat)
    requires TxShape(dates, db, tx) && Statement(dates, db, tx).Some? && k in db.msgs && RowOk(dates, tx, k, db.msgs[k])
    ensures RowOk(dates, Statement(dates, db, tx).value, k, db.msgs[k])
  {
    if tx.stage.Shifted? || (tx.stage.Refreshed? && Delta(dates, tx) != 0) {
      TakingKeepsRow(dates, db, tx, k);
    }
  }

  lemma StatementKeepsShape(dates: string -> int, db: Db, tx: Tx)
    requires TxShape(dates, db, tx) && Statement(dates, db, tx).Some?
    ensures TxShape(dates, db, Statement(dates, db, tx).value)
    ensures Statement(dates, db, tx).value.msgs == tx.msgs
  {
    assert Taken(db, tx) <= db.msgs.Keys;
    if tx.stage.Begun? || tx.stage.Ensured? {
      InsertKeepsShape(dates, db, tx);
    }
  }

  lemma InsertKeepsShape(dates: string -> int, db: Db, tx: Tx)
    requires TxShape(dates, db, tx) && (tx.stage.Begun? || tx.stage.Ensured?)
    ensures TxShape(dates, db, Statement(dates, db, tx).value)
  {
  }

  lemma StatementKeepsGap(dates: string -> int, db: Db, tx: Tx)
    requires GapOk(db, tx) && Statement(dates, db, tx).Some?
    ensures GapOk(db, Statement(dates, db, tx).value)
  {
  }

  lemma StatementKeepsTx(dates: string -> int, db: Db, tx: Tx)
    requires TxInv(dates, db, tx) && Statement(dates, db, tx).Some?
    ensures TxInv(dates, db, Statement(dates, db, tx).value)
  {
    StatementKeepsShape(dates, db, tx);
    StatementKeepsGap(dates, db, tx);
    forall k <- db.msgs ensures RowOk(dates, Statement(dates, db, tx).value, k, db.msgs[k]) {
      assert RowOk(dates, tx, k, db.msgs[k]);
      StatementKeepsRow(dates, db, tx, k);
    }
  }

  /** The row visited. */
  lemma VisitKeepsThisRow(dates: string -> int, db: Db, tx: Tx, k: nat)
    requires TxShape(dates, db, tx) && k in tx.todo && k in db.msgs && RowOk(dates, tx, k, db.msgs[k])
    ensures RowOk(dates, Visited(dates, db, tx, k), k, db.msgs[k])
  {
  }

  lemma VisitKeepsOtherRow(dates: string -> int, db: Db, tx: Tx, v: nat, k: nat)
    requires v in tx.todo && v in db.msgs && k in db.msgs && k != v && RowOk(dates, tx, k, db.msgs[k])
    ensures RowOk(dates, Visited(dates, db, tx, v), k, db.msgs[k])
  {
  }

  lemma VisitKeepsShape(dates: string -> int, db: Db, tx: Tx, v: nat)
    requires TxShape(dates, db, tx) && v in tx.todo && v in db.msgs
    ensures TxShape(dates, db, Visited(dates, db, tx, v))
    ensures Visited(dates, db, tx, v).msgs.Keys <= tx.msgs.Keys + {v}
  {
  }

  lemma VisitKeepsGap(dates: string -> int, db: Db, tx: Tx, v: nat)
    requires TxShape(dates, db, tx) && GapOk(db, tx) && v in tx.todo && v in db.msgs
    ensures GapOk(db, Visited(dates, db, tx, v))
  {
  }

  lemma VisitKeepsTx(dates: string -> int, db: Db, tx: Tx, v: nat)
    requires TxInv(dates, db, tx) && v in tx.todo && v in db.msgs
    ensures TxInv(dates, db, Visited(dates, db, tx, v))
    ensures Visited(dates, db, tx, v).msgs.Keys <= tx.msgs.Keys + {v}
  {
    VisitKeepsShape(dates, db, tx, v);
    VisitKeepsGap(dates, db, tx, v);
    forall k <- db.msgs ensures RowOk(dates, Visited(dates, db, tx, v), k, db.msgs[k]) {
      assert RowOk(dates, tx, k, db.msgs[k]);
      if k == v {
        VisitKeepsThisRow(dates, db, tx, k);
      } else {
        VisitKeepsOtherRow(dates, db, tx, v, k);
      }
    }
  }

  /** A transaction that only changes itself. */
  lemma OwnStepKeepsInv(dates: string -> int, s: State, t: nat, tx': Tx)
    requires Inv(dates, s) && t in s.txs && TxInv(dates, s.db, tx')
    requires forall k | k in tx'.msgs && k !in s.txs[t].msgs :: MsgFree(s, k, t)
    ensures Inv(dates, s.(txs := s.txs[t := tx']))
  {
    OwnStepKeepsExclusive(s, t, tx');
  }

  lemma OwnStepKeepsExclusive(s: State, t: nat, tx': Tx)
    requires Exclusive(s) && t in s.txs
    requires forall k | k in tx'.msgs && k !in s.txs[t].msgs :: MsgFree(s, k, t)
    ensures Exclusive(s.(txs := s.txs[t := tx']))
  {
    var s' := s.(txs := s.txs[t := tx']);
    forall u <- s'.txs, v <- s'.txs | u != v ensures s'.txs[u].msgs.Keys !! s'.txs[v].msgs.Keys {
      assert u != t && v != t ==> s.txs[u].msgs.Keys !! s.txs[v].msgs.Keys;
      if u == t {
        OwnKeysExclusive(s, t, tx', v);
      } else if v == t {
        OwnKeysExclusive(s, t, tx', u);
      }
    }
  }

  lemma OwnKeysExclusive(s: State, t: nat, tx': Tx, v: nat)
    requires Exclusive(s) && t in s.txs && v in s.txs && v != t
    requires forall k | k in tx'.msgs && k !in s.txs[t].msgs :: MsgFree(s, k, t)
    ensures tx'.msgs.Keys !! s.txs[v].msgs.Keys
  {
    forall k | k in tx'.msgs ensures k !in s.txs[v].msgs {
      assert s.txs[t].msgs.Keys !! s.txs[v].msgs.Keys;
      if k !in s.txs[t].msgs {
        assert MsgFree(s, k, t);
      }
    }
  }

  lemma DropKeepsInv(dates: string -> int, s: State, t: nat)
    requires Inv(dates, s)
    ensures Inv(dates, s.(txs := s.txs - {t}))
  {
  }

  // ---- Commit ------------------------------------------------------------------------------

  /** What a transaction that is about to commit has made of a message. */
  lemma FinalVersion(dates: string -> int, db: Db, tx: Tx, k: nat)
    requires TxInv(dates, db, tx) && tx.stage.Deleted? && k in tx.msgs
    ensures k in db.msgs && tx.Selects(db.msgs[k])
    ensures var m := db.msgs[k];
      tx.msgs[k] == Msg(m.channel, Real(tx.candidate), m.abs,
                        if k in tx.shifted then m.rel - Delta(dates, tx) else m.rel)
  {
    assert RowOk(dates, tx, k, db.msgs[k]);
  }

  lemma CommitKeepsMsg(dates: string -> int, s: State, t: nat, k: nat)
    requires Inv(dates, s) && t in s.txs && s.txs[t].stage.Deleted? && k in s.db.msgs
    ensures var s' := Apply(dates, s, Commit(t));
      k in s'.db.msgs && MsgOk(dates, k, s'.db.msgs[k], s'.skewed) && s'.db.msgs[k].vodId in s'.db.vods
  {
    var tx := s.txs[t];
    assert TxInv(dates, s.db, tx) && RowOk(dates, tx, k, s.db.msgs[k]) && MsgOk(dates, k, s.db.msgs[k], s.skewed);
    if k in tx.msgs {
      FinalVersion(dates, s.db, tx, k);
    }
  }

  /** Another open transaction keeps its view of a message, or the committed one has moved it away. */
  lemma CommitKeepsOtherRow(dates: string -> int, db: Db, tx: Tx, other: Tx, k: nat)
    requires TxInv(dates, db, tx) && TxInv(dates, db, other) && tx.stage.Deleted? && k in db.msgs
    requires tx.msgs.Keys !! other.msgs.Keys
    ensures k in Committed(db, tx).msgs && RowOk(dates, other, k, Committed(db, tx).msgs[k])
  {
    assert RowOk(dates, other, k, db.msgs[k]);
    if k in tx.msgs {
      FinalVersion(dates, db, tx, k);
      assert k !in other.msgs;
    }
  }

  lemma CommitKeepsOther(dates: string -> int, db: Db, tx: Tx, other: Tx)
    requires TxInv(dates, db, tx) && TxInv(dates, db, other) && tx.stage.Deleted?
    requires tx.msgs.Keys !! other.msgs.Keys
    ensures TxInv(dates, Committed(db, tx), other)
  {
    var db' := Committed(db, tx);
    assert db'.msgs.Keys == db.msgs.Keys;
    forall k <- db'.msgs ensures RowOk(dates, other, k, db'.msgs[k]) {
      CommitKeepsOtherRow(dates, db, tx, other, k);
    }
  }

  lemma CommitKeepsInv(dates: string -> int, s: State, t: nat)
    requires Inv(dates, s) && t in s.txs && s.txs[t].stage.Deleted?
    ensures Inv(dates, Apply(dates, s, Commit(t)))
  {
    var s' := Apply(dates, s, Commit(t));
    var tx := s.txs[t];
    assert TxInv(dates, s.db, tx);
    assert s'.db.msgs.Keys == s.db.msgs.Keys;
    forall k <- s'.db.msgs ensures MsgOk(dates, k, s'.db.msgs[k], s'.skewed) && s'.db.msgs[k].vodId in s'.db.vods {
      CommitKeepsMsg(dates, s, t, k);
    }
    forall u <- s'.txs ensures TxInv(dates, s'.db, s'.txs[u]) {
      CommitKeepsOther(dates, s.db, tx, s.txs[u]);
    }
  }

  lemma NextKeepsInv(dates: string -> int, s: State, t: nat)
    requires Inv(dates, s)
    ensures Inv(dates, Apply(dates, s, Next(t)))
  {
    if t in s.txs {
      if Statement(dates, s.db, s.txs[t]).Some? {
        RunsKeepInv(dates, s, t);
      } else {
        DropKeepsInv(dates, s, t);
      }
    }
  }

  lemma RunsKeepInv(dates: string -> int, s: State, t: nat)
    requires Inv(dates, s) && t in s.txs && Statement(dates, s.db, s.txs[t]).Some?
    ensures Inv(dates, s.(txs := s.txs[t := Statement(dates, s.db, s.txs[t]).value]))
  {
    StatementKeepsTx(dates, s.db, s.txs[t]);
    StatementKeepsShape(dates, s.db, s.txs[t]);
    OwnStepKeepsInv(dates, s, t, Statement(dates, s.db, s.txs[t]).value);
  }

  lemma VisitKeepsInv(dates: string -> int, s: State, t: nat, k: nat)
    requires Inv(dates, s) && t in s.txs && k in s.txs[t].todo && k in s.db.msgs && MsgFree(s, k, t)
    ensures Inv(dates, s.(txs := s.txs[t := Visited(dates, s.db, s.txs[t], k)]))
  {
    VisitKeepsTx(dates, s.db, s.txs[t], k);
    OwnStepKeepsInv(dates, s, t, Visited(dates, s.db, s.txs[t], k));
  }

  lemma AddStepKeepsInv(dates: string -> int, s: State, step: Step, s': State)
    requires Inv(dates, s) && (step.GoLive? || step.Discover?) && s' == Apply(dates, s, step)
    ensures Inv(dates, s')
  {
    if step.GoLive? {
      AddVodKeepsInv(dates, s, Live(step.start), VodRow(step.channel, step.start));
    } else {
      AddVodKeepsInv(dates, s, Real(step.id), VodRow(step.channel, dates(step.id)));
    }
  }

  lemma RecordStepKeepsInv(dates: string -> int, s: State, step: Step, s': State)
    requires Inv(dates, s) && step.Record? && s' == Apply(dates, s, step)
    ensures Inv(dates, s')
  {
    RecordKeepsInv(dates, s, step.key, Msg(step.channel, Live(step.start), step.abs, step.abs - step.start));
  }

  lemma TxStepKeepsInv(dates: string -> int, s: State, step: Step)
    requires Inv(dates, s) && (step.Begin? || step.Visit?)
    ensures Inv(dates, Apply(dates, s, step))
  {
    if step.Begin? {
      if step.t !in s.txs {
        BeginKeepsInv(dates, s, step.t, step.channel, step.start, step.candidate);
      }
    } else if step.t in s.txs && step.k in s.txs[step.t].todo && step.k in s.db.msgs && MsgFree(s, step.k, step.t) {
      VisitKeepsInv(dates, s, step.t, step.k);
    }
  }

  lemma EndKeepsInv(dates: string -> int, s: State, step: Step)
    requires Inv(dates, s) && (step.Rollback? || step.Commit?)
    ensures Inv(dates, Apply(dates, s, step))
  {
    if step.Rollback? {
      DropKeepsInv(dates, s, step.t);
    } else if step.t in s.txs && s.txs[step.t].stage.Deleted? {
      CommitKeepsInv(dates, s, step.t);
    }
  }

  lemma StepKeepsInv(dates: string -> int, s: State, step: Step)
    requires Inv(dates, s)
    ensures Inv(dates, Apply(dates, s, step))
  {
    if step.GoLive? || step.Discover? {
      AddStepKeepsInv(dates, s, step, Apply(dates, s, step));
    } else if step.Record? {
      RecordStepKeepsInv(dates, s, step, Apply(dates, s, step));
    } else if step.Begin? || step.Visit? {
      TxStepKeepsInv(dates, s, step);
    } else if step.Rollback? || step.Commit? {
      EndKeepsInv(dates, s, step);
    } else {
      NextKeepsInv(dates, s, step.t);
    }
  }

  lemma {:induction false} RunKeepsInv(dates: string -> int, steps: seq<Step>)
    ensures Inv(dates, Run(dates, steps))
  {
    if steps != [] {
      RunKeepsInv(dates, steps[..|steps| - 1]);
      StepKeepsInv(dates, Run(dates, steps[..|steps| - 1]), steps[|steps| - 1]);
    }
  }

  // ---- Main results ------------------------------------------------------------------------

  /** A transaction sees no message without its VOD. */
  ghost predicate SeenKeysExist(db: Db, tx: Tx) {
    forall k <- db.msgs :: Seen(db, tx, k).vodId in SeenVods(db, tx)
  }

  lemma TxSeesItsKeys(dates: string -> int, db: Db, tx: Tx)
    requires KeysExist(db) && TxInv(dates, db, tx)
    ensures SeenKeysExist(db, tx)
  {
    forall k <- db.msgs ensures Seen(db, tx, k).vodId in SeenVods(db, tx) {
      assert RowOk(dates, tx, k, db.msgs[k]);
    }
  }

  /** On every run, also inside every open transaction, every message names an existing VOD; and a committed
      message satisfies rel = abs - date of its VOD unless it is one of the skewed ones. */
  lemma MessagesStayAligned(dates: string -> int, steps: seq<Step>)
    ensures var s := Run(dates, steps);
      && KeysExist(s.db) && (forall t <- s.txs :: SeenKeysExist(s.db, s.txs[t]))
      && (forall id <- s.db.vods :: s.db.vods[id].date == DateOf(dates, id))
      && (forall k <- s.db.msgs ::
            s.db.msgs[k].rel == s.db.msgs[k].abs - DateOf(dates, s.db.msgs[k].vodId) <==> k !in s.skewed)
  {
    RunKeepsInv(dates, steps);
    var s := Run(dates, steps);
    forall t <- s.txs ensures SeenKeysExist(s.db, s.txs[t]) {
      TxSeesItsKeys(dates, s.db, s.txs[t]);
    }
    assert forall k <- s.db.msgs :: MsgOk(dates, k, s.db.msgs[k], s.skewed);
  }

  /** However many reconciliations are open, no message has been written by two of them. */
  lemma NoMessageIsWrittenTwice(dates: string -> int, steps: seq<Step>, t: nat, u: nat)
    requires t in Run(dates, steps).txs && u in Run(dates, steps).txs && t != u
    ensures Run(dates, steps).txs[t].msgs.Keys !! Run(dates, steps).txs[u].msgs.Keys
  {
    RunKeepsInv(dates, steps);
  }

  /** A message is recorded under a placeholder after the shift of a reconciliation of it has taken its rows, and
      before its move does. */
  predicate InGap(dates: string -> int, s: State, step: Step) {
    step.Record? && exists t <- s.txs ::
      s.txs[t].stage.ShiftTaken() && s.txs[t].channel == step.channel && s.txs[t].start == step.start
      && Delta(dates, s.txs[t]) != 0
  }

  /** Nothing is skewed, and no open transaction will skew anything that it has seen. */
  ghost predicate NoSkew(dates: string -> int, s: State) {
    s.skewed == {} && forall t <- s.txs :: Delta(dates, s.txs[t]) == 0 || s.txs[t].gap == {}
  }

  lemma LateAreInGap(dates: string -> int, db: Db, tx: Tx)
    requires TxInv(dates, db, tx)
    ensures Late(dates, tx) <= tx.gap
  {
    forall k <- Late(dates, tx) ensures k in tx.gap {
      assert RowOk(dates, tx, k, db.msgs[k]);
    }
  }

  lemma RecordSkewsOnlyInGap(dates: string -> int, s: State, step: Step)
    requires NoSkew(dates, s) && !InGap(dates, s, step) && step.Record?
    ensures NoSkew(dates, Apply(dates, s, step))
  {
    var m := Msg(step.channel, Live(step.start), step.abs, step.abs - step.start);
    forall t <- s.txs
      ensures Delta(dates, Noted(s.txs[t], step.key, m)) == 0 || Noted(s.txs[t], step.key, m).gap == {}
    {
    }
  }

  lemma StatementSkewsNothing(dates: string -> int, db: Db, tx: Tx)
    requires Statement(dates, db, tx).Some?
    ensures var tx' := Statement(dates, db, tx).value;
      tx'.gap == tx.gap && tx'.candidate == tx.candidate && tx'.start == tx.start
  {
  }

  lemma NextSkewsNothing(dates: string -> int, s: State, t: nat)
    requires NoSkew(dates, s)
    ensures NoSkew(dates, Apply(dates, s, Next(t)))
  {
    if t in s.txs && Statement(dates, s.db, s.txs[t]).Some? {
      StatementSkewsNothing(dates, s.db, s.txs[t]);
    }
  }

  lemma CommitSkewsNothing(dates: string -> int, s: State, t: nat)
    requires Inv(dates, s) && NoSkew(dates, s)
    ensures NoSkew(dates, Apply(dates, s, Commit(t)))
  {
    if t in s.txs {
      assert TxInv(dates, s.db, s.txs[t]);
      LateAreInGap(dates, s.db, s.txs[t]);
    }
  }

  lemma StepSkewsOnlyInGap(dates: string -> int, s: State, step: Step)
    requires Inv(dates, s) && NoSkew(dates, s) && !InGap(dates, s, step)
    ensures NoSkew(dates, Apply(dates, s, step))
  {
    match step
    case Record(_, _, _, _) => RecordSkewsOnlyInGap(dates, s, step);
    case Commit(t) => CommitSkewsNothing(dates, s, t);
    case Next(t) => NextSkewsNothing(dates, s, t);
    case _ => OtherStepsSkewNothing(dates, s, step);
  }

  lemma OtherStepsSkewNothing(dates: string -> int, s: State, step: Step)
    requires NoSkew(dates, s) && !step.Record? && !step.Commit? && !step.Next?
    ensures NoSkew(dates, Apply(dates, s, step))
  {
  }

  /** Without a recording in that gap no message is ever skewed. */
  lemma {:induction false} NoGapNoSkew(dates: string -> int, steps: seq<Step>)
    requires forall i | 0 <= i < |steps| :: !InGap(dates, Run(dates, steps[..i]), steps[i])
    ensures Run(dates, steps).skewed == {} && NoSkew(dates, Run(dates, steps))
  {
    if steps != [] {
      var front := steps[..|steps| - 1];
      forall i | 0 <= i < |front| ensures !InGap(dates, Run(dates, front[..i]), front[i]) {
        assert front[..i] == steps[..i];
      }
      NoGapNoSkew(dates, front);
      RunKeepsInv(dates, front);
      StepSkewsOnlyInGap(dates, Run(dates, front), steps[|steps| - 1]);
    }
  }

  /** What a commit does to each message: those that the transaction has taken are now the real VOD's, with their
      relative time shifted once, except the ones recorded in the gap; all others are as they were. If it has
      deleted the placeholder, no message is left there. */
  lemma CommitMovesOnce(dates: string -> int, s: State, t: nat, k: nat)
    requires Inv(dates, s) && t in s.txs && s.txs[t].stage.Deleted? && k in s.db.msgs
    ensures var tx, m := s.txs[t], s.db.msgs[k];
      var m' := Apply(dates, s, Commit(t)).db.msgs[k];
      && (tx.Selects(m) && k !in tx.after ==>
            m' == Msg(m.channel, Real(tx.candidate), m.abs,
                      if k in Late(dates, tx) then m.rel else m.rel - Delta(dates, tx)))
      && (!tx.Selects(m) || k in tx.after ==> m' == m)
      && (tx.deletes ==> m'.vodId != Live(tx.start))
      && Late(dates, tx) <= tx.gap
  {
    var tx := s.txs[t];
    assert TxInv(dates, s.db, tx) && RowOk(dates, tx, k, s.db.msgs[k]);
    LateAreInGap(dates, s.db, tx);
    if k in tx.msgs {
      FinalVersion(dates, s.db, tx, k);
      NoShiftWithoutDelta(dates, s.db, tx, k);
    }
  }

  lemma NoShiftWithoutDelta(dates: string -> int, db: Db, tx: Tx, k: nat)
    requires TxInv(dates, db, tx) && k in tx.msgs
    ensures k in Late(dates, tx) <==> k !in tx.shifted && Delta(dates, tx) != 0
  {
  }

  ghost predicate AllAligned(dates: string -> int, db: Db) {
    forall k <- db.msgs :: Aligned(dates, db.msgs[k])
  }

  lemma AlignedIffNoneSkewed(dates: string -> int, s: State)
    requires DbInv(dates, s)
    ensures AllAligned(dates, s.db) <==> s.skewed == {}
  {
    assert forall k <- s.db.msgs :: MsgOk(dates, k, s.db.msgs[k], s.skewed);
    if k :| k in s.skewed {
      assert k in s.db.msgs;
    }
  }

  /** The dates differ, and one of these messages is still under the placeholder. */
  predicate HoldsOneOf(dates: string -> int, db: Db, tx: Tx, keys: set<nat>) {
    Delta(dates, tx) != 0 && exists k <- keys :: k in db.msgs && tx.Selects(db.msgs[k])
  }

  /** What a transaction moves unshifted is what was recorded in the gap and no other one has moved meanwhile. */
  lemma LateIff(dates: string -> int, db: Db, tx: Tx, k: nat)
    requires TxInv(dates, db, tx) && tx.stage.Deleted? && Delta(dates, tx) != 0
    ensures k in Late(dates, tx) <==> k in tx.gap && k in db.msgs && tx.Selects(db.msgs[k])
  {
    if k in db.msgs {
      assert RowOk(dates, tx, k, db.msgs[k]);
    }
  }

  lemma SomeLateIff(dates: string -> int, db: Db, tx: Tx)
    requires TxInv(dates, db, tx) && tx.stage.Deleted?
    ensures Late(dates, tx) != {} <==> HoldsOneOf(dates, db, tx, tx.gap)
  {
    if Delta(dates, tx) != 0 {
      forall k: nat
        ensures k in Late(dates, tx) <==> k in tx.gap && k in db.msgs && tx.Selects(db.msgs[k])
      {
        LateIff(dates, db, tx, k);
      }
    }
  }

  lemma CommitSkewsIff(dates: string -> int, s: State, t: nat)
    requires t in s.txs && TxInv(dates, s.db, s.txs[t]) && s.txs[t].stage.Deleted?
    ensures Apply(dates, s, Commit(t)).skewed == {} <==>
      s.skewed == {} && !HoldsOneOf(dates, s.db, s.txs[t], s.txs[t].gap)
  {
    SomeLateIff(dates, s.db, s.txs[t]);
    NoneInUnion(s.skewed, Late(dates, s.txs[t]));
  }

  /** The committed chat is aligned after a commit exactly if it was before and either the real VOD starts when
      the stream did, or no message recorded in the transaction's gap is still under the placeholder. */
  lemma CommitKeepsAlignmentIff(dates: string -> int, s: State, t: nat)
    requires Inv(dates, s) && t in s.txs && s.txs[t].stage.Deleted?
    ensures AllAligned(dates, Apply(dates, s, Commit(t)).db) <==>
      AllAligned(dates, s.db) && !HoldsOneOf(dates, s.db, s.txs[t], s.txs[t].gap)
  {
    CommitKeepsInv(dates, s, t);
    AlignedIffNoneSkewed(dates, s);
    AlignedIffNoneSkewed(dates, Apply(dates, s, Commit(t)));
    CommitSkewsIff(dates, s, t);
  }

  lemma NoneInUnion(a: set<nat>, b: set<nat>)
    ensures a + b == {} <==> a == {} && b == {}
  {
    assert a <= a + b && b <= a + b;
  }

  // ---- Alignment over whole runs -----------------------------------------------------------

  /** The step records a message under the placeholder of the open transaction t, whose shift has taken its rows
      and whose move has not. */
  predicate RecordsInGapOf(s: State, step: Step, t: nat) {
    && t in s.txs && s.txs[t].stage.ShiftTaken()
    && step.Record? && s.txs[t].channel == step.channel && s.txs[t].start == step.start
    && CanRecord(s, step.key, Msg(step.channel, Live(step.start), step.abs, step.abs - step.start))
  }

  /** The messages recorded in the gap of the transaction t that is open after these steps. */
  function GapOf(dates: string -> int, steps: seq<Step>, t: nat): set<nat> {
    if steps == [] then {}
    else
      var front, step := steps[..|steps| - 1], steps[|steps| - 1];
      var s := Run(dates, front);
      if t !in s.txs then {}
      else GapOf(dates, front, t) + if RecordsInGapOf(s, step, t) then {step.key} else {}
  }

  lemma RecordKeepsGaps(s: State, step: Step, s': State, t: nat)
    requires step.Record?
    requires s' == RecordMsg(s, step.key, Msg(step.channel, Live(step.start), step.abs, step.abs - step.start))
    requires t in s.txs
    ensures t in s'.txs
    ensures s'.txs[t].gap == s.txs[t].gap + if RecordsInGapOf(s, step, t) then {step.key} else {}
  {
  }

  lemma StepKeepsGap(dates: string -> int, s: State, step: Step, s': State, t: nat)
    requires s' == Apply(dates, s, step) && t in s'.txs
    ensures t !in s.txs ==> s'.txs[t].gap == {}
    ensures t in s.txs ==> s'.txs[t].gap == s.txs[t].gap + if RecordsInGapOf(s, step, t) then {step.key} else {}
  {
    if step.Record? {
      RecordKeepsGaps(s, step, s', t);
    } else if step.Next? && step.t == t && t in s.txs && Statement(dates, s.db, s.txs[t]).Some? {
      StatementSkewsNothing(dates, s.db, s.txs[t]);
    }
  }

  lemma {:induction false} GapIsRecorded(dates: string -> int, steps: seq<Step>, t: nat)
    requires t in Run(dates, steps).txs
    ensures Run(dates, steps).txs[t].gap == GapOf(dates, steps, t)
  {
    var front, step := steps[..|steps| - 1], steps[|steps| - 1];
    StepKeepsGap(dates, Run(dates, front), step, Run(dates, steps), t);
    if t in Run(dates, front).txs {
      GapIsRecorded(dates, front, t);
    }
  }

  /** The last step commits a transaction whose VOD starts at another time than the stream, and a message
      recorded in its gap is still under its placeholder. */
  predicate EndsSkewing(dates: string -> int, steps: seq<Step>)
    requires steps != []
  {
    var front, step := steps[..|steps| - 1], steps[|steps| - 1];
    var s := Run(dates, front);
    && step.Commit? && step.t in s.txs && s.txs[step.t].stage.Deleted?
    && HoldsOneOf(dates, s.db, s.txs[step.t], GapOf(dates, front, step.t))
  }

  predicate SomeCommitSkews(dates: string -> int, steps: seq<Step>) {
    steps != [] && (SomeCommitSkews(dates, steps[..|steps| - 1]) || EndsSkewing(dates, steps))
  }

  lemma OthersSkewNothing(dates: string -> int, s: State, step: Step)
    requires !(step.Commit? && step.t in s.txs && s.txs[step.t].stage.Deleted?)
    ensures Apply(dates, s, step).skewed == s.skewed
  {
  }

  lemma LastStepSkewsIff(dates: string -> int, steps: seq<Step>)
    requires steps != []
    ensures Run(dates, steps).skewed == {} <==>
      Run(dates, steps[..|steps| - 1]).skewed == {} && !EndsSkewing(dates, steps)
  {
    var front, step := steps[..|steps| - 1], steps[|steps| - 1];
    var s := Run(dates, front);
    if step.Commit? && step.t in s.txs && s.txs[step.t].stage.Deleted? {
      RunKeepsInv(dates, front);
      GapIsRecorded(dates, front, step.t);
      CommitSkewsIff(dates, s, step.t);
    } else {
      OthersSkewNothing(dates, s, step);
    }
  }

  lemma {:induction false} SkewedIff(dates: string -> int, steps: seq<Step>)
    ensures Run(dates, steps).skewed == {} <==> !SomeCommitSkews(dates, steps)
  {
    if steps != [] {
      SkewedIff(dates, steps[..|steps| - 1]);
      LastStepSkewsIff(dates, steps);
    }
  }

  /** On every run the committed chat is aligned exactly if no step was the commit of a transaction whose real VOD
      starts at another time than the stream, while a message recorded in its gap was under its placeholder. */
  lemma ChatAlignedIff(dates: string -> int, steps: seq<Step>)
    ensures AllAligned(dates, Run(dates, steps).db) <==> !SomeCommitSkews(dates, steps)
  {
    RunKeepsInv(dates, steps);
    AlignedIffNoneSkewed(dates, Run(dates, steps));
    SkewedIff(dates, steps);
  }

  /** The transaction gets past its DELETE exactly if nobody else's message, and none recorded after the move has
      taken its rows, still names the placeholder. */
  lemma DeleteRefusedIff(dates: string -> int, s: State, t: nat)
    requires Inv(dates, s) && t in s.txs && s.txs[t].stage.Moved? && DeleteMatches(s.db, s.txs[t])
    ensures var tx := s.txs[t];
      Statement(dates, s.db, tx).None? <==>
        exists k <- s.db.msgs ::
          s.db.msgs[k].vodId == Live(tx.start) && (s.db.msgs[k].channel != tx.channel || k in tx.after)
  {
    var tx := s.txs[t];
    assert TxInv(dates, s.db, tx);
    forall k <- s.db.msgs
      ensures Seen(s.db, tx, k).vodId == Live(tx.start) <==>
        s.db.msgs[k].vodId == Live(tx.start) && (s.db.msgs[k].channel != tx.channel || k in tx.after)
    {
      assert RowOk(dates, tx, k, s.db.msgs[k]);
    }
  }

  // ---- Whole histories ---------------------------------------------------------------------

  /** A message is not lost or altered, except that it may move once from a placeholder to a real VOD; then its
      relative time is shifted by the difference of their dates, or not at all if it is one of the skewed ones. */
  ghost predicate MsgPreserved(dates: string -> int, k: nat, m: Msg, m': Msg, skewed: set<nat>, skewed': set<nat>) {
    && m'.channel == m.channel && m'.abs == m.abs
    && (m.vodId.Real? ==> m' == m && (k in skewed' <==> k in skewed))
    && (m'.vodId == m.vodId ==> m'.rel == m.rel)
    && (m'.vodId != m.vodId ==>
          && m'.vodId.Real?
          && m'.rel == if k in skewed' then m.rel else m.rel - (DateOf(dates, m'.vodId) - DateOf(dates, m.vodId)))
  }

  ghost predicate Preserved(dates: string -> int, s: State, s': State) {
    forall k <- s.db.msgs ::
      k in s'.db.msgs && MsgPreserved(dates, k, s.db.msgs[k], s'.db.msgs[k], s.skewed, s'.skewed)
  }

  lemma CommitPreservesMsg(dates: string -> int, s: State, t: nat, k: nat)
    requires Inv(dates, s) && t in s.txs && s.txs[t].stage.Deleted? && k in s.db.msgs
    ensures var s' := Apply(dates, s, Commit(t));
      k in s'.db.msgs && MsgPreserved(dates, k, s.db.msgs[k], s'.db.msgs[k], s.skewed, s'.skewed)
  {
    var tx := s.txs[t];
    assert TxInv(dates, s.db, tx) && MsgOk(dates, k, s.db.msgs[k], s.skewed);
    if k in tx.msgs {
      FinalVersion(dates, s.db, tx, k);
      NoShiftWithoutDelta(dates, s.db, tx, k);
    }
  }

  /** Only a recording and a commit change the committed messages. */
  lemma QuietSteps(dates: string -> int, s: State, step: Step)
    requires !step.Commit? && !step.Record?
    ensures Apply(dates, s, step).db.msgs == s.db.msgs
  {
  }

  lemma StepPreserves(dates: string -> int, s: State, step: Step)
    requires Inv(dates, s)
    ensures Preserved(dates, s, Apply(dates, s, step))
  {
    var s' := Apply(dates, s, step);
    if step.Commit? && step.t in s.txs && s.txs[step.t].stage.Deleted? {
      forall k <- s.db.msgs
        ensures k in s'.db.msgs && MsgPreserved(dates, k, s.db.msgs[k], s'.db.msgs[k], s.skewed, s'.skewed)
      {
        CommitPreservesMsg(dates, s, step.t, k);
      }
    } else {
      OthersSkewNothing(dates, s, step);
      if !step.Commit? && !step.Record? {
        QuietSteps(dates, s, step);
      }
    }
  }

  lemma PreservedTwice(dates: string -> int, s: State, s1: State, s2: State)
    requires Preserved(dates, s, s1) && Preserved(dates, s1, s2)
    ensures Preserved(dates, s, s2)
  {
    forall k <- s.db.msgs
      ensures k in s2.db.msgs && MsgPreserved(dates, k, s.db.msgs[k], s2.db.msgs[k], s.skewed, s2.skewed)
    {
      assert MsgPreserved(dates, k, s.db.msgs[k], s1.db.msgs[k], s.skewed, s1.skewed);
      assert MsgPreserved(dates, k, s1.db.msgs[k], s2.db.msgs[k], s1.skewed, s2.skewed);
    }
  }

  /** Between any two points of a run every message is kept, changes VOD at most once, is shifted at most once and
      then, by the difference of the two dates, and never changes again after that: repeated and overlapping
      reconciliations, with the same or other candidates and with recording resumed in between, leave it alone. */
  lemma {:induction false} EveryMessageMovesAtMostOnce(dates: string -> int, steps: seq<Step>, n: nat)
    requires n <= |steps|
    ensures Preserved(dates, Run(dates, steps[..n]), Run(dates, steps))
  {
    if n == |steps| {
      assert steps[..n] == steps;
    } else {
      var front := steps[..|steps| - 1];
      assert front[..n] == steps[..n];
      EveryMessageMovesAtMostOnce(dates, front, n);
      RunKeepsInv(dates, front);
      StepPreserves(dates, Run(dates, front), steps[|steps| - 1]);
      PreservedTwice(dates, Run(dates, steps[..n]), Run(dates, front), Run(dates, steps));
    }
  }

  // ---- A run that skews --------------------------------------------------------------------

  lemma TwoMore(dates: string -> int, steps: seq<Step>, a: Step, b: Step)
    ensures Run(dates, steps + [a, b]) == Apply(dates, Apply(dates, Run(dates, steps), a), b)
  {
    assert (steps + [a, b])[..|steps| + 1] == steps + [a];
    assert (steps + [a])[..|steps|] == steps;
  }

  function FiveSecondsLate(id: string): int { 5 }

  const PLACEHOLDER := map[Live(0) := VodRow("c", 0)]
  const PUBLISHED := map[Real("v") := VodRow("c", 5)]
  const RECORDED := map[0 := Msg("c", Live(0), 7, 7)]
  const MOVED := map[0 := Msg("c", Real("v"), 7, 7)]

  /** The placeholder Live(0) of channel "c" with the given committed messages, and its reconciliation. */
  function Midway(msgs: map<nat, Msg>, tx: Tx): State {
    State(Db(PLACEHOLDER, msgs), map[0 := tx], {})
  }

  /** That reconciliation before anything has been recorded. */
  function Early(stage: Stage): Tx {
    Tx("c", 0, "v", stage, if stage.Begun? then map[] else PUBLISHED, false, map[], {}, {}, {}, {})
  }

  /** And after a message has been recorded in the gap, and perhaps moved. */
  function Later(stage: Stage, moved: bool): Tx {
    Tx("c", 0, "v", stage, PUBLISHED, stage.Deleted?, if moved then MOVED else map[],
       if stage.Moving? && !moved then {0} else {}, {}, {0}, {})
  }

  lemma BeginMidway()
    ensures Run(FiveSecondsLate, [GoLive("c", 0), Begin(0, "c", 0, "v")]) == Midway(map[], Early(Begun))
  {
    TwoMore(FiveSecondsLate, [], GoLive("c", 0), Begin(0, "c", 0, "v"));
    assert [] + [GoLive("c", 0), Begin(0, "c", 0, "v")] == [GoLive("c", 0), Begin(0, "c", 0, "v")];
  }

  /** The statements of a transaction that is alone. */
  lemma NextMidway(msgs: map<nat, Msg>, tx: Tx, tx': Tx)
    requires Statement(FiveSecondsLate, Db(PLACEHOLDER, msgs), tx) == Some(tx')
    ensures Apply(FiveSecondsLate, Midway(msgs, tx), Next(0)) == Midway(msgs, tx')
  {
    var s := Midway(msgs, tx);
    assert forall id :: VodFree(s, id, 0);
    assert map[0 := tx][0 := tx'] == map[0 := tx'];
  }

  lemma EarlyStatements()
    ensures var db := Db(PLACEHOLDER, map[]);
      && Statement(FiveSecondsLate, db, Early(Begun)) == Some(Early(Ensured))
      && Statement(FiveSecondsLate, db, Early(Ensured)) == Some(Early(Refreshed))
      && Statement(FiveSecondsLate, db, Early(Refreshed)) == Some(Early(Shifting))
      && Statement(FiveSecondsLate, db, Early(Shifting)) == Some(Early(Shifted))
  {
    var db := Db(PLACEHOLDER, map[]);
    assert map[][Real("v") := VodRow("c", 5)] == PUBLISHED;
    assert PUBLISHED[Real("v") := VodRow("c", 5)] == PUBLISHED;
    assert Taken(db, Early(Refreshed)) == {};
  }

  lemma LaterStatements()
    ensures var db := Db(PLACEHOLDER, RECORDED);
      && Statement(FiveSecondsLate, db, Later(Shifted, false)) == Some(Later(Moving, false))
      && Statement(FiveSecondsLate, db, Later(Moving, true)) == Some(Later(Moved, true))
      && Statement(FiveSecondsLate, db, Later(Moved, true)) == Some(Later(Deleted, true))
  {
    var db := Db(PLACEHOLDER, RECORDED);
    assert Taken(db, Later(Shifted, false)) == {0};
    assert forall k <- db.msgs :: Seen(db, Later(Moved, true), k).vodId == Real("v");
  }

  lemma RecordMidway()
    ensures Apply(FiveSecondsLate, Midway(map[], Early(Shifted)), Record(0, "c", 0, 7))
         == Midway(RECORDED, Later(Shifted, false))
  {
    RecordAlone(Early(Shifted), 0, Msg("c", Live(0), 7, 7));
    NoteMidway(Msg("c", Live(0), 7, 7));
    assert map[][0 := Msg("c", Live(0), 7, 7)] == RECORDED;
  }

  lemma RecordAlone(tx: Tx, key: nat, m: Msg)
    requires m.vodId == Live(0) && !tx.deletes
    ensures RecordMsg(Midway(map[], tx), key, m) == Midway(map[][key := m], Noted(tx, key, m))
  {
    NoteAlone(tx, key, m);
  }

  lemma NoteAlone(tx: Tx, key: nat, m: Msg)
    ensures (map u <- map[0 := tx] :: Noted(map[0 := tx][u], key, m)) == map[0 := Noted(tx, key, m)]
  {
  }

  lemma NoteMidway(m: Msg)
    requires m == Msg("c", Live(0), 7, 7)
    ensures Noted(Early(Shifted), 0, m) == Later(Shifted, false)
  {
    assert {} + {0} == {0};
  }

  lemma VisitMidway()
    ensures Apply(FiveSecondsLate, Midway(RECORDED, Later(Moving, false)), Visit(0, 0))
         == Midway(RECORDED, Later(Moving, true))
  {
    var tx := Later(Moving, false);
    assert Visited(FiveSecondsLate, Db(PLACEHOLDER, RECORDED), tx, 0) == Later(Moving, true) by {
      assert {0} - {0} == {} && map[][0 := MOVED[0]] == MOVED;
    }
    assert map[0 := tx][0 := Later(Moving, true)] == map[0 := Later(Moving, true)];
  }

  lemma UpToTheGap() returns (steps: seq<Step>)
    ensures Run(FiveSecondsLate, steps) == Midway(map[], Early(Shifted))
  {
    BeginMidway();
    EarlyStatements();
    steps := [GoLive("c", 0), Begin(0, "c", 0, "v")];
    TwoMore(FiveSecondsLate, steps, Next(0), Next(0));
    NextMidway(map[], Early(Begun), Early(Ensured));
    NextMidway(map[], Early(Ensured), Early(Refreshed));
    steps := steps + [Next(0), Next(0)];
    TwoMore(FiveSecondsLate, steps, Next(0), Next(0));
    NextMidway(map[], Early(Refreshed), Early(Shifting));
    NextMidway(map[], Early(Shifting), Early(Shifted));
    steps := steps + [Next(0), Next(0)];
  }

  lemma ThroughTheGap() returns (steps: seq<Step>)
    ensures Run(FiveSecondsLate, steps) == Midway(RECORDED, Later(Moved, true))
  {
    steps := UpToTheGap();
    LaterStatements();
    TwoMore(FiveSecondsLate, steps, Record(0, "c", 0, 7), Next(0));
    RecordMidway();
    NextMidway(RECORDED, Later(Shifted, false), Later(Moving, false));
    steps := steps + [Record(0, "c", 0, 7), Next(0)];
    TwoMore(FiveSecondsLate, steps, Visit(0, 0), Next(0));
    VisitMidway();
    NextMidway(RECORDED, Later(Moving, true), Later(Moved, true));
    steps := steps + [Visit(0, 0), Next(0)];
  }

  /** A viewer writes at second 7 of a stream; the real VOD starts 5 seconds later than the stream was seen
      to start; the message arrives in the gap and ends up at second 7 instead of 2. */
  lemma RecordingInTheGapSkews() returns (steps: seq<Step>)
    ensures Run(FiveSecondsLate, steps).db.msgs == MOVED
    ensures !Aligned(FiveSecondsLate, MOVED[0])
  {
    steps := ThroughTheGap();
    LaterStatements();
    TwoMore(FiveSecondsLate, steps, Next(0), Commit(0));
    NextMidway(RECORDED, Later(Moved, true), Later(Deleted, true));
    steps := steps + [Next(0), Commit(0)];
    CommitMidway();
  }

  lemma CommitMidway()
    ensures Apply(FiveSecondsLate, Midway(RECORDED, Later(Deleted, true)), Commit(0)).db.msgs == MOVED
  {
    assert RECORDED + MOVED == MOVED;
  }

  // ---- The choice of the real VOD ----------------------------------------------------------

  const TEN_MINUTES := 600

  datatype Published = Published(id: string, date: int)

  predicate InWindow(v: Published, start: int) {
    start - TEN_MINUTES <= v.date <= start + TEN_MINUTES
  }

  /** The loop over the published VODs. The choice is the first of the latest if the latest in the window is
      not before the start of the stream; otherwise it is the first in the window, whatever its date. */
  method ChooseCandidate(vods: seq<Published>, start: int) returns (choice: Option<nat>)
    ensures choice.None? <==> forall i | 0 <= i < |vods| :: !InWindow(vods[i], start)
    ensures choice.Some? ==> choice.value < |vods| && InWindow(vods[choice.value], start)
    ensures choice.Some? ==> start - 600 <= vods[choice.value].date <= start + 600
    ensures choice.Some? && (exists j :: 0 <= j < |vods| && InWindow(vods[j], start) && vods[j].date >= start) ==>
      && (forall j | 0 <= j < |vods| && InWindow(vods[j], start) :: vods[j].date <= vods[choice.value].date)
      && (forall j | 0 <= j < choice.value && InWindow(vods[j], start) :: vods[j].date < vods[choice.value].date)
    ensures choice.Some? && (forall j | 0 <= j < |vods| && InWindow(vods[j], start) :: vods[j].date < start) ==>
      forall j | 0 <= j < choice.value :: !InWindow(vods[j], start)
  {
    choice := None;
    for i := 0 to |vods|
      invariant choice.None? <==> forall j | 0 <= j < i :: !InWindow(vods[j], start)
      invariant choice.Some? ==> choice.value < i && InWindow(vods[choice.value], start)
      invariant choice.Some? && vods[choice.value].date >= start ==>
        && (forall j | 0 <= j < i && InWindow(vods[j], start) :: vods[j].date <= vods[choice.value].date)
        && (forall j | 0 <= j < choice.value && InWindow(vods[j], start) :: vods[j].date < vods[choice.value].date)
      invariant choice.Some? && vods[choice.value].date < start ==>
        && (forall j | 0 <= j < i && InWindow(vods[j], start) :: vods[j].date < start)
        && (forall j | 0 <= j < choice.value :: !InWindow(vods[j], start))
    {
      var v := vods[i];
      if v.date < start - TEN_MINUTES || v.date > start + TEN_MINUTES {
        continue;
      }
      if choice.None? {
        choice := Some(i);
      } else if v.date > vods[choice.value].date && !(v.date < start) {
        choice := Some(i);
      }
    }
  }
}
