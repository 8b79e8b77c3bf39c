/** The upload caps over whole runs. The caps are read once, before an item is picked; downloading and
    uploading may take any time, and other writers keep touching rows. */
module PipelineCaps {
  import opened Common
  import opened Pipeline
  import opened PipelineRows

  /** Which uploads to count: all, those of the back-catalog, or those of one VOD. */
  datatype What = All | Backfill | One(id: string)

  predicate Counts(u: Upload, ch: string, what: What) {
    u.channel == ch && (what.Backfill? ==> u.backfill) && (what.One? ==> u.id == what.id)
  }

  /** Uploads of a channel in (lo, hi]. */
  function Count(uploads: seq<Upload>, ch: string, what: What, lo: int, hi: int): nat {
    if uploads == [] then 0
    else
      var u := uploads[|uploads| - 1];
      Count(uploads[..|uploads| - 1], ch, what, lo, hi) + if Counts(u, ch, what) && lo < u.at <= hi then 1 else 0
  }

  /** The ids of the uploads of a channel after `lo`. */
  function Ids(uploads: seq<Upload>, ch: string, what: What, lo: int): set<string> {
    if uploads == [] then {}
    else
      var front := Ids(uploads[..|uploads| - 1], ch, what, lo);
      var u := uploads[|uploads| - 1];
      if Counts(u, ch, what) && lo < u.at then front + {u.id} else front
  }

  /** An upload is backed by its row: a URL, a write no older than the upload, and for a back-catalog item a
      date that was before the cutoff then. */
  ghost predicate Backed(cfg: Config, s: State, u: Upload) {
    && !IsPlaceholder(u.id) && u.id in s.vods && s.vods[u.id].channel == u.channel && s.vods[u.id].uploaded
    && u.at <= s.vods[u.id].touchedAt && u.at <= s.clock
    && (u.backfill ==> s.vods[u.id].date < u.at - cfg.backfillDays * DAY)
  }

  ghost predicate DistinctIds(uploads: seq<Upload>) {
    forall i, j | 0 <= i < j < |uploads| :: uploads[i].id != uploads[j].id
  }

  ghost predicate UploadsInv(cfg: Config, s: State) {
    && DistinctIds(s.stored)
    && forall i | 0 <= i < |s.stored| :: Backed(cfg, s, s.stored[i])
  }

  // ---- Counting rows counts uploads --------------------------------------------------------

  lemma {:induction false} IdsAreUploads(uploads: seq<Upload>, ch: string, what: What, lo: int, id: string)
    requires id in Ids(uploads, ch, what, lo)
    ensures exists i :: 0 <= i < |uploads| && uploads[i].id == id && Counts(uploads[i], ch, what) && lo < uploads[i].at
  {
    var n := |uploads| - 1;
    if id in Ids(uploads[..n], ch, what, lo) {
      IdsAreUploads(uploads[..n], ch, what, lo, id);
      var i :| 0 <= i < n && uploads[..n][i].id == id && Counts(uploads[..n][i], ch, what) && lo < uploads[..n][i].at;
      assert uploads[i].id == id;
    } else {
      assert uploads[n].id == id;
    }
  }

  lemma {:induction false} CountIsIds(uploads: seq<Upload>, ch: string, what: What, lo: int, hi: int)
    requires DistinctIds(uploads)
    ensures Count(uploads, ch, what, lo, hi) <= |Ids(uploads, ch, what, lo)|
  {
    if uploads != [] {
      var n := |uploads| - 1;
      CountIsIds(uploads[..n], ch, what, lo, hi);
      if uploads[n].id in Ids(uploads[..n], ch, what, lo) {
        IdsAreUploads(uploads[..n], ch, what, lo, uploads[n].id);
      }
    }
  }

  /** The query for all uploads sees at least those recorded after the start of its window. */
  lemma QueryCoversUploads(cfg: Config, s: State, ch: string, hi: int)
    requires UploadsInv(cfg, s)
    ensures Count(s.stored, ch, All, s.clock - DAY, hi) <= |RecentUploads(s, ch)|
  {
    var ids := Ids(s.stored, ch, All, s.clock - DAY);
    CountIsIds(s.stored, ch, All, s.clock - DAY, hi);
    forall id <- ids ensures id in RecentUploads(s, ch) {
      IdsAreUploads(s.stored, ch, All, s.clock - DAY, id);
    }
    SubsetSize(ids, RecentUploads(s, ch));
  }

  /** So does the query for the back-catalog: its cutoff has only moved forward. */
  lemma QueryCoversBackfill(cfg: Config, s: State, ch: string, hi: int)
    requires cfg.Valid() && UploadsInv(cfg, s)
    ensures Count(s.stored, ch, Backfill, s.clock - DAY, hi)
         <= |RecentBackfill(s, ch, s.clock - cfg.backfillDays * DAY)|
  {
    var cutoff := s.clock - cfg.backfillDays * DAY;
    var ids := Ids(s.stored, ch, Backfill, s.clock - DAY);
    CountIsIds(s.stored, ch, Backfill, s.clock - DAY, hi);
    forall id <- ids ensures id in RecentBackfill(s, ch, cutoff) {
      IdsAreUploads(s.stored, ch, Backfill, s.clock - DAY, id);
    }
    SubsetSize(ids, RecentBackfill(s, ch, cutoff));
  }

  lemma {:induction false} CountWider(uploads: seq<Upload>, ch: string, what: What, lo: int, lo': int, hi: int,
      hi': int)
    requires lo' <= lo && forall i | 0 <= i < |uploads| :: uploads[i].at <= hi'
    ensures Count(uploads, ch, what, lo, hi) <= Count(uploads, ch, what, lo', hi')
  {
    if uploads != [] {
      CountWider(uploads[..|uploads| - 1], ch, what, lo, lo', hi, hi');
    }
  }

  // ---- Room --------------------------------------------------------------------------------

  /** A worker that has read the caps may still upload one item: nothing has been stored on its channel since,
      so the window that ends with that upload holds no more than the window it looked at. */
  ghost predicate Room(cfg: Config, s: State, ch: string) {
    var w := WorkerOf(s, ch);
    w.Checked? || w.Busy() ==>
      && w.at <= s.clock
      && Count(s.stored, ch, All, w.at - DAY, s.clock) < cfg.uploadLimit
      && (w.Checked? ==> w.cutoff == w.at - cfg.backfillDays * DAY)
      && ((w.Checked? && !w.throttled) || (w.Busy() && w.item.backfill) ==>
            Count(s.stored, ch, Backfill, w.at - DAY, s.clock) < cfg.backfillLimit)
      && (w.Recording? ==> w.at <= w.done <= s.clock)
      && (w.Busy() && w.item.backfill && w.item.id in s.vods && s.vods[w.item.id].born == w.item.born ==>
            s.vods[w.item.id].date < w.at - cfg.backfillDays * DAY)
  }

  ghost predicate WithinCaps(cfg: Config, uploads: seq<Upload>, ch: string, t: int) {
    && Count(uploads, ch, All, t - DAY, t) <= cfg.uploadLimit
    && Count(uploads, ch, Backfill, t - DAY, t) <= cfg.backfillLimit
  }

  ghost predicate CapsInv(cfg: Config, s: State) {
    && UploadsInv(cfg, s)
    && (forall ch :: Room(cfg, s, ch))
    && (forall ch, t :: WithinCaps(cfg, s.stored, ch, t))
  }

  /** Without a new upload the counts up to now do not change as the clock moves. */
  lemma CountUpToNow(uploads: seq<Upload>, ch: string, what: What, lo: int, now: int, now': int)
    requires now <= now' && forall i | 0 <= i < |uploads| :: uploads[i].at <= now
    ensures Count(uploads, ch, what, lo, now) == Count(uploads, ch, what, lo, now')
  {
    CountWider(uploads, ch, what, lo, lo, now, now');
    CountWider(uploads, ch, what, lo, lo, now', now);
  }

  /** Steps without an upload keep the record backed, whatever else they write. */
  lemma QuietKeepsUploads(cfg: Config, s: State, s': State)
    requires UploadsInv(cfg, s) && Forward(s, s') && s'.stored == s.stored
    ensures UploadsInv(cfg, s')
  {
  }

  lemma QuietKeepsRoom(cfg: Config, s: State, s': State, ch: string)
    requires UploadsInv(cfg, s) && Room(cfg, s, ch) && Forward(s, s') && s'.stored == s.stored && Owns(s, ch)
    requires WorkerOf(s', ch) == WorkerOf(s, ch)
    ensures Room(cfg, s', ch)
  {
    var w := WorkerOf(s, ch);
    if w.Checked? || w.Busy() {
      CountUpToNow(s.stored, ch, All, w.at - DAY, s.clock, s'.clock);
      CountUpToNow(s.stored, ch, Backfill, w.at - DAY, s.clock, s'.clock);
    }
  }

  lemma CheckGivesRoom(cfg: Config, s: State, ch: string)
    requires cfg.Valid() && UploadsInv(cfg, s) && WorkerOf(s, ch).Idle?
    ensures Room(cfg, Apply(cfg, s, CheckCaps(ch)), ch)
  {
    QueryCoversUploads(cfg, s, ch, s.clock);
    QueryCoversBackfill(cfg, s, ch, s.clock);
  }

  lemma SelectKeepsRoom(cfg: Config, s: State, ch: string, batch: seq<string>)
    requires cfg.Valid() && Room(cfg, s, ch)
    ensures Room(cfg, Apply(cfg, s, Select(ch, batch)), ch)
  {
  }

  /** The item, the time of the check and the row's date stay; the phase may change. */
  lemma LaterKeepsRoom(cfg: Config, s: State, s': State, ch: string)
    requires Room(cfg, s, ch) && Owns(s, ch) && Forward(s, s') && s'.stored == s.stored && s'.clock == s.clock
    requires var w, w' := WorkerOf(s, ch), WorkerOf(s', ch);
      w'.Busy() ==> w.Busy() && w'.item == w.item && w'.at == w.at && (w'.Recording? ==> w'.done == s.clock)
    requires !WorkerOf(s', ch).Checked?
    ensures Room(cfg, s', ch)
  {
  }

  /** Outside CheckCaps and Select a worker that moves keeps its item or lets go of it. */
  lemma WorkerMoves(cfg: Config, s: State, step: Step, c: string)
    requires WorkerOf(Apply(cfg, s, step), c) != WorkerOf(s, c) && !step.CheckCaps? && !step.Select?
    ensures Apply(cfg, s, step).clock == s.clock && !WorkerOf(Apply(cfg, s, step), c).Checked?
    ensures var w, w' := WorkerOf(s, c), WorkerOf(Apply(cfg, s, step), c);
      w'.Busy() ==> w.Busy() && w'.item == w.item && w'.at == w.at && (w'.Recording? ==> w'.done == s.clock)
  {
  }

  lemma QuietStepKeepsRoom(cfg: Config, s: State, step: Step, c: string)
    requires cfg.Valid() && UploadsInv(cfg, s) && Room(cfg, s, c) && Owns(s, c)
    requires Forward(s, Apply(cfg, s, step)) && Apply(cfg, s, step).stored == s.stored
    ensures Room(cfg, Apply(cfg, s, step), c)
  {
    var s' := Apply(cfg, s, step);
    if WorkerOf(s', c) == WorkerOf(s, c) {
      QuietKeepsRoom(cfg, s, s', c);
    } else if step.CheckCaps? || step.Select? {
      PickingKeepsRoom(cfg, s, step, c);
    } else {
      WorkerMoves(cfg, s, step, c);
      LaterKeepsRoom(cfg, s, s', c);
    }
  }

  lemma PickingKeepsRoom(cfg: Config, s: State, step: Step, c: string)
    requires cfg.Valid() && UploadsInv(cfg, s) && Room(cfg, s, c) && (step.CheckCaps? || step.Select?)
    requires WorkerOf(Apply(cfg, s, step), c) != WorkerOf(s, c)
    ensures Room(cfg, Apply(cfg, s, step), c)
  {
    if step.CheckCaps? {
      CheckGivesRoom(cfg, s, c);
    } else {
      SelectKeepsRoom(cfg, s, c, step.batch);
    }
  }

  /** A step that does not store an upload. */
  lemma QuietStepKeepsCaps(cfg: Config, s: State, step: Step)
    requires cfg.Valid() && RowsInv(cfg, s) && CapsInv(cfg, s)
    requires Apply(cfg, s, step).stored == s.stored
    ensures CapsInv(cfg, Apply(cfg, s, step))
  {
    StepKeepsRows(cfg, s, step);
    QuietKeepsUploads(cfg, s, Apply(cfg, s, step));
    forall c ensures Room(cfg, Apply(cfg, s, step), c) {
      assert Room(cfg, s, c) && Owns(s, c);
      QuietStepKeepsRoom(cfg, s, step, c);
    }
  }

  // ---- A stored upload ---------------------------------------------------------------------

  lemma CountSnoc(uploads: seq<Upload>, u: Upload, ch: string, what: What, lo: int, hi: int)
    ensures Count(uploads + [u], ch, what, lo, hi)
         == Count(uploads, ch, what, lo, hi) + if Counts(u, ch, what) && lo < u.at <= hi then 1 else 0
  {
    assert (uploads + [u])[..|uploads|] == uploads;
  }

  /** The upload in a worker's hands: a window that contains it began after the window it had checked. */
  lemma UploadWithinCaps(cfg: Config, s: State, ch: string, c: string, t: int)
    requires UploadsInv(cfg, s) && Room(cfg, s, ch) && WithinCaps(cfg, s.stored, c, t)
    ensures WithinCaps(cfg, s.stored + InFlight(ch, WorkerOf(s, ch)), c, t)
  {
    var w := WorkerOf(s, ch);
    if w.Recording? {
      var u := Upload(ch, w.item.id, w.done, w.item.backfill);
      CountSnoc(s.stored, u, c, All, t - DAY, t);
      CountSnoc(s.stored, u, c, Backfill, t - DAY, t);
      if c == ch && w.done <= t {
        CountWider(s.stored, ch, All, t - DAY, w.at - DAY, t, s.clock);
        CountWider(s.stored, ch, Backfill, t - DAY, w.at - DAY, t, s.clock);
      }
    } else {
      assert s.stored + [] == s.stored;
    }
  }

  lemma StoreKeepsBacked(cfg: Config, s: State, ch: string, u: Upload)
    requires cfg.Valid() && RowsInv(cfg, s) && Backed(cfg, s, u)
    requires WorkerOf(s, ch).Recording? && Owns(s, ch)
    ensures u.id != WorkerOf(s, ch).item.id && Backed(cfg, DoProgress(cfg, s, ch, WorkerOf(s, ch), Store), u)
  {
    assert RowOk(cfg, s, u.id);
  }

  lemma StoreBacks(cfg: Config, s: State, ch: string)
    requires cfg.Valid() && RowsInv(cfg, s) && Room(cfg, s, ch) && Owns(s, ch) && WorkerOf(s, ch).Recording?
    ensures var w := WorkerOf(s, ch);
      Backed(cfg, DoProgress(cfg, s, ch, w, Store), Upload(ch, w.item.id, w.done, w.item.backfill))
  {
    assert RowOk(cfg, s, WorkerOf(s, ch).item.id);
  }

  lemma StoreKeepsRecord(cfg: Config, s: State, ch: string)
    requires cfg.Valid() && RowsInv(cfg, s) && CapsInv(cfg, s)
    requires WorkerOf(s, ch).Recording? && WorkerOf(s, ch).item.id in s.vods
    ensures UploadsInv(cfg, DoProgress(cfg, s, ch, WorkerOf(s, ch), Store))
  {
    assert Owns(s, ch) && Room(cfg, s, ch);
    var s' := DoProgress(cfg, s, ch, WorkerOf(s, ch), Store);
    forall i | 0 <= i < |s.stored|
      ensures s.stored[i].id != WorkerOf(s, ch).item.id && Backed(cfg, s', s.stored[i])
    {
      StoreKeepsBacked(cfg, s, ch, s.stored[i]);
    }
    StoreBacks(cfg, s, ch);
    assert |s'.stored| == |s.stored| + 1;
    assert forall i | 0 <= i < |s.stored| :: s'.stored[i] == s.stored[i];
  }

  lemma StoreKeepsRoom(cfg: Config, s: State, ch: string, c: string)
    requires Room(cfg, s, c) && Owns(s, c) && Owns(s, ch)
    requires WorkerOf(s, ch).Recording? && WorkerOf(s, ch).item.id in s.vods
    ensures Room(cfg, DoProgress(cfg, s, ch, WorkerOf(s, ch), Store), c)
  {
    if c != ch && (WorkerOf(s, c).Checked? || WorkerOf(s, c).Busy()) {
      StoreElsewhere(cfg, s, ch, c, All);
      StoreElsewhere(cfg, s, ch, c, Backfill);
    }
  }

  lemma StoreElsewhere(cfg: Config, s: State, ch: string, c: string, what: What)
    requires c != ch && WorkerOf(s, ch).Recording? && WorkerOf(s, ch).item.id in s.vods
    requires WorkerOf(s, c).Checked? || WorkerOf(s, c).Busy()
    ensures var s' := DoProgress(cfg, s, ch, WorkerOf(s, ch), Store);
      && WorkerOf(s', c) == WorkerOf(s, c)
      && Count(s'.stored, c, what, WorkerOf(s, c).at - DAY, s.clock)
         == Count(s.stored, c, what, WorkerOf(s, c).at - DAY, s.clock)
  {
    var w := WorkerOf(s, ch);
    CountSnoc(s.stored, Upload(ch, w.item.id, w.done, w.item.backfill), c, what, WorkerOf(s, c).at - DAY, s.clock);
  }

  lemma StoreKeepsCaps(cfg: Config, s: State, ch: string)
    requires cfg.Valid() && RowsInv(cfg, s) && CapsInv(cfg, s)
    requires WorkerOf(s, ch).Recording? && WorkerOf(s, ch).item.id in s.vods
    ensures CapsInv(cfg, DoProgress(cfg, s, ch, WorkerOf(s, ch), Store))
  {
    var s' := DoProgress(cfg, s, ch, WorkerOf(s, ch), Store);
    StoreKeepsRecord(cfg, s, ch);
    forall c ensures Room(cfg, s', c) {
      assert Room(cfg, s, c) && Owns(s, c) && Owns(s, ch);
      StoreKeepsRoom(cfg, s, ch, c);
    }
    assert Room(cfg, s, ch);
    forall c, t ensures WithinCaps(cfg, s'.stored, c, t) {
      UploadWithinCaps(cfg, s, ch, c, t);
    }
  }

  // ---- No upload goes missing --------------------------------------------------------------

  /** Every upload made is stored, lost, or in a worker's hands. */
  ghost predicate Balanced(s: State, ch: string, what: What, lo: int, hi: int) {
    Count(s.uploads, ch, what, lo, hi) == Count(s.stored, ch, what, lo, hi)
      + Count(s.lost, ch, what, lo, hi) + Count(InFlight(ch, WorkerOf(s, ch)), ch, what, lo, hi)
  }

  lemma CountSum(a: seq<Upload>, u: Upload, ch: string, what: What, lo: int, hi: int)
    ensures Count(a + [u], ch, what, lo, hi) == Count(a, ch, what, lo, hi) + Count([u], ch, what, lo, hi)
    ensures u.channel != ch ==> Count([u], ch, what, lo, hi) == 0
  {
    CountSnoc(a, u, ch, what, lo, hi);
    CountSnoc([], u, ch, what, lo, hi);
    assert [] + [u] == [u];
  }

  /** What a step does to the three records when channel `ch` moves an upload between them. */
  predicate Recorded(s: State, s': State, ch: string) {
    var w, w' := WorkerOf(s, ch), WorkerOf(s', ch);
    && (w.Recording? ==>
          (!w'.Recording? && s'.uploads == s.uploads
           && ((s'.stored == s.stored + InFlight(ch, w) && s'.lost == s.lost)
               || (s'.lost == s.lost + InFlight(ch, w) && s'.stored == s.stored))))
    && (!w.Recording? ==>
          (s'.stored == s.stored && s'.lost == s.lost && s'.uploads == s.uploads + InFlight(ch, w')))
  }

  predicate Unrecorded(s: State, s': State, ch: string) {
    && s'.uploads == s.uploads && s'.stored == s.stored && s'.lost == s.lost
    && InFlight(ch, WorkerOf(s', ch)) == InFlight(ch, WorkerOf(s, ch))
  }

  /** For channel `c` a step of channel `ch` either moves an upload or touches nothing. */
  predicate Moves(s: State, s': State, ch: string, c: string) {
    if c == ch then Recorded(s, s', ch) || Unrecorded(s, s', ch)
    else WorkerOf(s', c) == WorkerOf(s, c) && (Recorded(s, s', ch) || Unrecorded(s, s', ch))
  }

  lemma ProgressMoves(cfg: Config, s: State, ch: string, event: Event, c: string)
    ensures Moves(s, Apply(cfg, s, Progress(ch, event)), ch, c)
  {
    var w := WorkerOf(s, ch);
    if Possible(cfg, w, event) && w.item.id in s.vods {
      assert s.uploads + [] == s.uploads && s.stored + [] == s.stored;
    }
  }

  lemma AbortMoves(cfg: Config, s: State, ch: string, c: string)
    ensures Moves(s, Apply(cfg, s, Abort(ch)), ch, c)
  {
    assert s.uploads + [] == s.uploads && s.lost + [] == s.lost;
  }

  lemma OtherStepsMoveNothing(cfg: Config, s: State, step: Step, c: string)
    requires !step.Progress? && !step.Abort?
    ensures Unrecorded(s, Apply(cfg, s, step), c)
  {
  }

  lemma MovesBalance(s: State, s': State, ch: string, c: string, what: What, lo: int, hi: int)
    requires Moves(s, s', ch, c) && Balanced(s, c, what, lo, hi)
    ensures Balanced(s', c, what, lo, hi)
  {
    var w, w' := WorkerOf(s, ch), WorkerOf(s', ch);
    if w.Recording? && !w'.Recording? {
      HandedOver(s, s', ch, c, what, lo, hi);
    } else if !w.Recording? && w'.Recording? {
      CountSum(s.uploads, Upload(ch, w'.item.id, w'.done, w'.item.backfill), c, what, lo, hi);
    } else if !w.Recording? {
      assert s.uploads + [] == s.uploads;
    }
  }

  lemma HandedOver(s: State, s': State, ch: string, c: string, what: What, lo: int, hi: int)
    requires Moves(s, s', ch, c) && Balanced(s, c, what, lo, hi)
    requires WorkerOf(s, ch).Recording? && !WorkerOf(s', ch).Recording?
    ensures Balanced(s', c, what, lo, hi)
  {
    var w := WorkerOf(s, ch);
    var u := Upload(ch, w.item.id, w.done, w.item.backfill);
    CountSum(s.stored, u, c, what, lo, hi);
    CountSum(s.lost, u, c, what, lo, hi);
  }

  lemma {:induction false} RunBalances(cfg: Config, steps: seq<Step>, c: string, what: What, lo: int, hi: int)
    ensures Balanced(Run(cfg, steps), c, what, lo, hi)
  {
    if steps != [] {
      var front, step := steps[..|steps| - 1], steps[|steps| - 1];
      var s := Run(cfg, front);
      RunBalances(cfg, front, c, what, lo, hi);
      if step.Progress? {
        ProgressMoves(cfg, s, step.channel, step.event, c);
        MovesBalance(s, Run(cfg, steps), step.channel, c, what, lo, hi);
      } else if step.Abort? {
        AbortMoves(cfg, s, step.channel, c);
        MovesBalance(s, Run(cfg, steps), step.channel, c, what, lo, hi);
      } else {
        OtherStepsMoveNothing(cfg, s, step, c);
      }
    }
  }

  // ---- Whole runs --------------------------------------------------------------------------

  lemma StepKeepsCaps(cfg: Config, s: State, step: Step)
    requires cfg.Valid() && RowsInv(cfg, s) && CapsInv(cfg, s)
    ensures CapsInv(cfg, Apply(cfg, s, step))
  {
    if step.Progress? && step.event.Store? && WorkerOf(s, step.channel).Recording?
       && WorkerOf(s, step.channel).item.id in s.vods {
      StoreKeepsCaps(cfg, s, step.channel);
    } else {
      NothingStored(cfg, s, step);
      QuietStepKeepsCaps(cfg, s, step);
    }
  }

  lemma NothingStored(cfg: Config, s: State, step: Step)
    requires !(step.Progress? && step.event.Store? && WorkerOf(s, step.channel).Recording?
               && WorkerOf(s, step.channel).item.id in s.vods)
    ensures Apply(cfg, s, step).stored == s.stored
  {
    assert s.stored + [] == s.stored;
  }

  lemma {:induction false} RunKeepsCaps(cfg: Config, steps: seq<Step>)
    requires cfg.Valid()
    ensures CapsInv(cfg, Run(cfg, steps))
  {
    if steps != [] {
      RunKeepsRows(cfg, steps[..|steps| - 1]);
      RunKeepsCaps(cfg, steps[..|steps| - 1]);
      StepKeepsCaps(cfg, Run(cfg, steps[..|steps| - 1]), steps[|steps| - 1]);
    }
  }

  /** On every run, every window of 24 hours holds at most UPLOAD_DAILY_LIMIT uploads of a channel, and at most
      BACKFILL_UPLOAD_DAILY_LIMIT of items that were back-catalog when they were picked, not counting the uploads
      in that window whose URL was lost because their worker was stopped before it could store it. */
  lemma CapsHoldInEveryWindow(cfg: Config, steps: seq<Step>, ch: string, t: int)
    requires cfg.Valid()
    ensures var s := Run(cfg, steps);
      && Count(s.uploads, ch, All, t - DAY, t) <= cfg.uploadLimit + Count(s.lost, ch, All, t - DAY, t)
      && Count(s.uploads, ch, Backfill, t - DAY, t) <= cfg.backfillLimit + Count(s.lost, ch, Backfill, t - DAY, t)
  {
    var s := Run(cfg, steps);
    RunKeepsCaps(cfg, steps);
    RunBalances(cfg, steps, ch, All, t - DAY, t);
    RunBalances(cfg, steps, ch, Backfill, t - DAY, t);
    assert WithinCaps(cfg, s.stored, ch, t) && Room(cfg, s, ch);
    UploadWithinCaps(cfg, s, ch, ch, t);
    var w := WorkerOf(s, ch);
    if w.Recording? {
      var u := Upload(ch, w.item.id, w.done, w.item.backfill);
      CountSum(s.stored, u, ch, All, t - DAY, t);
      CountSum(s.stored, u, ch, Backfill, t - DAY, t);
    }
  }

  lemma {:induction false} NotAmong(uploads: seq<Upload>, ch: string, id: string, lo: int, hi: int)
    requires forall i | 0 <= i < |uploads| :: uploads[i].id != id
    ensures Count(uploads, ch, One(id), lo, hi) == 0
  {
    if uploads != [] {
      NotAmong(uploads[..|uploads| - 1], ch, id, lo, hi);
    }
  }

  lemma {:induction false} OnceAmong(uploads: seq<Upload>, ch: string, id: string, lo: int, hi: int)
    requires DistinctIds(uploads)
    ensures Count(uploads, ch, One(id), lo, hi) <= 1
  {
    if uploads != [] {
      var n := |uploads| - 1;
      if uploads[n].id == id {
        NotAmong(uploads[..n], ch, id, lo, hi);
      } else {
        OnceAmong(uploads[..n], ch, id, lo, hi);
      }
    }
  }

  /** On every run each VOD is uploaded at most once more than its URL was lost, and a stored URL is in the row,
      which is processed for good. */
  lemma AtMostOneUpload(cfg: Config, steps: seq<Step>, ch: string, id: string, lo: int, hi: int)
    requires cfg.Valid()
    ensures var s := Run(cfg, steps);
      && Count(s.uploads, ch, One(id), lo, hi) <= 1 + Count(s.lost, ch, One(id), lo, hi)
      && (forall i | 0 <= i < |s.stored| ::
            s.stored[i].id in s.vods && s.vods[s.stored[i].id].uploaded && s.vods[s.stored[i].id].processed)
  {
    var s := Run(cfg, steps);
    RunKeepsCaps(cfg, steps);
    RunKeepsRows(cfg, steps);
    RunBalances(cfg, steps, ch, One(id), lo, hi);
    OnceAmong(s.stored, ch, id, lo, hi);
    var w := WorkerOf(s, ch);
    if w.Recording? {
      var u := Upload(ch, w.item.id, w.done, w.item.backfill);
      CountSum([], u, ch, One(id), lo, hi);
      assert [] + [u] == [u];
      NotStoredYet(cfg, s, ch);
      if w.item.id == id {
        NotAmong(s.stored, ch, id, lo, hi);
      }
    }
    forall i | 0 <= i < |s.stored| ensures s.stored[i].id in s.vods && s.vods[s.stored[i].id].processed {
      assert Backed(cfg, s, s.stored[i]) && RowOk(cfg, s, s.stored[i].id);
    }
  }

  /** What a worker has a file of has not been uploaded and stored. */
  lemma NotStoredYet(cfg: Config, s: State, ch: string)
    requires RowsInv(cfg, s) && UploadsInv(cfg, s) && WorkerOf(s, ch).HasFile()
    ensures forall i | 0 <= i < |s.stored| :: s.stored[i].id != WorkerOf(s, ch).item.id
  {
    assert Owns(s, ch);
    forall i | 0 <= i < |s.stored| ensures s.stored[i].id != WorkerOf(s, ch).item.id {
      assert Backed(cfg, s, s.stored[i]) && RowOk(cfg, s, s.stored[i].id);
    }
  }
}
