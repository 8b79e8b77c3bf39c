/** The caps and the selection of backend/vod/processing.go:208-294 taken together, when nothing comes between. */
module Picking {
  import opened Common
  import opened Pipeline

  /** The row that a cycle picks: none while the channel has reached its cap, otherwise the first of the batch
      that the backfill throttle lets through. */
  function Chosen(cfg: Config, s: State, ch: string, batch: seq<string>): Option<string>
    requires IsBatch(cfg, s, ch, batch)
  {
    var cutoff := s.clock - cfg.backfillDays * DAY;
    if |RecentUploads(s, ch)| >= cfg.uploadLimit then None
    else FirstPassing(s, batch, |RecentBackfill(s, ch, cutoff)| >= cfg.backfillLimit, cutoff)
  }

  /** The item that a worker takes for a row. */
  function ItemOf(cfg: Config, s: State, id: string): Item
    requires id in s.vods
  {
    Item(id, s.vods[id].born, s.vods[id].date < s.clock - cfg.backfillDays * DAY, s.vods[id].skipUpload)
  }

  /** The caps and the selection, in one. */
  function Picked(cfg: Config, s: State, ch: string, batch: seq<string>): State
    requires IsBatch(cfg, s, ch, batch)
  {
    if |RecentUploads(s, ch)| >= cfg.uploadLimit then s
    else
      var choice := Chosen(cfg, s, ch, batch);
      if choice.None? then Move(s, ch, Idle)
      else
        var v := s.vods[choice.value];
        Move(s, ch, Waiting(s.clock, ItemOf(cfg, s, choice.value)))
          .(vods := s.vods[choice.value := v.(picks := v.picks + 1)])
  }

  lemma {:induction false} PassingUnaffected(s: State, s': State, batch: seq<string>, throttled: bool, cutoff: int)
    requires s'.vods == s.vods && forall i | 0 <= i < |batch| :: batch[i] in s.vods
    ensures FirstPassing(s', batch, throttled, cutoff) == FirstPassing(s, batch, throttled, cutoff)
  {
    if batch != [] {
      PassingUnaffected(s, s', batch[1..], throttled, cutoff);
    }
  }

  /** The selection query reads only rows and the clock. */
  lemma BatchUnaffected(cfg: Config, s: State, s': State, ch: string, batch: seq<string>)
    requires s'.vods == s.vods && s'.clock == s.clock && IsBatch(cfg, s, ch, batch)
    ensures IsBatch(cfg, s', ch, batch)
  {
    forall id ensures Eligible(cfg, s', ch, id) == Eligible(cfg, s, ch, id) {}
  }

  function CheckedBy(cfg: Config, s: State, ch: string): (w: Worker)
    ensures w.Checked?
  {
    var cutoff := s.clock - cfg.backfillDays * DAY;
    Checked(s.clock, |RecentBackfill(s, ch, cutoff)| >= cfg.backfillLimit, cutoff)
  }

  lemma CapsState(cfg: Config, s: State, ch: string)
    requires WorkerOf(s, ch).Idle? && |RecentUploads(s, ch)| < cfg.uploadLimit
    ensures Apply(cfg, s, CheckCaps(ch)) == Move(s, ch, CheckedBy(cfg, s, ch))
  {
  }

  lemma ChosenFirst(cfg: Config, s: State, ch: string, batch: seq<string>)
    requires IsBatch(cfg, s, ch, batch) && |RecentUploads(s, ch)| < cfg.uploadLimit
    ensures var w := CheckedBy(cfg, s, ch);
      FirstPassing(s, batch, w.throttled, w.cutoff) == Chosen(cfg, s, ch, batch)
  {
  }

  lemma SelectedState(cfg: Config, s: State, ch: string, batch: seq<string>, w: Worker)
    requires IsBatch(cfg, s, ch, batch) && |RecentUploads(s, ch)| < cfg.uploadLimit
    requires w.Checked? && w.at == s.clock && w.cutoff == s.clock - cfg.backfillDays * DAY
    ensures DoSelect(Move(s, ch, w), ch, w, Chosen(cfg, s, ch, batch)) == Picked(cfg, s, ch, batch)
  {
    var w' := WorkerOf(Picked(cfg, s, ch, batch), ch);
    assert s.workers[ch := w][ch := w'] == s.workers[ch := w'];
  }

  lemma SelectRuns(cfg: Config, s: State, ch: string, batch: seq<string>)
    requires IsBatch(cfg, s, ch, batch) && |RecentUploads(s, ch)| < cfg.uploadLimit
    ensures Apply(cfg, Move(s, ch, CheckedBy(cfg, s, ch)), Select(ch, batch)) == Picked(cfg, s, ch, batch)
  {
    var w := CheckedBy(cfg, s, ch);
    var s1 := Move(s, ch, w);
    ChosenFirst(cfg, s, ch, batch);
    BatchUnaffected(cfg, s, s1, ch, batch);
    PassingUnaffected(s, s1, batch, w.throttled, w.cutoff);
    SelectedState(cfg, s, ch, batch, w);
  }

  /** A channel none of whose rows with a URL has changed for 24 hours is held up by neither cap. */
  lemma CapsReopen(cfg: Config, s: State, ch: string, w: Worker)
    requires cfg.Valid() && WorkerOf(s, ch).Idle? && w == WorkerOf(Apply(cfg, s, CheckCaps(ch)), ch)
    requires forall id <- s.vods | s.vods[id].channel == ch && s.vods[id].uploaded ::
      s.vods[id].touchedAt + 24 * 3600 * SECOND <= s.clock
    ensures w == Checked(s.clock, false, s.clock - cfg.backfillDays * (24 * 3600 * SECOND))
  {
    assert RecentUploads(s, ch) == {};
    assert RecentBackfill(s, ch, s.clock - cfg.backfillDays * DAY) == {};
  }

  /** Uploads of VODs that are not older than the cutoff never throttle the back-catalog. */
  lemma RecentVodsDoNotThrottle(cfg: Config, s: State, ch: string, w: Worker)
    requires cfg.Valid() && WorkerOf(s, ch).Idle? && w == WorkerOf(Apply(cfg, s, CheckCaps(ch)), ch)
    requires forall id <- s.vods | s.vods[id].channel == ch && s.vods[id].uploaded ::
      || s.vods[id].touchedAt + 24 * 3600 * SECOND <= s.clock
      || s.vods[id].date >= s.clock - cfg.backfillDays * (24 * 3600 * SECOND)
    ensures w.Checked? ==> !w.throttled
  {
    assert RecentBackfill(s, ch, s.clock - cfg.backfillDays * DAY) == {};
  }

  // ---- Which row is picked -----------------------------------------------------------------

  /** The throttle holds this row back. */
  predicate HeldBack(v: Vod, throttled: bool, cutoff: int) {
    throttled && v.date < cutoff
  }

  /** The row at place i is the first of the batch that is not held back. */
  ghost predicate FirstFree(s: State, batch: seq<string>, throttled: bool, cutoff: int, i: nat)
    requires forall i | 0 <= i < |batch| :: batch[i] in s.vods
  {
    && i < |batch| && !HeldBack(s.vods[batch[i]], throttled, cutoff)
    && forall j | 0 <= j < i :: HeldBack(s.vods[batch[j]], throttled, cutoff)
  }

  /** The row picked is that one; without one nothing is picked. */
  lemma {:induction false} FirstIsPicked(s: State, batch: seq<string>, throttled: bool, cutoff: int) returns (i: nat)
    requires forall i | 0 <= i < |batch| :: batch[i] in s.vods
    ensures var r := FirstPassing(s, batch, throttled, cutoff);
      && (r.None? <==> forall j | 0 <= j < |batch| :: HeldBack(s.vods[batch[j]], throttled, cutoff))
      && (r.Some? ==> FirstFree(s, batch, throttled, cutoff, i) && batch[i] == r.value)
  {
    i := 0;
    if batch != [] {
      var k := FirstIsPicked(s, batch[1..], throttled, cutoff);
      if HeldBack(s.vods[batch[0]], throttled, cutoff) {
        i := k + 1;
        forall j | 1 <= j < |batch| ensures batch[j] == batch[1..][j - 1] {}
      }
    }
  }

  /** A row that the selection query asks for, spelled out. */
  predicate Waits(cfg: Config, s: State, ch: string, id: string) {
    && id in s.vods && s.vods[id].channel == ch && !s.vods[id].processed
    && (!s.vods[id].failed
        || (s.vods[id].retries < cfg.maxAttempts && s.clock - s.vods[id].touchedAt >= cfg.cooldown * SECOND))
  }

  /** ORDER BY priority DESC, date ASC puts a nowhere behind b. */
  predicate NotBehind(a: Vod, b: Vod) {
    a.priority > b.priority || (a.priority == b.priority && a.date <= b.date)
  }

  /** A row of the batch is not behind those that follow it, nor behind any that found no place. */
  lemma BatchIsAhead(cfg: Config, s: State, ch: string, batch: seq<string>, i: nat, id: string)
    requires IsBatch(cfg, s, ch, batch) && i < |batch| && Waits(cfg, s, ch, id)
    requires forall j | 0 <= j <= i :: batch[j] != id
    ensures NotBehind(s.vods[batch[i]], s.vods[id])
  {
    assert Eligible(cfg, s, ch, id);
    var last := |batch| - 1;
    if id in batch {
      var k :| 0 <= k < |batch| && batch[k] == id;
      assert !Precedes(s.vods[batch[k]], s.vods[batch[i]]);
    } else {
      assert !Precedes(s.vods[id], s.vods[batch[last]]);
      assert i < last ==> !Precedes(s.vods[batch[last]], s.vods[batch[i]]);
    }
  }

  lemma FreeRowIsBehind(cfg: Config, s: State, ch: string, batch: seq<string>, throttled: bool, cutoff: int,
      i: nat, id: string)
    requires IsBatch(cfg, s, ch, batch) && FirstFree(s, batch, throttled, cutoff, i)
    requires Waits(cfg, s, ch, id) && !HeldBack(s.vods[id], throttled, cutoff)
    ensures NotBehind(s.vods[batch[i]], s.vods[id]) && Waits(cfg, s, ch, batch[i])
  {
    assert Eligible(cfg, s, ch, batch[i]);
    if id != batch[i] {
      BatchIsAhead(cfg, s, ch, batch, i, id);
    }
  }

  /** What a selection does to the worker. */
  lemma SelectWaits(cfg: Config, s: State, ch: string, batch: seq<string>, w: Worker, w': Worker)
    requires w == WorkerOf(s, ch) && w.Checked? && IsBatch(cfg, s, ch, batch)
    requires w' == WorkerOf(Apply(cfg, s, Select(ch, batch)), ch)
    ensures FirstPassing(s, batch, w.throttled, w.cutoff) == if w'.Waiting? then Some(w'.item.id) else None
    ensures w'.Waiting? || w'.Idle?
    ensures w'.Waiting? && w'.item.id in s.vods ==>
      var v := s.vods[w'.item.id];
      w' == Waiting(w.at, Item(w'.item.id, v.born, v.date < w.cutoff, v.skipUpload))
  {
  }

  /** Selection, by what comes out: the row picked waits and is not held back, and no other such row has a higher
      priority, or the same one and an older date. The worker remembers whether it is old and whether it is marked
      not to be uploaded. */
  lemma PickIsFirstInOrder(cfg: Config, s: State, ch: string, batch: seq<string>, w: Worker, w': Worker, id: string)
    requires w == WorkerOf(s, ch) && w.Checked? && IsBatch(cfg, s, ch, batch)
    requires w' == WorkerOf(Apply(cfg, s, Select(ch, batch)), ch) && w'.Waiting?
    requires Waits(cfg, s, ch, id) && !HeldBack(s.vods[id], w.throttled, w.cutoff)
    ensures var p := w'.item.id;
      && Waits(cfg, s, ch, p) && !HeldBack(s.vods[p], w.throttled, w.cutoff)
      && s.vods[id].priority <= s.vods[p].priority
      && (s.vods[id].priority == s.vods[p].priority ==> s.vods[p].date <= s.vods[id].date)
      && w'.item.backfill == (s.vods[p].date < w.cutoff) && w'.item.skip == s.vods[p].skipUpload
  {
    SelectWaits(cfg, s, ch, batch, w, w');
    var i := FirstIsPicked(s, batch, w.throttled, w.cutoff);
    FreeRowIsBehind(cfg, s, ch, batch, w.throttled, w.cutoff, i, id);
  }

  /** An unthrottled selection picks nothing only if no row waits. */
  lemma NothingIsOverlooked(cfg: Config, s: State, ch: string, batch: seq<string>, w: Worker, w': Worker, id: string)
    requires w == WorkerOf(s, ch) && w.Checked? && !w.throttled && IsBatch(cfg, s, ch, batch)
    requires w' == WorkerOf(Apply(cfg, s, Select(ch, batch)), ch)
    ensures w'.Idle? ==> !Waits(cfg, s, ch, id)
  {
    SelectWaits(cfg, s, ch, batch, w, w');
    var _ := FirstIsPicked(s, batch, false, w.cutoff);
    assert Waits(cfg, s, ch, id) ==> Eligible(cfg, s, ch, id);
    assert batch != [] ==> !HeldBack(s.vods[batch[0]], false, w.cutoff);
  }

  /** One step after the other, they do what they do together. */
  lemma PickRuns(cfg: Config, s: State, ch: string, batch: seq<string>)
    requires WorkerOf(s, ch).Idle? && IsBatch(cfg, s, ch, batch)
    ensures RunFrom(cfg, s, [CheckCaps(ch), Select(ch, batch)]) == Picked(cfg, s, ch, batch)
  {
    RunTwo(cfg, s, CheckCaps(ch), Select(ch, batch));
    if |RecentUploads(s, ch)| < cfg.uploadLimit {
      CapsState(cfg, s, ch);
      SelectRuns(cfg, s, ch, batch);
    }
  }
}
