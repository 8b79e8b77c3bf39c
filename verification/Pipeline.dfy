/** The processing pipeline of backend/vod as a state machine: one worker per channel runs `processOnce`
    over the shared vods table and the process-wide download semaphore. Every SQL statement and every
    outcome of an external program is a step; other jobs and handlers may touch rows at any time, and a
    reconciliation of live chat deletes placeholder rows, also under a worker's hands. */
module Pipeline {
  import opened Common

  datatype Config = Config(
    uploadLimit: int, backfillLimit: int, backfillDays: int,
    maxAttempts: int, cooldown: int, // seconds
    maxConcurrent: int, uploadsEnabled: bool
  ) {
    predicate Valid() {
      && uploadLimit >= 1 && backfillLimit >= 1 && backfillDays >= 0
      && maxAttempts >= 1 && cooldown >= 0 && maxConcurrent >= 1
    }
  }

  /** The id of a live stream's placeholder, which names no video that could be downloaded. */
  predicate IsPlaceholder(id: string) {
    |id| >= 5 && id[..5] == "live-"
  }

  /** A row of vods. `failed` says that processing_error is a non-empty string, `uploaded` the same for
      youtube_url, and `touchedAt` is COALESCE(updated_at, created_at). The last four fields record the run
      and are no columns: the row's number among all rows ever inserted, how often it has been picked, how many
      of these picks were cut short (cancelled, crashed, or yt-dlp could not be started), and when an error was
      last stored. */
  datatype Vod = Vod(
    channel: string, date: int, priority: int, skipUpload: bool,
    processed: bool, failed: bool, retries: nat, uploaded: bool, touchedAt: int,
    born: nat, picks: nat, wasted: nat, errorAt: int
  )

  /** The item a worker has picked, with what it knew when it picked it; `born` tells which row it was. */
  datatype Item = Item(id: string, born: nat, backfill: bool, skip: bool)

  /** Where a worker stands. `at` is when it read the upload caps and `done` when the upload was made; only the
      proofs look at them. */
  datatype Worker =
    | Idle
    | Checked(at: int, throttled: bool, cutoff: int)
    | Waiting(at: int, item: Item)
    | Downloading(at: int, item: Item, attempts: nat)
    | Downloaded(at: int, item: Item)
    | Uploading(at: int, item: Item)
    | Recording(at: int, item: Item, done: int)
    | Leaving
  {
    /** The worker is past acquireDownloadSlot and not yet past releaseDownloadSlot. */
    predicate HoldsSlot() { Downloading? || HasFile() || Leaving? }
    predicate HasFile() { Downloaded? || Uploading? || Recording? }
    predicate Busy() { Waiting? || Downloading? || HasFile() }
    predicate WorksOn(id: string, born: nat) { Busy() && item.id == id && item.born == born }
  }

  datatype Upload = Upload(channel: string, id: string, at: int, backfill: bool)

  /** `slots` is the length of the semaphore's channel; `births` are the channels of all rows ever inserted.
      `uploads` records the uploads made, `stored` those whose URL was written to their row, and `lost` those
      whose worker was stopped before it could write it. */
  datatype State = State(
    clock: int, vods: map<string, Vod>, births: seq<string>, workers: map<string, Worker>, slots: nat,
    uploads: seq<Upload>, stored: seq<Upload>, lost: seq<Upload>
  )

  const INITIAL := State(0, map[], [], map[], 0, [], [], [])

  datatype Step =
    | Tick(delta: nat)
    | Discover(channel: string, id: string, date: int)
    | Remove(id: string)
    | Edit(id: string, priority: int, skipUpload: bool)
    | CheckCaps(channel: string)
    | Select(channel: string, batch: seq<string>)
    | Acquire(channel: string)
    | Progress(channel: string, event: Event)
    | Release(channel: string)
    | Abort(channel: string) // the context is cancelled, or the process dies

  /** What happens to a picked item between acquiring and releasing the slot. */
  datatype Event =
    | AttemptFails
    | StartFails
    | GiveUp(authRequired: bool)
    | Fetch
    | Decide
    | UploadEnds(ok: bool)
    | Store

  function WorkerOf(s: State, channel: string): Worker {
    if channel in s.workers then s.workers[channel] else Idle
  }

  // ---- Queries -----------------------------------------------------------------------------

  function RecentUploads(s: State, channel: string): set<string> {
    set id <- s.vods | s.vods[id].channel == channel && s.vods[id].uploaded
      && s.vods[id].touchedAt > s.clock - DAY
  }

  function RecentBackfill(s: State, channel: string, cutoff: int): set<string> {
    set id <- RecentUploads(s, channel) | s.vods[id].date < cutoff
  }

  predicate Eligible(cfg: Config, s: State, channel: string, id: string) {
    && id in s.vods && s.vods[id].channel == channel && !s.vods[id].processed
    && (s.vods[id].failed ==>
          s.vods[id].retries < cfg.maxAttempts && s.clock - s.vods[id].touchedAt >= cfg.cooldown * SECOND)
  }

  /** ORDER BY priority DESC, date ASC */
  predicate Precedes(a: Vod, b: Vod) {
    a.priority > b.priority || (a.priority == b.priority && a.date < b.date)
  }

  const BATCH_SIZE := 20

  /** A possible answer to the selection query: the first BATCH_SIZE eligible rows in order. */
  predicate IsBatch(cfg: Config, s: State, channel: string, batch: seq<string>) {
    && |batch| <= BATCH_SIZE
    && (forall i | 0 <= i < |batch| :: Eligible(cfg, s, channel, batch[i]))
    && (forall i, j | 0 <= i < j < |batch| ::
          batch[i] != batch[j] && !Precedes(s.vods[batch[j]], s.vods[batch[i]]))
    && (forall id <- s.vods | Eligible(cfg, s, channel, id) && id !in batch ::
          |batch| == BATCH_SIZE && !Precedes(s.vods[id], s.vods[batch[|batch| - 1]]))
  }

  predicate Passes(s: State, id: string, throttled: bool, cutoff: int)
    requires id in s.vods
  {
    !throttled || s.vods[id].date >= cutoff
  }

  /** The first row of the batch that the backfill throttle lets through. */
  function FirstPassing(s: State, batch: seq<string>, throttled: bool, cutoff: int): (r: Option<string>)
    requires forall i | 0 <= i < |batch| :: batch[i] in s.vods
    ensures r.Some? ==> r.value in batch && r.value in s.vods && Passes(s, r.value, throttled, cutoff)
    ensures r.None? ==> forall i | 0 <= i < |batch| :: !Passes(s, batch[i], throttled, cutoff)
  {
    if batch == [] then None
    else if Passes(s, batch[0], throttled, cutoff) then Some(batch[0])
    else FirstPassing(s, batch[1..], throttled, cutoff)
  }

  // ---- A picked item -----------------------------------------------------------------------

  /** The event can happen to a worker in this phase. */
  predicate Possible(cfg: Config, w: Worker, event: Event) {
    match event
    case AttemptFails => w.Downloading? && w.attempts < cfg.maxAttempts
    case StartFails => w.Downloading? && w.attempts < cfg.maxAttempts
    case GiveUp(_) => w.Downloading? && w.attempts == cfg.maxAttempts
    case Fetch => w.Downloading? && w.attempts < cfg.maxAttempts && !IsPlaceholder(w.item.id)
    case Decide => w.Downloaded?
    case UploadEnds(_) => w.Uploading?
    case Store => w.Recording?
  }

  /** No upload is needed or wanted. */
  predicate UploadSkipped(cfg: Config, v: Vod, item: Item) {
    v.uploaded || item.skip || !cfg.uploadsEnabled
  }

  function StoreError(v: Vod, now: int): Vod {
    v.(failed := true, touchedAt := now, errorAt := now)
  }

  function MarkProcessed(v: Vod, now: int): Vod {
    v.(processed := true, failed := false, touchedAt := now)
  }

  /** A pick of this very row is cut short. */
  function Waste(v: Vod, item: Item): Vod {
    if v.born == item.born then v.(wasted := v.wasted + 1) else v
  }

  function RowAfter(cfg: Config, v: Vod, w: Worker, event: Event, now: int): Vod
    requires Possible(cfg, w, event)
  {
    match event
    case AttemptFails => v.(retries := v.retries + 1)
    case StartFails => StoreError(if w.attempts == 0 then Waste(v, w.item) else v, now)
    case GiveUp(auth) =>
      StoreError(if auth && cfg.maxAttempts >= 0 then v.(retries := cfg.maxAttempts) else v, now)
    case Fetch => v.(touchedAt := now)
    case Decide => if UploadSkipped(cfg, v, w.item) then MarkProcessed(v, now) else v
    case UploadEnds(ok) => if ok then v else StoreError(v.(retries := v.retries + 1), now)
    case Store => MarkProcessed(v, now).(uploaded := true)
  }

  /** The worker's next phase; `skipped` is the decision about the upload. */
  function WorkerAfter(cfg: Config, w: Worker, event: Event, skipped: bool, now: int): Worker
    requires Possible(cfg, w, event)
  {
    match event
    case AttemptFails => w.(attempts := w.attempts + 1)
    case Fetch => Downloaded(w.at, w.item)
    case Decide => if skipped then Leaving else Uploading(w.at, w.item)
    case UploadEnds(ok) => if ok then Recording(w.at, w.item, now) else Leaving
    case _ => Leaving
  }

  // ---- Steps -------------------------------------------------------------------------------

  function Move(s: State, channel: string, w: Worker): State {
    s.(workers := s.workers[channel := w])
  }

  function DoCheckCaps(cfg: Config, s: State, ch: string): State {
    if |RecentUploads(s, ch)| >= cfg.uploadLimit then s
    else
      var cutoff := s.clock - cfg.backfillDays * DAY;
      Move(s, ch, Checked(s.clock, |RecentBackfill(s, ch, cutoff)| >= cfg.backfillLimit, cutoff))
  }

  function DoSelect(s: State, ch: string, w: Worker, choice: Option<string>): State
    requires w.Checked? && (choice.Some? ==> choice.value in s.vods)
  {
    if choice.None? then Move(s, ch, Idle)
    else
      var id := choice.value;
      var v := s.vods[id];
      s.(vods := s.vods[id := v.(picks := v.picks + 1)],
         workers := s.workers[ch := Waiting(w.at, Item(id, v.born, v.date < w.cutoff, v.skipUpload))])
  }

  /** The upload that a worker has made and not yet stored. */
  function InFlight(ch: string, w: Worker): seq<Upload> {
    if w.Recording? then [Upload(ch, w.item.id, w.done, w.item.backfill)] else []
  }

  function DoProgress(cfg: Config, s: State, ch: string, w: Worker, event: Event): State
    requires Possible(cfg, w, event) && w.item.id in s.vods
  {
    var id := w.item.id;
    var v := s.vods[id];
    var w' := WorkerAfter(cfg, w, event, UploadSkipped(cfg, v, w.item), s.clock);
    s.(vods := s.vods[id := RowAfter(cfg, v, w, event, s.clock)], workers := s.workers[ch := w'],
       uploads := s.uploads + InFlight(ch, w'), stored := s.stored + InFlight(ch, w))
  }

  /** The semaphore's receive; its default branch leaves an empty channel alone. */
  function Received(slots: nat): nat {
    if slots > 0 then slots - 1 else slots
  }

  function DoAbort(s: State, ch: string, w: Worker): State {
    s.(vods := if w.Busy() && w.item.id in s.vods
               then s.vods[w.item.id := Waste(s.vods[w.item.id], w.item)] else s.vods,
       workers := s.workers[ch := Idle], slots := if w.HoldsSlot() then Received(s.slots) else s.slots,
       lost := s.lost + InFlight(ch, w))
  }

  function DoDiscover(s: State, ch: string, id: string, date: int): State {
    s.(vods := s.vods[id := Vod(ch, date, 0, false, false, false, 0, false, s.clock, |s.births|, 0, 0, s.clock)],
       births := s.births + [ch])
  }

  /** One step; a step that is not possible leaves the state alone. */
  function Apply(cfg: Config, s: State, step: Step): State {
    match step
    case Tick(delta) => s.(clock := s.clock + delta)
    case Discover(ch, id, date) => if id in s.vods then s else DoDiscover(s, ch, id, date)
    case Remove(id) => if id in s.vods && IsPlaceholder(id) then s.(vods := s.vods - {id}) else s
    case Edit(id, priority, skip) =>
      if id !in s.vods then s
      else s.(vods := s.vods[id := s.vods[id].(priority := priority, skipUpload := skip, touchedAt := s.clock)])
    case CheckCaps(ch) =>
      if WorkerOf(s, ch).Idle? then DoCheckCaps(cfg, s, ch) else s
    case Select(ch, batch) =>
      var w := WorkerOf(s, ch);
      if w.Checked? && IsBatch(cfg, s, ch, batch)
      then DoSelect(s, ch, w, FirstPassing(s, batch, w.throttled, w.cutoff)) else s
    case Acquire(ch) =>
      var w := WorkerOf(s, ch);
      if w.Waiting? && s.slots < cfg.maxConcurrent
      then Move(s, ch, Downloading(w.at, w.item, 0)).(slots := s.slots + 1) else s
    case Progress(ch, event) =>
      var w := WorkerOf(s, ch);
      if !Possible(cfg, w, event) then s
      else if w.item.id in s.vods then DoProgress(cfg, s, ch, w, event)
      else if w.Downloading? then Move(s, ch, WorkerAfter(cfg, w, event, false, s.clock)) // the row is gone
      else s
    case Release(ch) =>
      if WorkerOf(s, ch).Leaving? then Move(s, ch, Idle).(slots := Received(s.slots)) else s
    case Abort(ch) => DoAbort(s, ch, WorkerOf(s, ch))
  }

  function RunFrom(cfg: Config, s: State, steps: seq<Step>): State {
    if steps == [] then s
    else Apply(cfg, RunFrom(cfg, s, steps[..|steps| - 1]), steps[|steps| - 1])
  }

  function Run(cfg: Config, steps: seq<Step>): State {
    RunFrom(cfg, INITIAL, steps)
  }

  // ---- Runs, piece by piece ----------------------------------------------------------------

  lemma {:induction false} RunOn(cfg: Config, s: State, a: seq<Step>, b: seq<Step>)
    ensures RunFrom(cfg, s, a + b) == RunFrom(cfg, RunFrom(cfg, s, a), b)
  {
    if b == [] {
      assert a + b == a;
    } else {
      var front := b[..|b| - 1];
      assert (a + b)[..|a + b| - 1] == a + front;
      RunOn(cfg, s, a, front);
    }
  }

  lemma RunOne(cfg: Config, s: State, step: Step)
    ensures RunFrom(cfg, s, [step]) == Apply(cfg, s, step)
  {
    assert [step][..0] == [];
    assert RunFrom(cfg, s, []) == s;
  }

  lemma RunTwo(cfg: Config, s: State, a: Step, b: Step)
    ensures RunFrom(cfg, s, [a, b]) == Apply(cfg, Apply(cfg, s, a), b)
  {
    RunOn(cfg, s, [a], [b]);
    RunOne(cfg, s, a);
    RunOne(cfg, Apply(cfg, s, a), b);
    assert [a] + [b] == [a, b];
  }

  lemma RunThree(cfg: Config, s: State, a: Step, b: Step, c: Step)
    ensures RunFrom(cfg, s, [a, b, c]) == Apply(cfg, Apply(cfg, Apply(cfg, s, a), b), c)
  {
    RunTwo(cfg, s, a, b);
    RunOn(cfg, s, [a, b], [c]);
    RunOne(cfg, RunFrom(cfg, s, [a, b]), c);
    assert [a, b] + [c] == [a, b, c];
  }
}
