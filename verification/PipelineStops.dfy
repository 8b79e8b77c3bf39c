/** What it costs to stop a worker between an upload and the write of its URL (backend/vod/processing.go:439-477):
    when a VOD is uploaded twice, and by how much the caps can be exceeded. */
module PipelineStops {
  import opened Common
  import opened Pipeline
  import opened PipelineRows
  import opened PipelineCaps
  import opened Picking
  import opened PipelineExamples

  /** A worker is stopped, by a cancelled context or a crash, after it has uploaded this VOD and before it has
      written the URL. */
  predicate CutsOff(s: State, step: Step, ch: string, id: string) {
    step == Abort(ch) && WorkerOf(s, ch).Recording? && WorkerOf(s, ch).item.id == id
  }

  /** A worker uploads this VOD. */
  predicate UploadsVod(s: State, step: Step, ch: string, id: string) {
    step == Progress(ch, UploadEnds(true)) && WorkerOf(s, ch).Uploading? && WorkerOf(s, ch).item.id == id
  }

  /** The run has cut off an upload of this VOD. */
  predicate HasCutOff(cfg: Config, steps: seq<Step>, ch: string, id: string) {
    steps != [] &&
    (HasCutOff(cfg, steps[..|steps| - 1], ch, id)
     || CutsOff(Run(cfg, steps[..|steps| - 1]), steps[|steps| - 1], ch, id))
  }

  /** The run uploads this VOD after it has cut off an upload of it. */
  predicate UploadsAgain(cfg: Config, steps: seq<Step>, ch: string, id: string) {
    steps != [] &&
    (UploadsAgain(cfg, steps[..|steps| - 1], ch, id)
     || (HasCutOff(cfg, steps[..|steps| - 1], ch, id)
         && UploadsVod(Run(cfg, steps[..|steps| - 1]), steps[|steps| - 1], ch, id)))
  }

  // ---- A single upload ---------------------------------------------------------------------

  /** The instant of an upload lies within the run. */
  predicate InTime(s: State, ch: string) {
    0 <= s.clock && (WorkerOf(s, ch).Recording? ==> 0 <= WorkerOf(s, ch).done <= s.clock)
  }

  lemma StepInTime(cfg: Config, s: State, step: Step, ch: string)
    requires InTime(s, ch)
    ensures InTime(Apply(cfg, s, step), ch) && s.clock <= Apply(cfg, s, step).clock
  {
  }

  lemma {:induction false} RunInTime(cfg: Config, steps: seq<Step>, ch: string)
    ensures InTime(Run(cfg, steps), ch)
  {
    if steps != [] {
      RunInTime(cfg, steps[..|steps| - 1], ch);
      StepInTime(cfg, Run(cfg, steps[..|steps| - 1]), steps[|steps| - 1], ch);
    }
  }

  /** What a step adds to the lost uploads of a VOD. */
  lemma StepLoses(cfg: Config, s: State, step: Step, ch: string, id: string, lo: int, hi: int)
    requires InTime(s, ch) && lo < 0 && s.clock <= hi
    ensures Count(Apply(cfg, s, step).lost, ch, One(id), lo, hi)
         == Count(s.lost, ch, One(id), lo, hi) + if CutsOff(s, step, ch, id) then 1 else 0
  {
    if step.Abort? && WorkerOf(s, step.channel).Recording? {
      var w := WorkerOf(s, step.channel);
      CountSnoc(s.lost, Upload(step.channel, w.item.id, w.done, w.item.backfill), ch, One(id), lo, hi);
    } else {
      assert s.lost + [] == s.lost;
    }
  }

  lemma {:induction false} CutOffIsLost(cfg: Config, steps: seq<Step>, ch: string, id: string, lo: int, hi: int)
    requires lo < 0 && Run(cfg, steps).clock <= hi
    ensures Count(Run(cfg, steps).lost, ch, One(id), lo, hi) > 0 <==> HasCutOff(cfg, steps, ch, id)
  {
    if steps != [] {
      var front := steps[..|steps| - 1];
      RunInTime(cfg, front, ch);
      StepInTime(cfg, Run(cfg, front), steps[|steps| - 1], ch);
      CutOffIsLost(cfg, front, ch, id, lo, hi);
      StepLoses(cfg, Run(cfg, front), steps[|steps| - 1], ch, id, lo, hi);
    }
  }

  /** What a step adds to the uploads of a VOD. */
  lemma StepUploads(cfg: Config, s: State, step: Step, ch: string, id: string, lo: int, hi: int)
    requires InTime(s, ch) && lo < 0 && s.clock <= hi && RowsInv(cfg, s)
    ensures Count(Apply(cfg, s, step).uploads, ch, One(id), lo, hi)
         == Count(s.uploads, ch, One(id), lo, hi) + if UploadsVod(s, step, ch, id) then 1 else 0
  {
    if step.Progress? && step.event == UploadEnds(true) && WorkerOf(s, step.channel).Uploading? {
      var w := WorkerOf(s, step.channel);
      assert Owns(s, step.channel);
      CountSnoc(s.uploads, Upload(step.channel, w.item.id, s.clock, w.item.backfill), ch, One(id), lo, hi);
    } else {
      NoUpload(cfg, s, step);
    }
  }

  lemma NoUpload(cfg: Config, s: State, step: Step)
    requires !(step.Progress? && step.event == UploadEnds(true) && WorkerOf(s, step.channel).Uploading?)
    ensures Apply(cfg, s, step).uploads == s.uploads
  {
    assert s.uploads + [] == s.uploads;
  }

  /** Whoever is about to upload a VOD has only lost uploads of it behind him. */
  lemma OnlyLostBefore(cfg: Config, steps: seq<Step>, ch: string, id: string, lo: int, hi: int)
    requires cfg.Valid() && WorkerOf(Run(cfg, steps), ch).Uploading? && WorkerOf(Run(cfg, steps), ch).item.id == id
    ensures Count(Run(cfg, steps).uploads, ch, One(id), lo, hi) == Count(Run(cfg, steps).lost, ch, One(id), lo, hi)
  {
    RunKeepsRows(cfg, steps);
    RunKeepsCaps(cfg, steps);
    RunBalances(cfg, steps, ch, One(id), lo, hi);
    NotStoredYet(cfg, Run(cfg, steps), ch);
    NotAmong(Run(cfg, steps).stored, ch, id, lo, hi);
  }

  /** A VOD is uploaded at most once, over the whole run, exactly if no worker uploads it after another one was
      stopped between an upload of it and the write of its URL. */
  lemma {:induction false} SingleUploadIff(cfg: Config, steps: seq<Step>, ch: string, id: string, lo: int, hi: int)
    requires cfg.Valid() && lo < 0 && Run(cfg, steps).clock <= hi
    ensures Count(Run(cfg, steps).uploads, ch, One(id), lo, hi) <= 1 <==> !UploadsAgain(cfg, steps, ch, id)
  {
    if steps != [] {
      var front, step := steps[..|steps| - 1], steps[|steps| - 1];
      var s := Run(cfg, front);
      RunInTime(cfg, front, ch);
      StepInTime(cfg, s, step, ch);
      RunKeepsRows(cfg, front);
      SingleUploadIff(cfg, front, ch, id, lo, hi);
      StepUploads(cfg, s, step, ch, id, lo, hi);
      if UploadsVod(s, step, ch, id) {
        OnlyLostBefore(cfg, front, ch, id, lo, hi);
        CutOffIsLost(cfg, front, ch, id, lo, hi);
      }
    }
  }

  // ---- How much too much -------------------------------------------------------------------

  /** How many uploads the run has cut off. */
  function Cuts(cfg: Config, steps: seq<Step>): nat {
    if steps == [] then 0
    else
      var s, step := Run(cfg, steps[..|steps| - 1]), steps[|steps| - 1];
      Cuts(cfg, steps[..|steps| - 1]) + if step.Abort? && WorkerOf(s, step.channel).Recording? then 1 else 0
  }

  lemma StepCuts(cfg: Config, s: State, step: Step)
    ensures |Apply(cfg, s, step).lost|
         == |s.lost| + if step.Abort? && WorkerOf(s, step.channel).Recording? then 1 else 0
  {
  }

  lemma {:induction false} CutsAreLost(cfg: Config, steps: seq<Step>)
    ensures |Run(cfg, steps).lost| == Cuts(cfg, steps)
  {
    if steps != [] {
      CutsAreLost(cfg, steps[..|steps| - 1]);
      StepCuts(cfg, Run(cfg, steps[..|steps| - 1]), steps[|steps| - 1]);
    }
  }

  lemma {:induction false} CountAtMostAll(uploads: seq<Upload>, ch: string, what: What, lo: int, hi: int)
    ensures Count(uploads, ch, what, lo, hi) <= |uploads|
  {
    if uploads != [] {
      CountAtMostAll(uploads[..|uploads| - 1], ch, what, lo, hi);
    }
  }

  /** The uploads in the 24 hours up to t. */
  function Window(cfg: Config, steps: seq<Step>, ch: string, what: What, t: int): nat {
    Count(Run(cfg, steps).uploads, ch, what, t - DAY, t)
  }

  /** On every run that cuts off at most m uploads, every window of every channel holds at most so many. */
  ghost predicate AlwaysWithin(cfg: Config, m: nat, what: What, limit: int) {
    forall steps, ch, t | Cuts(cfg, steps) <= m :: Window(cfg, steps, ch, what, t) <= limit
  }

  /** What the configuration lets through without any stop. */
  function Cap(cfg: Config, what: What): int {
    match what
    case All => cfg.uploadLimit
    case Backfill => if cfg.backfillLimit < cfg.uploadLimit then cfg.backfillLimit else cfg.uploadLimit
    case One(_) => 1
  }

  lemma {:induction false} BackfillIsSome(uploads: seq<Upload>, ch: string, lo: int, hi: int)
    ensures Count(uploads, ch, Backfill, lo, hi) <= Count(uploads, ch, All, lo, hi)
  {
    if uploads != [] {
      BackfillIsSome(uploads[..|uploads| - 1], ch, lo, hi);
    }
  }

  lemma AtMostCapAndCuts(cfg: Config, steps: seq<Step>, ch: string, what: What, t: int)
    requires cfg.Valid()
    ensures Window(cfg, steps, ch, what, t) <= Cap(cfg, what) + Cuts(cfg, steps)
  {
    var s := Run(cfg, steps);
    CutsAreLost(cfg, steps);
    CountAtMostAll(s.lost, ch, what, t - DAY, t);
    if what.One? {
      AtMostOneUpload(cfg, steps, ch, what.id, t - DAY, t);
    } else {
      CapsHoldInEveryWindow(cfg, steps, ch, t);
      BackfillIsSome(s.uploads, ch, t - DAY, t);
      CountAtMostAll(s.lost, ch, All, t - DAY, t);
    }
  }

  // ---- And no less -------------------------------------------------------------------------

  /** At instant 0 channel "c" has uploaded and stored k VODs of this date, and one more is waiting. */
  ghost predicate OneWaits(s: State, date: int, k: nat) {
    && s.clock == 0 && WorkerOf(s, "c").Idle? && s.slots == 0
    && Name(k + 1) in s.vods && IsNew(s.vods[Name(k + 1)], date)
    && (forall id <- s.vods | id != Name(k + 1) :: IsDone(s.vods[id], date))
    && (forall id <- s.vods :: |id| <= k + 1)
    && |s.vods| == k + 1
  }

  predicate IsNew(v: Vod, date: int) {
    && v.channel == "c" && v.date == date && v.priority == 0
    && !v.processed && !v.failed && !v.uploaded && !v.skipUpload
  }

  predicate IsDone(v: Vod, date: int) {
    v.channel == "c" && v.date == date && v.processed && v.uploaded && v.touchedAt == 0
  }

  /** The cap and, for old VODs, the throttle let one more through. */
  predicate HasRoom(cfg: Config, date: int, k: nat) {
    k < cfg.uploadLimit && (date < -cfg.backfillDays * DAY ==> k < cfg.backfillLimit)
  }

  lemma RecentOnes(s: State, date: int, k: nat, cutoff: int)
    requires OneWaits(s, date, k)
    ensures |RecentUploads(s, "c")| == k && |RecentBackfill(s, "c", cutoff)| <= k
  {
    assert RecentUploads(s, "c") == s.vods.Keys - {Name(k + 1)};
    SubsetSize(RecentBackfill(s, "c", cutoff), RecentUploads(s, "c"));
  }

  lemma OnlyOneWaits(cfg: Config, s: State, date: int, k: nat)
    requires cfg.Valid() && OneWaits(s, date, k)
    ensures IsBatch(cfg, s, "c", [Name(k + 1)])
  {
    forall id ensures Eligible(cfg, s, "c", id) <==> id == Name(k + 1) {}
  }

  lemma WaitingIsReady(cfg: Config, s: State, date: int, k: nat)
    requires cfg.Valid() && cfg.uploadsEnabled && OneWaits(s, date, k) && HasRoom(cfg, date, k)
    ensures Ready(cfg, s, "c", Name(k + 1))
  {
    RecentOnes(s, date, k, s.clock - cfg.backfillDays * DAY);
    OnlyOneWaits(cfg, s, date, k);
    assert Name(k + 1)[0] == 'x';
  }

  /** The uploads so far, all at instant 0. */
  ghost predicate Uploaded(s: State, what: What, n: nat) {
    Count(s.uploads, "c", what, -DAY, 0) == n
  }

  /** Which uploads of VODs of this date, the first of them Name(1), a selection takes. */
  predicate Takes(cfg: Config, date: int, what: What, id: string) {
    (what.Backfill? ==> date < -cfg.backfillDays * DAY) && (what.One? ==> what.id == id)
  }

  lemma UploadCounts(cfg: Config, s: State, date: int, k: nat, what: What, n: nat)
    requires OneWaits(s, date, k) && Uploaded(s, what, n) && Takes(cfg, date, what, Name(k + 1))
    ensures Count(s.uploads + [UploadOf(cfg, s, "c", Name(k + 1))], "c", what, -DAY, 0) == n + 1
  {
    CountSnoc(s.uploads, UploadOf(cfg, s, "c", Name(k + 1)), "c", what, -DAY, 0);
  }

  lemma CutOffWaits(cfg: Config, s: State, date: int, k: nat)
    requires OneWaits(s, date, k)
    ensures OneWaits(CutOff(cfg, s, "c", Name(k + 1)), date, k)
  {
    var s' := CutOff(cfg, s, "c", Name(k + 1));
    assert s'.vods.Keys == s.vods.Keys;
  }

  lemma CutOffCounts(cfg: Config, s: State, date: int, k: nat, what: What, n: nat)
    requires OneWaits(s, date, k) && Uploaded(s, what, n) && Takes(cfg, date, what, Name(k + 1))
    ensures var s' := CutOff(cfg, s, "c", Name(k + 1));
      Uploaded(s', what, n + 1) && |s'.lost| == |s.lost| + 1
  {
    UploadCounts(cfg, s, date, k, what, n);
  }

  lemma CutOffIsReached(cfg: Config, front: seq<Step>, date: int)
    requires cfg.Valid() && cfg.uploadsEnabled && HasRoom(cfg, date, 0) && OneWaits(Run(cfg, front), date, 0)
    ensures Run(cfg, front + (UploadSteps("c", Name(1)) + [Abort("c")])) == CutOff(cfg, Run(cfg, front), "c", Name(1))
  {
    var s := Run(cfg, front);
    WaitingIsReady(cfg, s, date, 0);
    CutOffRuns(cfg, s, "c", Name(1));
    RunOn(cfg, INITIAL, front, UploadSteps("c", Name(1)) + [Abort("c")]);
  }

  /** One more upload is cut off. */
  lemma CutOnce(cfg: Config, front: seq<Step>, date: int, what: What, n: nat) returns (steps: seq<Step>)
    requires cfg.Valid() && cfg.uploadsEnabled && HasRoom(cfg, date, 0) && Takes(cfg, date, what, Name(1))
    requires OneWaits(Run(cfg, front), date, 0) && Uploaded(Run(cfg, front), what, n)
    ensures OneWaits(Run(cfg, steps), date, 0) && Uploaded(Run(cfg, steps), what, n + 1)
    ensures |Run(cfg, steps).lost| == |Run(cfg, front).lost| + 1
  {
    CutOffIsReached(cfg, front, date);
    CutOffWaits(cfg, Run(cfg, front), date, 0);
    CutOffCounts(cfg, Run(cfg, front), date, 0, what, n);
    steps := front + (UploadSteps("c", Name(1)) + [Abort("c")]);
  }

  lemma FirstWaits(cfg: Config, date: int)
    ensures OneWaits(Run(cfg, [Discover("c", Name(1), date)]), date, 0)
    ensures Run(cfg, [Discover("c", Name(1), date)]).uploads == []
    ensures Run(cfg, [Discover("c", Name(1), date)]).lost == []
  {
    RunOne(cfg, INITIAL, Discover("c", Name(1), date));
    assert INITIAL.vods.Keys == {};
  }

  lemma {:induction false} CutMany(cfg: Config, date: int, what: What, m: nat) returns (steps: seq<Step>)
    requires cfg.Valid() && cfg.uploadsEnabled && HasRoom(cfg, date, 0) && Takes(cfg, date, what, Name(1))
    ensures OneWaits(Run(cfg, steps), date, 0) && Uploaded(Run(cfg, steps), what, m) && |Run(cfg, steps).lost| == m
  {
    if m == 0 {
      steps := [Discover("c", Name(1), date)];
      FirstWaits(cfg, date);
    } else {
      steps := CutMany(cfg, date, what, m - 1);
      steps := CutOnce(cfg, steps, date, what, m - 1);
    }
  }

  /** The VOD that waits is stored, and the next one turns up. */
  function NextState(cfg: Config, s: State, date: int, k: nat): State
    requires Name(k + 1) in s.vods
  {
    DoDiscover(Finished(cfg, s, "c", Name(k + 1)), "c", Name(k + 2), date)
  }

  lemma NextWaits(cfg: Config, s: State, date: int, k: nat)
    requires OneWaits(s, date, k)
    ensures OneWaits(NextState(cfg, s, date, k), date, k + 1)
    ensures Name(k + 2) !in Finished(cfg, s, "c", Name(k + 1)).vods
  {
    var s1 := Finished(cfg, s, "c", Name(k + 1));
    assert s1.vods.Keys == s.vods.Keys;
    assert NextState(cfg, s, date, k).vods.Keys == s.vods.Keys + {Name(k + 2)};
    assert |Name(k + 1)| == k + 1 && |Name(k + 2)| == k + 2;
  }

  /** One more upload is stored. */
  lemma StoreOnce(cfg: Config, front: seq<Step>, date: int, k: nat, what: What, n: nat) returns (steps: seq<Step>)
    requires cfg.Valid() && cfg.uploadsEnabled && HasRoom(cfg, date, k) && Takes(cfg, date, what, Name(k + 1))
    requires OneWaits(Run(cfg, front), date, k) && Uploaded(Run(cfg, front), what, n)
    ensures OneWaits(Run(cfg, steps), date, k + 1) && Uploaded(Run(cfg, steps), what, n + 1)
    ensures Run(cfg, steps).lost == Run(cfg, front).lost
  {
    var s := Run(cfg, front);
    var store := UploadSteps("c", Name(k + 1)) + [Progress("c", Store), Release("c")];
    var s1 := Finished(cfg, s, "c", Name(k + 1));
    WaitingIsReady(cfg, s, date, k);
    FinishedRuns(cfg, s, "c", Name(k + 1));
    GoOn(cfg, INITIAL, front, s, store, s1);
    NextWaits(cfg, s, date, k);
    RunOne(cfg, s1, Discover("c", Name(k + 2), date));
    GoOn(cfg, INITIAL, front + store, s1, [Discover("c", Name(k + 2), date)], NextState(cfg, s, date, k));
    UploadCounts(cfg, s, date, k, what, n);
    steps := front + store + [Discover("c", Name(k + 2), date)];
  }

  lemma {:induction false} CutAndStore(cfg: Config, date: int, what: What, m: nat, k: nat) returns (steps: seq<Step>)
    requires cfg.Valid() && cfg.uploadsEnabled && k >= 1 && HasRoom(cfg, date, k - 1)
    requires forall i | 1 <= i <= k :: Takes(cfg, date, what, Name(i))
    ensures OneWaits(Run(cfg, steps), date, k) && Uploaded(Run(cfg, steps), what, m + k) && |Run(cfg, steps).lost| == m
  {
    if k == 1 {
      steps := CutMany(cfg, date, what, m);
    } else {
      steps := CutAndStore(cfg, date, what, m, k - 1);
    }
    steps := StoreOnce(cfg, steps, date, k - 1, what, m + k - 1);
  }

  /** Under every configuration with uploads there is, for every m, a run that cuts off m uploads and makes as many
      more in one window as the caps allow, the first m + 1 of one VOD. */
  lemma CapAndCutsAreReached(cfg: Config, what: What, m: nat) returns (steps: seq<Step>)
    requires cfg.Valid() && cfg.uploadsEnabled && (what.One? ==> what.id == Name(1))
    ensures Cuts(cfg, steps) == m && Window(cfg, steps, "c", what, 0) == Cap(cfg, what) + m
  {
    var date := if what.Backfill? then -cfg.backfillDays * DAY - 1 else 0;
    steps := CutAndStore(cfg, date, what, m, Cap(cfg, what));
    CutsAreLost(cfg, steps);
  }

  /** How much a window can hold: on all runs that cut off at most m uploads it holds at most `limit` uploads of a
      channel if and only if limit is at least UPLOAD_DAILY_LIMIT + m, and for the back-catalog with the smaller of
      the two limits. Without any stop the caps hold; a single one is enough to exceed them. */
  lemma WithinIff(cfg: Config, m: nat, what: What, limit: int)
    requires cfg.Valid() && cfg.uploadsEnabled && !what.One?
    ensures AlwaysWithin(cfg, m, what, limit) <==> limit >= Cap(cfg, what) + m
  {
    var most := CapAndCutsAreReached(cfg, what, m);
    assert Cuts(cfg, most) <= m;
    forall steps, ch, t | Cuts(cfg, steps) <= m
      ensures Window(cfg, steps, ch, what, t) <= Cap(cfg, what) + m
    {
      AtMostCapAndCuts(cfg, steps, ch, what, t);
    }
    if AlwaysWithin(cfg, m, what, limit) {
      assert Window(cfg, most, "c", what, 0) <= limit;
    }
  }
}
