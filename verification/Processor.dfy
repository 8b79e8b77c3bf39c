/** One worker's `processOnce` as it runs when nothing interferes, with the download and upload loops.
    Every call is a run of the pipeline's state machine. */
module Processor {
  import opened Common
  import opened Pipeline
  import opened Picking

  /** One run of yt-dlp. */
  datatype Attempt = Succeeds | Fails | NotStarted | Canceled

  /** One call of the uploader. */
  datatype UploadResult = Uploaded | Retriable | InvalidTitle | UploadCanceled

  /** What the programs and services outside answer during one cycle; missing answers are cancellations. `stopped`
      says that the context ends right after a successful upload. */
  datatype World = World(batch: seq<string>, attempts: seq<Attempt>, authRequired: bool, uploads: seq<UploadResult>,
    stopped: bool)

  datatype UploadOutcome = Done | Exhausted | Interrupted

  /** The first answer that is not worth a retry is this one. */
  ghost predicate Decisive(results: seq<UploadResult>, r: UploadResult) {
    exists i :: 0 <= i < |results| && results[i] == r && forall j | 0 <= j < i :: results[j] == Retriable
  }

  /** Of at most n attempts the first that does not simply fail is this one. */
  ghost predicate Breaks(attempts: seq<Attempt>, n: int, a: Attempt) {
    exists i :: 0 <= i < n && i < |attempts| && attempts[i] == a && forall j | 0 <= j < i :: attempts[j] == Fails
  }

  ghost predicate AllFail(attempts: seq<Attempt>, n: int) {
    n <= |attempts| && forall i | 0 <= i < n :: attempts[i] == Fails
  }

  /** The loop over upload attempts; `results` holds at most UPLOAD_MAX_ATTEMPTS answers. */
  method UploadWithRetries(results: seq<UploadResult>) returns (r: UploadOutcome)
    ensures r == Done <==> Decisive(results, Uploaded)
    ensures r == Interrupted <==> Decisive(results, UploadCanceled)
  {
    for attempt := 0 to |results|
      invariant forall j | 0 <= j < attempt :: results[j] == Retriable
    {
      match results[attempt]
      case Uploaded => return Done;
      case InvalidTitle => return Exhausted;
      case UploadCanceled => return Interrupted;
      case Retriable =>
    }
    return Exhausted;
  }

  /** After n failures the loop over at most max attempts ends with this outcome. */
  lemma WhichBreaks(attempts: seq<Attempt>, max: int, outcome: Attempt, n: nat)
    requires n <= |attempts| && forall j | 0 <= j < n :: attempts[j] == Fails
    requires outcome == Fails ==> n == max
    requires outcome != Fails ==> n < max && outcome == if n < |attempts| then attempts[n] else Canceled
    ensures outcome == Succeeds <==> Breaks(attempts, max, Succeeds)
    ensures outcome == NotStarted <==> Breaks(attempts, max, NotStarted)
    ensures outcome == Fails <==> AllFail(attempts, max)
  {
  }

  predicate WantsUpload(cfg: Config, v: Vod, skip: bool) {
    !v.uploaded && !skip && cfg.uploadsEnabled
  }

  /** The upload is made; and it is tried, but in vain. */
  ghost predicate Uploads(cfg: Config, world: World, v: Vod, skip: bool) {
    WantsUpload(cfg, v, skip) && Decisive(world.uploads, Uploaded)
  }

  ghost predicate UploadFails(cfg: Config, world: World, v: Vod, skip: bool) {
    WantsUpload(cfg, v, skip) && !Decisive(world.uploads, Uploaded) && !Decisive(world.uploads, UploadCanceled)
  }

  /** What becomes of a row whose download succeeded; `v` is the row before, `v'` after. */
  ghost predicate PublishResult(cfg: Config, world: World, skip: bool, v: Vod, v': Vod) {
    var stores := Uploads(cfg, world, v, skip) && !world.stopped;
    && v'.uploaded == (v.uploaded || stores)
    && v'.processed == (!WantsUpload(cfg, v, skip) || stores)
    && (v'.processed ==> !v'.failed)
    && (UploadFails(cfg, world, v, skip) ==> v'.failed && v'.retries > v.retries)
  }

  /** What becomes of the row that a cycle has picked and got a slot for. */
  ghost predicate CycleResult(cfg: Config, world: World, skip: bool, v: Vod, v': Vod) {
    if Breaks(world.attempts, cfg.maxAttempts, Succeeds) then PublishResult(cfg, world, skip, v, v')
    else
      && !v'.processed && v'.uploaded == v.uploaded
      && (AllFail(world.attempts, cfg.maxAttempts) ==>
            v'.failed && v'.retries == if world.authRequired then cfg.maxAttempts else v.retries + cfg.maxAttempts)
      && (Breaks(world.attempts, cfg.maxAttempts, NotStarted) ==> v'.failed)
  }

  /** The uploads that a cycle makes, and those of them whose URL it stores. */
  ghost function Made(cfg: Config, world: World, ch: string, item: Item, v: Vod, now: int): seq<Upload> {
    if Breaks(world.attempts, cfg.maxAttempts, Succeeds) && Uploads(cfg, world, v, item.skip)
    then [Upload(ch, item.id, now, item.backfill)] else []
  }

  ghost function Kept(world: World, made: seq<Upload>): seq<Upload> {
    if world.stopped then [] else made
  }

  /** The fields of a row that decide what a cycle does with it. */
  predicate SameRow(v: Vod, v': Vod) {
    v'.processed == v.processed && v'.uploaded == v.uploaded && v'.retries == v.retries && v'.born == v.born
  }

  /** What picking leads to: nothing, or the chosen row waits for a slot. */
  ghost predicate IsPicked(cfg: Config, s: State, ch: string, batch: seq<string>, s': State)
    requires IsBatch(cfg, s, ch, batch)
  {
    var choice := Chosen(cfg, s, ch, batch);
    && s'.slots == s.slots && s'.uploads == s.uploads && s'.stored == s.stored && s'.clock == s.clock
    && (choice.None? ==> WorkerOf(s', ch).Idle? && s'.vods == s.vods)
    && (choice.Some? ==>
          && choice.value in s'.vods && !s.vods[choice.value].processed
          && SameRow(s.vods[choice.value], s'.vods[choice.value])
          && WorkerOf(s', ch) == Waiting(s.clock, ItemOf(cfg, s, choice.value)))
  }

  lemma PickedState(cfg: Config, s: State, ch: string, batch: seq<string>)
    requires WorkerOf(s, ch).Idle? && IsBatch(cfg, s, ch, batch)
    ensures IsPicked(cfg, s, ch, batch, Picked(cfg, s, ch, batch))
  {
    if Chosen(cfg, s, ch, batch).Some? {
      assert Eligible(cfg, s, ch, Chosen(cfg, s, ch, batch).value);
    }
  }

  lemma AcquiredState(cfg: Config, s: State, ch: string, item: Item)
    requires WorkerOf(s, ch) == Waiting(s.clock, item) && s.slots < cfg.maxConcurrent
    ensures var s' := Apply(cfg, s, Acquire(ch));
      && WorkerOf(s', ch) == Downloading(s.clock, item, 0)
      && s'.slots == s.slots + 1 && s'.vods == s.vods && s'.uploads == s.uploads && s'.stored == s.stored
  {
  }

  lemma SameCycle(cfg: Config, world: World, ch: string, item: Item, v: Vod, v0: Vod, v': Vod, now: int)
    requires SameRow(v0, v) && CycleResult(cfg, world, item.skip, v, v')
    ensures CycleResult(cfg, world, item.skip, v0, v')
    ensures Made(cfg, world, ch, item, v, now) == Made(cfg, world, ch, item, v0, now)
  {
  }

  class Cycle {
    const cfg: Config
    const start: State
    var db: State
    var steps: seq<Step>

    constructor (cfg: Config, start: State)
      ensures this.cfg == cfg && this.start == start && db == start && steps == []
    {
      this.cfg, this.start := cfg, start;
      db, steps := start, [];
    }

    /** The steps taken so far are a run of the state machine. */
    ghost predicate Valid()
      reads this
    {
      db == RunFrom(cfg, start, steps)
    }

    /** Runs one step and records it. */
    method Do(step: Step)
      requires Valid()
      modifies this
      ensures Valid() && db == Apply(cfg, old(db), step)
    {
      db := Apply(cfg, db, step);
      steps := steps + [step];
      assert steps[..|steps| - 1] == old(steps);
    }

    /** An event happens to the item that the worker holds. */
    method Happens(ch: string, event: Event)
      requires Valid() && Possible(cfg, WorkerOf(db, ch), event) && WorkerOf(db, ch).item.id in db.vods
      modifies this
      ensures Valid() && db.slots == old(db).slots && db.clock == old(db).clock
      ensures var w := WorkerOf(old(db), ch);
        var v := old(db).vods[w.item.id];
        var w' := WorkerAfter(cfg, w, event, UploadSkipped(cfg, v, w.item), db.clock);
        && db.vods == old(db).vods[w.item.id := RowAfter(cfg, v, w, event, db.clock)]
        && WorkerOf(db, ch) == w'
        && db.uploads == old(db).uploads + InFlight(ch, w') && db.stored == old(db).stored + InFlight(ch, w)
    {
      Do(Progress(ch, event));
    }

    /** The loop over the query's rows. */
    method PickCandidate(batch: seq<string>, throttled: bool, cutoff: int) returns (r: Option<string>)
      requires forall i | 0 <= i < |batch| :: batch[i] in db.vods
      ensures r == FirstPassing(db, batch, throttled, cutoff)
      ensures r.None? <==> forall i | 0 <= i < |batch| :: throttled && db.vods[batch[i]].date < cutoff
      ensures r.Some? ==> exists i ::
        && 0 <= i < |batch| && batch[i] == r.value && !(throttled && db.vods[batch[i]].date < cutoff)
        && forall j | 0 <= j < i :: throttled && db.vods[batch[j]].date < cutoff
    {
      r := None;
      var i := 0;
      while i < |batch|
        invariant 0 <= i <= |batch|
        invariant FirstPassing(db, batch, throttled, cutoff) == FirstPassing(db, batch[i..], throttled, cutoff)
        invariant forall j | 0 <= j < i :: throttled && db.vods[batch[j]].date < cutoff
      {
        if throttled && db.vods[batch[i]].date < cutoff {
          i := i + 1;
          continue;
        }
        return Some(batch[i]);
      }
    }

    /** The worker of `ch` holds a slot for the item in the given phase. */
    ghost predicate Holding(ch: string, item: Item)
      reads this
    {
      && Valid()
      && WorkerOf(db, ch).Busy() && WorkerOf(db, ch).item == item && item.id in db.vods
      && !db.vods[item.id].processed
      && db.slots == start.slots + 1 && Quiet()
    }

    /** Nothing has been uploaded, and no time has passed. */
    ghost predicate Quiet()
      reads this
    {
      db.uploads == start.uploads && db.stored == start.stored && db.clock == start.clock
    }

    /** The slot is still held, but the cycle only has to return. */
    ghost predicate Returning(ch: string, item: Item)
      reads this
    {
      Valid() && WorkerOf(db, ch).Leaving? && item.id in db.vods && db.slots == start.slots + 1
    }

    ghost predicate Returned(ch: string)
      reads this
    {
      Valid() && WorkerOf(db, ch).Idle? && db.slots == start.slots
    }

    /** The loop over download attempts, up to the first that does not simply fail. */
    method TryDownload(ch: string, item: Item, world: World) returns (outcome: Attempt, n: nat)
      requires cfg.Valid() && Holding(ch, item)
      requires WorkerOf(db, ch) == Downloading(WorkerOf(db, ch).at, item, 0)
      modifies this
      ensures Holding(ch, item) && WorkerOf(db, ch) == Downloading(WorkerOf(db, ch).at, item, n)
      ensures db.vods[item.id] == old(db).vods[item.id].(retries := old(db).vods[item.id].retries + n)
      ensures n <= |world.attempts| && forall j | 0 <= j < n :: world.attempts[j] == Fails
      ensures outcome == Fails ==> n == cfg.maxAttempts
      ensures outcome != Fails ==>
        n < cfg.maxAttempts && outcome == if n < |world.attempts| then world.attempts[n] else Canceled
    {
      for attempt := 0 to cfg.maxAttempts
        invariant attempt <= |world.attempts| && forall j | 0 <= j < attempt :: world.attempts[j] == Fails
        invariant Holding(ch, item) && WorkerOf(db, ch) == Downloading(WorkerOf(db, ch).at, item, attempt)
        invariant db.vods[item.id] == old(db).vods[item.id].(retries := old(db).vods[item.id].retries + attempt)
      {
        outcome := if attempt < |world.attempts| then world.attempts[attempt] else Canceled;
        if outcome != Fails {
          return outcome, attempt;
        }
        Happens(ch, AttemptFails);
      }
      return Fails, cfg.maxAttempts;
    }

    /** What follows the loop. */
    method EndDownload(ch: string, item: Item, outcome: Attempt, authRequired: bool)
      requires cfg.Valid() && Holding(ch, item) && WorkerOf(db, ch).Downloading?
      requires if outcome == Fails then WorkerOf(db, ch).attempts == cfg.maxAttempts
               else WorkerOf(db, ch).attempts < cfg.maxAttempts
      requires outcome == Succeeds ==> !IsPlaceholder(item.id)
      modifies this
      ensures outcome == Succeeds ==> Holding(ch, item) && WorkerOf(db, ch).Downloaded?
      ensures outcome == Canceled ==> Returned(ch) && item.id in db.vods
      ensures outcome == Fails || outcome == NotStarted ==> Returning(ch, item) && db.vods[item.id].failed
      ensures Quiet()
      ensures var v, v' := old(db).vods[item.id], db.vods[item.id];
        && !v'.processed && v'.uploaded == v.uploaded
        && v'.retries == if outcome == Fails && authRequired then cfg.maxAttempts else v.retries
    {
      match outcome
      case Succeeds => Happens(ch, Fetch);
      case NotStarted => Happens(ch, StartFails);
      case Canceled => Do(Abort(ch));
      case Fails => Happens(ch, GiveUp(authRequired));
    }

    /** downloadVOD and what follows it. A file comes out exactly if some attempt succeeds before the limit and
        nothing cuts the loop short; otherwise the error is stored, and after the last attempt the row has one
        more retry per attempt, or the limit if the VOD needs a login. No attempt fetches a placeholder. */
    method Download(ch: string, item: Item, world: World) returns (outcome: Attempt)
      requires cfg.Valid() && Holding(ch, item)
      requires WorkerOf(db, ch) == Downloading(WorkerOf(db, ch).at, item, 0)
      requires IsPlaceholder(item.id) ==> Succeeds !in world.attempts
      modifies this
      ensures outcome == Succeeds <==> Breaks(world.attempts, cfg.maxAttempts, Succeeds)
      ensures outcome == NotStarted <==> Breaks(world.attempts, cfg.maxAttempts, NotStarted)
      ensures outcome == Fails <==> AllFail(world.attempts, cfg.maxAttempts)
      ensures outcome == Succeeds ==> Holding(ch, item) && WorkerOf(db, ch).Downloaded?
      ensures outcome == Canceled ==> Returned(ch) && item.id in db.vods
      ensures outcome == Fails || outcome == NotStarted ==> Returning(ch, item) && db.vods[item.id].failed
      ensures Quiet()
      ensures var v, v' := old(db).vods[item.id], db.vods[item.id];
        && !v'.processed && v'.uploaded == v.uploaded
        && (outcome != Fails ==> v'.retries >= v.retries)
        && (outcome == Fails ==>
              v'.retries == if world.authRequired then cfg.maxAttempts else v.retries + cfg.maxAttempts)
    {
      var n;
      outcome, n := TryDownload(ch, item, world);
      WhichBreaks(world.attempts, cfg.maxAttempts, outcome, n);
      EndDownload(ch, item, outcome, world.authRequired);
    }

    /** The upload, and the write of its URL. */
    method UploadFile(ch: string, item: Item, world: World) returns (interrupted: bool)
      requires cfg.Valid() && Holding(ch, item) && WorkerOf(db, ch).Uploading? && !db.vods[item.id].uploaded
      modifies this
      ensures item.id in db.vods && db.clock == start.clock
      ensures var v, v' := old(db).vods[item.id], db.vods[item.id];
        var done, canceled := Decisive(world.uploads, Uploaded), Decisive(world.uploads, UploadCanceled);
        && v'.uploaded == v'.processed == (done && !world.stopped)
        && (v'.processed ==> !v'.failed)
        && (!done && !canceled ==> v'.failed)
        && v'.retries == v.retries + if done || canceled then 0 else 1
      ensures var made := if Decisive(world.uploads, Uploaded)
                          then [Upload(ch, item.id, db.clock, item.backfill)] else [];
        db.uploads == start.uploads + made && db.stored == start.stored + Kept(world, made)
      ensures if interrupted then Returned(ch) else Returning(ch, item)
    {
      var r := UploadWithRetries(world.uploads);
      if r == Interrupted {
        Do(Abort(ch));
        return true;
      }
      Happens(ch, UploadEnds(r == Done));
      if r != Done {
        return false;
      }
      if world.stopped {
        Do(Abort(ch));
        return true;
      }
      Happens(ch, Store);
      return false;
    }

    /** The upload branches of a cycle whose download succeeded. */
    method Publish(ch: string, item: Item, world: World) returns (interrupted: bool)
      requires cfg.Valid() && Holding(ch, item) && WorkerOf(db, ch).Downloaded?
      modifies this
      ensures item.id in db.vods && PublishResult(cfg, world, item.skip, old(db).vods[item.id], db.vods[item.id])
      ensures db.clock == start.clock
      ensures db.vods[item.id].retries == old(db).vods[item.id].retries
        + if UploadFails(cfg, world, old(db).vods[item.id], item.skip) then 1 else 0
      ensures var made := if Uploads(cfg, world, old(db).vods[item.id], item.skip)
                          then [Upload(ch, item.id, db.clock, item.backfill)] else [];
        db.uploads == start.uploads + made && db.stored == start.stored + Kept(world, made)
      ensures if interrupted then Returned(ch) else Returning(ch, item)
    {
      Happens(ch, Decide);
      if WorkerOf(db, ch).Leaving? {
        return false;
      }
      interrupted := UploadFile(ch, item, world);
    }

    /** The caps and the selection: the chosen row, if any, waits for a slot. */
    method Pick(ch: string, batch: seq<string>)
      requires Valid() && WorkerOf(db, ch).Idle? && IsBatch(cfg, db, ch, batch)
      modifies this
      ensures Valid() && IsPicked(cfg, old(db), ch, batch, db)
    {
      PickedState(cfg, db, ch, batch);
      Do(CheckCaps(ch));
      var w := WorkerOf(db, ch);
      if w.Idle? {
        return;
      }
      CapsState(cfg, old(db), ch);
      SelectRuns(cfg, old(db), ch, batch);
      var choice := PickCandidate(batch, w.throttled, w.cutoff);
      Do(Select(ch, batch));
    }

    /** What a cycle does between acquiring and releasing its slot. */
    method Handle(ch: string, item: Item, world: World)
      requires cfg.Valid() && Holding(ch, item)
      requires WorkerOf(db, ch) == Downloading(WorkerOf(db, ch).at, item, 0)
      requires IsPlaceholder(item.id) ==> Succeeds !in world.attempts
      modifies this
      ensures Returned(ch) && item.id in db.vods
      ensures CycleResult(cfg, world, item.skip, old(db).vods[item.id], db.vods[item.id])
      ensures var made := Made(cfg, world, ch, item, old(db).vods[item.id], db.clock);
        db.uploads == start.uploads + made && db.stored == start.stored + Kept(world, made)
    {
      var outcome := Download(ch, item, world);
      if outcome == Canceled {
        return;
      }
      if outcome == Succeeds {
        var interrupted := Publish(ch, item, world);
        if interrupted {
          return;
        }
      }
      Do(Release(ch));
    }

    /** One processing cycle past the circuit breaker. It is a run of the state machine that ends with the
        worker idle and its slot given back on every path. Without a row to pick nothing changes; otherwise the
        row and the uploads are as the outside world's answers demand, unless no slot becomes free. */
    method ProcessOnce(ch: string, world: World)
      requires cfg.Valid() && Valid() && db == start && WorkerOf(db, ch).Idle? && IsBatch(cfg, db, ch, world.batch)
      requires forall id | id in world.batch && IsPlaceholder(id) :: Succeeds !in world.attempts
      modifies this
      ensures Returned(ch)
      ensures Chosen(cfg, start, ch, world.batch).None? ==> db.vods == start.vods && db.uploads == start.uploads
      ensures Chosen(cfg, start, ch, world.batch).Some? && start.slots < cfg.maxConcurrent ==>
        var id := Chosen(cfg, start, ch, world.batch).value;
        var item := ItemOf(cfg, start, id);
        && id in db.vods && CycleResult(cfg, world, item.skip, start.vods[id], db.vods[id])
        && db.uploads == start.uploads + Made(cfg, world, ch, item, start.vods[id], db.clock)
        && db.stored == start.stored + Kept(world, Made(cfg, world, ch, item, start.vods[id], db.clock))
    {
      Pick(ch, world.batch);
      if WorkerOf(db, ch).Idle? {
        return;
      }
      if db.slots >= cfg.maxConcurrent {
        Do(Abort(ch)); // nobody else runs here, so only a cancelled context ends the wait
        return;
      }
      var item := WorkerOf(db, ch).item;
      AcquiredState(cfg, db, ch, item);
      Do(Acquire(ch));
      ghost var v := db.vods[item.id];
      Handle(ch, item, world);
      SameCycle(cfg, world, ch, item, v, start.vods[item.id], db.vods[item.id], db.clock);
    }
  }
}
