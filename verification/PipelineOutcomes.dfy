/** What becomes of a picked row (backend/vod/processing.go:294-478 and backend/vod/vod.go:163-320), said of states
    and runs. */
module PipelineOutcomes {
  import opened Common
  import opened Pipeline
  import opened PipelineRows
  import opened Picking

  // ---- Attempts ----------------------------------------------------------------------------

  ghost predicate AttemptsBounded(cfg: Config, s: State) {
    forall ch | WorkerOf(s, ch).Downloading? :: WorkerOf(s, ch).attempts <= cfg.maxAttempts
  }

  lemma StepKeepsAttempts(cfg: Config, s: State, step: Step)
    requires cfg.Valid() && AttemptsBounded(cfg, s)
    ensures AttemptsBounded(cfg, Apply(cfg, s, step))
  {
    var s' := Apply(cfg, s, step);
    forall ch | WorkerOf(s', ch).Downloading? ensures WorkerOf(s', ch).attempts <= cfg.maxAttempts {
      assert WorkerOf(s, ch).Downloading? ==> WorkerOf(s, ch).attempts <= cfg.maxAttempts;
    }
  }

  /** No pick has more failed attempts than DOWNLOAD_MAX_ATTEMPTS. */
  lemma {:induction false} AttemptsAreBounded(cfg: Config, steps: seq<Step>)
    requires cfg.Valid()
    ensures AttemptsBounded(cfg, Run(cfg, steps))
  {
    if steps != [] {
      AttemptsAreBounded(cfg, steps[..|steps| - 1]);
      StepKeepsAttempts(cfg, Run(cfg, steps[..|steps| - 1]), steps[|steps| - 1]);
    }
  }

  /** When all of them have failed, nothing is tried any more. */
  lemma NothingAfterTheLast(cfg: Config, s: State, ch: string, event: Event)
    requires WorkerOf(s, ch).Downloading? && WorkerOf(s, ch).attempts == cfg.maxAttempts && !event.GiveUp?
    ensures Apply(cfg, s, Progress(ch, event)) == s
  {
  }

  /** If the row has been deleted under the worker's hands, its attempts go on and nothing is written. */
  lemma AttemptsGoOnWithoutRow(cfg: Config, s: State, ch: string, w: Worker)
    requires w == WorkerOf(s, ch) && w.Downloading? && w.item.id !in s.vods
    ensures w.attempts < cfg.maxAttempts ==>
      Apply(cfg, s, Progress(ch, AttemptFails)) == Move(s, ch, Downloading(w.at, w.item, w.attempts + 1))
    ensures w.attempts == cfg.maxAttempts ==> Apply(cfg, s, Progress(ch, GiveUp(false))) == Move(s, ch, Leaving)
  {
  }

  // ---- Uploads that nobody wants -----------------------------------------------------------

  /** Workers upload only if uploads are enabled and the row was not marked when it was picked. */
  ghost predicate UploadsWanted(cfg: Config, s: State) {
    && (forall ch | WorkerOf(s, ch).Uploading? || WorkerOf(s, ch).Recording? ::
          cfg.uploadsEnabled && !WorkerOf(s, ch).item.skip)
    && (s.uploads != [] ==> cfg.uploadsEnabled)
  }

  lemma StepKeepsWanted(cfg: Config, s: State, step: Step)
    requires UploadsWanted(cfg, s)
    ensures UploadsWanted(cfg, Apply(cfg, s, step))
  {
    var s' := Apply(cfg, s, step);
    forall ch | WorkerOf(s', ch).Uploading? || WorkerOf(s', ch).Recording?
      ensures cfg.uploadsEnabled && !WorkerOf(s', ch).item.skip
    {
      assert WorkerOf(s, ch).Uploading? || WorkerOf(s, ch).Recording? ==> cfg.uploadsEnabled;
    }
  }

  /** On every run: without YouTube uploads there are none, and a worker that uploads has picked its row unmarked. */
  lemma {:induction false} UploadsAreWanted(cfg: Config, steps: seq<Step>)
    ensures UploadsWanted(cfg, Run(cfg, steps))
  {
    if steps != [] {
      UploadsAreWanted(cfg, steps[..|steps| - 1]);
      StepKeepsWanted(cfg, Run(cfg, steps[..|steps| - 1]), steps[|steps| - 1]);
    }
  }

  /** Once its file is there, a row is uploaded exactly if it has no URL yet, is not marked and uploads are enabled;
      otherwise it is processed at once. */
  lemma UploadIffWanted(cfg: Config, s: State, ch: string, w: Worker)
    requires w == WorkerOf(s, ch) && w.Downloaded? && w.item.id in s.vods
    ensures var v, s' := s.vods[w.item.id], Apply(cfg, s, Progress(ch, Decide));
      if !v.uploaded && !w.item.skip && cfg.uploadsEnabled
      then WorkerOf(s', ch) == Uploading(w.at, w.item) && s'.vods[w.item.id] == v
      else WorkerOf(s', ch) == Leaving && s'.vods[w.item.id].processed && !s'.vods[w.item.id].failed
  {
  }

  // ---- Errors ------------------------------------------------------------------------------

  /** The retries of a row after a failure: a failed upload counts as one, and a download that needs a login uses up
      all of them. */
  function RetriesAfter(cfg: Config, v: Vod, event: Event): int {
    match event
    case UploadEnds(_) => v.retries + 1
    case GiveUp(authRequired) => if authRequired then cfg.maxAttempts else v.retries
    case _ => v.retries
  }

  /** A row whose cycle has ended in an error waits again exactly if retries are left and the cooldown is over; after
      one that needs a login it never does. */
  lemma FailedRowWaitsIff(cfg: Config, s: State, ch: string, w: Worker, event: Event, now: int)
    requires cfg.Valid() && w == WorkerOf(s, ch) && Possible(cfg, w, event)
    requires event.StartFails? || event.GiveUp? || event == UploadEnds(false)
    requires w.item.id in s.vods && s.vods[w.item.id].channel == ch && !s.vods[w.item.id].processed
    ensures var id := w.item.id;
      var s' := Apply(cfg, s, Progress(ch, event));
      && WorkerOf(s', ch) == Leaving && s'.vods[id].failed
      && (Waits(cfg, s'.(clock := now), ch, id) <==>
            RetriesAfter(cfg, s.vods[id], event) < cfg.maxAttempts && now >= s.clock + cfg.cooldown * SECOND)
  {
  }

  // ---- Other jobs --------------------------------------------------------------------------

  /** A reconciliation deletes a placeholder's row and no other, and a user's edit takes effect. */
  lemma OthersTakeEffect(cfg: Config, s: State, id: string, priority: int, skip: bool)
    requires id in s.vods
    ensures Apply(cfg, s, Remove(id)) == if IsPlaceholder(id) then s.(vods := s.vods - {id}) else s
    ensures var v := Apply(cfg, s, Edit(id, priority, skip)).vods[id];
      v == s.vods[id].(priority := priority, skipUpload := skip, touchedAt := s.clock)
  {
  }
}
