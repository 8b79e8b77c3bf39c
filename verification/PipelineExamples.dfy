/** What a cycle of a worker that nobody interferes with does to the tables. */
module PipelineExamples {
  import opened Common
  import opened Pipeline
  import opened PipelineRows
  import opened Picking

  // ---- One cycle ---------------------------------------------------------------------------

  /** The next cycle of the channel picks this row and uploads it. */
  ghost predicate Ready(cfg: Config, s: State, ch: string, id: string) {
    && cfg.Valid() && cfg.uploadsEnabled
    && WorkerOf(s, ch).Idle? && s.slots < cfg.maxConcurrent
    && IsBatch(cfg, s, ch, [id]) && Chosen(cfg, s, ch, [id]) == Some(id)
    && id in s.vods && !s.vods[id].failed && !s.vods[id].uploaded && !s.vods[id].skipUpload && !IsPlaceholder(id)
  }

  /** The state with another row, another worker, a changed number of slots and some more uploads. */
  function With(s: State, ch: string, id: string, v: Vod, w: Worker, slots: nat, uploads: seq<Upload>): State {
    s.(vods := s.vods[id := v], workers := s.workers[ch := w], slots := slots, uploads := s.uploads + uploads)
  }

  /** How a pick changes the row. */
  function PickedVod(v: Vod): Vod {
    v.(picks := v.picks + 1)
  }

  /** The row as the download leaves it. */
  function Fetched(s: State, id: string): Vod
    requires id in s.vods
  {
    PickedVod(s.vods[id]).(touchedAt := s.clock)
  }

  function UploadOf(cfg: Config, s: State, ch: string, id: string): Upload
    requires id in s.vods
  {
    Upload(ch, id, s.clock, ItemOf(cfg, s, id).backfill)
  }

  function UploadSteps(ch: string, id: string): seq<Step> {
    [CheckCaps(ch), Select(ch, [id])]
    + ([Acquire(ch), Progress(ch, Fetch)] + [Progress(ch, Decide), Progress(ch, UploadEnds(true))])
  }

  lemma Overwrite(s: State, ch: string, id: string, v: Vod, w: Worker, v': Vod, w': Worker)
    ensures s.vods[id := v][id := v'] == s.vods[id := v']
    ensures s.workers[ch := w][ch := w'] == s.workers[ch := w']
  {
  }

  lemma PickedWaits(cfg: Config, s: State, ch: string, id: string)
    requires Ready(cfg, s, ch, id)
    ensures RunFrom(cfg, s, [CheckCaps(ch), Select(ch, [id])])
         == With(s, ch, id, PickedVod(s.vods[id]), Waiting(s.clock, ItemOf(cfg, s, id)), s.slots, [])
  {
    PickRuns(cfg, s, ch, [id]);
    Unstored(s);
  }

  lemma WaitingFetches(cfg: Config, s: State, ch: string, id: string)
    requires Ready(cfg, s, ch, id)
    ensures RunFrom(cfg, With(s, ch, id, PickedVod(s.vods[id]), Waiting(s.clock, ItemOf(cfg, s, id)), s.slots, []),
                    [Acquire(ch), Progress(ch, Fetch)])
         == With(s, ch, id, Fetched(s, id), Downloaded(s.clock, ItemOf(cfg, s, id)), s.slots + 1, [])
  {
    var v, item := PickedVod(s.vods[id]), ItemOf(cfg, s, id);
    var w0, w1, w2 := Waiting(s.clock, item), Downloading(s.clock, item, 0), Downloaded(s.clock, item);
    RunTwo(cfg, With(s, ch, id, v, w0, s.slots, []), Acquire(ch), Progress(ch, Fetch));
    Overwrite(s, ch, id, v, w0, v, w1);
    Overwrite(s, ch, id, v, w1, Fetched(s, id), w2);
    Unstored(s);
  }

  /** Adding nothing. */
  lemma Unstored(s: State)
    ensures s.uploads + [] == s.uploads && s.stored + [] == s.stored && s.lost + [] == s.lost
    ensures s.uploads + [] + [] == s.uploads
  {
  }

  lemma FetchedUploads(cfg: Config, s: State, ch: string, id: string)
    requires Ready(cfg, s, ch, id)
    ensures RunFrom(cfg, With(s, ch, id, Fetched(s, id), Downloaded(s.clock, ItemOf(cfg, s, id)), s.slots + 1, []),
                    [Progress(ch, Decide), Progress(ch, UploadEnds(true))])
         == With(s, ch, id, Fetched(s, id), Recording(s.clock, ItemOf(cfg, s, id), s.clock), s.slots + 1,
                 [UploadOf(cfg, s, ch, id)])
  {
    var v, item := Fetched(s, id), ItemOf(cfg, s, id);
    var w0, w1, w2 := Downloaded(s.clock, item), Uploading(s.clock, item), Recording(s.clock, item, s.clock);
    RunTwo(cfg, With(s, ch, id, v, w0, s.slots + 1, []), Progress(ch, Decide), Progress(ch, UploadEnds(true)));
    Overwrite(s, ch, id, v, w0, v, w1);
    Overwrite(s, ch, id, v, w1, v, w2);
    Unstored(s);
  }

  /** A whole cycle up to the upload. */
  lemma UploadRuns(cfg: Config, s: State, ch: string, id: string)
    requires Ready(cfg, s, ch, id)
    ensures RunFrom(cfg, s, UploadSteps(ch, id))
         == With(s, ch, id, Fetched(s, id), Recording(s.clock, ItemOf(cfg, s, id), s.clock), s.slots + 1,
                 [UploadOf(cfg, s, ch, id)])
  {
    var a, b := [CheckCaps(ch), Select(ch, [id])], [Acquire(ch), Progress(ch, Fetch)];
    var c := [Progress(ch, Decide), Progress(ch, UploadEnds(true))];
    RunOn(cfg, s, a, b + c);
    PickedWaits(cfg, s, ch, id);
    RunOn(cfg, RunFrom(cfg, s, a), b, c);
    WaitingFetches(cfg, s, ch, id);
    FetchedUploads(cfg, s, ch, id);
  }

  // ---- Its two ends ------------------------------------------------------------------------

  /** The worker is stopped before it has written the URL. */
  function CutOff(cfg: Config, s: State, ch: string, id: string): State
    requires id in s.vods
  {
    var v := Fetched(s, id);
    var u := UploadOf(cfg, s, ch, id);
    With(s, ch, id, v.(wasted := v.wasted + 1), Idle, s.slots, [u]).(lost := s.lost + [u])
  }

  lemma CutOffRuns(cfg: Config, s: State, ch: string, id: string)
    requires Ready(cfg, s, ch, id)
    ensures RunFrom(cfg, s, UploadSteps(ch, id) + [Abort(ch)]) == CutOff(cfg, s, ch, id)
  {
    UploadRuns(cfg, s, ch, id);
    var s1 := RunFrom(cfg, s, UploadSteps(ch, id));
    RunOn(cfg, s, UploadSteps(ch, id), [Abort(ch)]);
    RunOne(cfg, s1, Abort(ch));
    var v := Fetched(s, id);
    Overwrite(s, ch, id, v, WorkerOf(s1, ch), v.(wasted := v.wasted + 1), Idle);
  }

  /** The worker writes the URL and returns. */
  function Finished(cfg: Config, s: State, ch: string, id: string): State
    requires id in s.vods
  {
    var u := UploadOf(cfg, s, ch, id);
    With(s, ch, id, Fetched(s, id).(processed := true, uploaded := true), Idle, s.slots, [u]).(stored := s.stored + [u])
  }

  lemma StoresAndReturns(cfg: Config, s: State, ch: string, id: string)
    requires Ready(cfg, s, ch, id)
    ensures RunFrom(cfg, With(s, ch, id, Fetched(s, id), Recording(s.clock, ItemOf(cfg, s, id), s.clock), s.slots + 1,
                              [UploadOf(cfg, s, ch, id)]),
                    [Progress(ch, Store), Release(ch)])
         == Finished(cfg, s, ch, id)
  {
    var v, w := Fetched(s, id), Recording(s.clock, ItemOf(cfg, s, id), s.clock);
    var u, v' := UploadOf(cfg, s, ch, id), v.(processed := true, uploaded := true);
    RunTwo(cfg, With(s, ch, id, v, w, s.slots + 1, [u]), Progress(ch, Store), Release(ch));
    Overwrite(s, ch, id, v, w, v', Leaving);
    Overwrite(s, ch, id, v', Leaving, v', Idle);
    assert s.uploads + [u] + [] == s.uploads + [u];
  }

  lemma FinishedRuns(cfg: Config, s: State, ch: string, id: string)
    requires Ready(cfg, s, ch, id)
    ensures RunFrom(cfg, s, UploadSteps(ch, id) + [Progress(ch, Store), Release(ch)]) == Finished(cfg, s, ch, id)
  {
    UploadRuns(cfg, s, ch, id);
    RunOn(cfg, s, UploadSteps(ch, id), [Progress(ch, Store), Release(ch)]);
    StoresAndReturns(cfg, s, ch, id);
  }

  /** A name of every length. */
  function Name(n: nat): (name: string)
    ensures |name| == n && forall i | 0 <= i < n :: name[i] == 'x'
  {
    seq(n, i => 'x')
  }

  lemma GoOn(cfg: Config, s: State, a: seq<Step>, s1: State, b: seq<Step>, s2: State)
    requires RunFrom(cfg, s, a) == s1 && RunFrom(cfg, s1, b) == s2
    ensures RunFrom(cfg, s, a + b) == s2
  {
    RunOn(cfg, s, a, b);
  }
}
