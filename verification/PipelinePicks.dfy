/** How often a row can be picked (backend/vod/processing.go:254-258). */
module PipelinePicks {
  import opened Common
  import opened Pipeline
  import opened PipelineRows
  import opened Picking
  import opened PipelineExamples

  // ---- A single row ------------------------------------------------------------------------

  /** The state at instant `clock` with the single row v of channel "c" and its worker. */
  function Alone(clock: int, v: Vod, w: Worker, slots: nat): State {
    State(clock, map["v" := v], ["c"], map["c" := w], slots, [], [], [])
  }

  function NewVod(): Vod {
    Vod("c", 0, 0, false, false, false, 0, false, 0, 0, 0, 0, 0)
  }

  function AloneItem(cfg: Config, clock: int, v: Vod): Item {
    Item("v", v.born, v.date < clock - cfg.backfillDays * DAY, v.skipUpload)
  }

  predicate CanBePicked(cfg: Config, clock: int, v: Vod) {
    && v.channel == "c" && !v.processed && !v.uploaded
    && (v.failed ==> v.retries < cfg.maxAttempts && clock - v.touchedAt >= cfg.cooldown * SECOND)
  }

  lemma AloneIsChosen(cfg: Config, clock: int, v: Vod)
    requires cfg.Valid() && CanBePicked(cfg, clock, v)
    ensures var s := Alone(clock, v, Idle, 0);
      && IsBatch(cfg, s, "c", ["v"]) && |RecentUploads(s, "c")| < cfg.uploadLimit
      && Chosen(cfg, s, "c", ["v"]) == Some("v")
  {
    var s := Alone(clock, v, Idle, 0);
    assert IsBatch(cfg, s, "c", ["v"]);
    assert RecentUploads(s, "c") == {} && RecentBackfill(s, "c", clock - cfg.backfillDays * DAY) == {};
  }

  lemma Replace(v: Vod, w: Worker, v': Vod, w': Worker)
    ensures map["v" := v]["v" := v'] == map["v" := v'] && map["c" := w]["c" := w'] == map["c" := w']
  {
  }

  const FIND := [Discover("c", "v", 0), Abort("c")] // there is nothing to stop yet
  const PICK := [CheckCaps("c"), Select("c", ["v"])]

  lemma FindRuns(cfg: Config)
    ensures Run(cfg, FIND) == Alone(0, NewVod(), Idle, 0)
  {
    RunTwo(cfg, INITIAL, Discover("c", "v", 0), Abort("c"));
    NoUploads();
    assert [] + ["c"] == ["c"];
  }

  lemma AloneIsPicked(cfg: Config, clock: int, v: Vod)
    requires cfg.Valid() && CanBePicked(cfg, clock, v)
    ensures RunFrom(cfg, Alone(clock, v, Idle, 0), PICK)
         == Alone(clock, PickedVod(v), Waiting(clock, AloneItem(cfg, clock, v)), 0)
  {
    AloneIsChosen(cfg, clock, v);
    PickRuns(cfg, Alone(clock, v, Idle, 0), "c", ["v"]);
    Replace(v, Idle, PickedVod(v), Waiting(clock, AloneItem(cfg, clock, v)));
  }

  lemma NoUploads()
    ensures var none: seq<Upload> := []; none + none == none
  {
  }

  lemma AloneAcquires(cfg: Config, clock: int, v: Vod, item: Item)
    requires cfg.Valid()
    ensures Apply(cfg, Alone(clock, v, Waiting(clock, item), 0), Acquire("c"))
         == Alone(clock, v, Downloading(clock, item, 0), 1)
  {
    Replace(v, Waiting(clock, item), v, Downloading(clock, item, 0));
  }

  // ---- A pick that is cut short ------------------------------------------------------------

  /** The row after n picks that were cut short. */
  function CutVod(v: Vod, n: nat): Vod {
    v.(picks := v.picks + n, wasted := v.wasted + n)
  }

  function CutPick(): seq<Step> {
    PICK + [Abort("c")]
  }

  lemma StopPicked(cfg: Config, clock: int, v: Vod, w: Worker)
    requires w.Waiting? && w.item.id == "v" && w.item.born == v.born
    ensures Apply(cfg, Alone(clock, PickedVod(v), w, 0), Abort("c")) == Alone(clock, CutVod(v, 1), Idle, 0)
  {
    Replace(PickedVod(v), w, CutVod(v, 1), Idle);
    NoUploads();
  }

  lemma CutPickRuns(cfg: Config, clock: int, v: Vod)
    requires cfg.Valid() && CanBePicked(cfg, clock, v)
    ensures RunFrom(cfg, Alone(clock, v, Idle, 0), CutPick()) == Alone(clock, CutVod(v, 1), Idle, 0)
  {
    var w := Waiting(clock, AloneItem(cfg, clock, v));
    var s1 := Alone(clock, PickedVod(v), w, 0);
    AloneIsPicked(cfg, clock, v);
    RunOne(cfg, s1, Abort("c"));
    StopPicked(cfg, clock, v, w);
    GoOn(cfg, Alone(clock, v, Idle, 0), PICK, s1, [Abort("c")], Alone(clock, CutVod(v, 1), Idle, 0));
  }

  /** It leaves the row as it was, but for the counts, and so can be repeated. */
  lemma OneMoreCut(cfg: Config, front: seq<Step>, clock: int, v: Vod, v': Vod)
    requires cfg.Valid() && CanBePicked(cfg, clock, v) && Run(cfg, front) == Alone(clock, v, Idle, 0)
    requires v' == CutVod(v, 1)
    ensures Run(cfg, front + CutPick()) == Alone(clock, v', Idle, 0)
  {
    CutPickRuns(cfg, clock, v);
    GoOn(cfg, INITIAL, front, Alone(clock, v, Idle, 0), CutPick(), Alone(clock, v', Idle, 0));
  }

  lemma {:induction false} CutPicks(cfg: Config, front: seq<Step>, clock: int, v: Vod, n: nat)
    returns (steps: seq<Step>)
    requires cfg.Valid() && CanBePicked(cfg, clock, v) && Run(cfg, front) == Alone(clock, v, Idle, 0)
    ensures Run(cfg, steps) == Alone(clock, CutVod(v, n), Idle, 0)
  {
    if n == 0 {
      steps := front;
    } else {
      steps := CutPicks(cfg, front, clock, v, n - 1);
      OneMoreCut(cfg, steps, clock, CutVod(v, n - 1), CutVod(v, n));
      steps := steps + CutPick();
    }
  }

  // ---- A pick that fails -------------------------------------------------------------------

  /** The row after a pick whose first attempt failed. */
  function TriedVod(v: Vod): Vod {
    v.(retries := v.retries + 1, picks := v.picks + 1)
  }

  function FailedVod(v: Vod, clock: int): Vod {
    TriedVod(v).(failed := true, touchedAt := clock, errorAt := clock)
  }

  /** How it ends: the only attempt has failed, or yt-dlp does not start for the second one. */
  function Ending(cfg: Config): Event {
    if cfg.maxAttempts == 1 then GiveUp(false) else StartFails
  }

  lemma TryRuns(cfg: Config, clock: int, v: Vod)
    requires cfg.Valid()
    ensures RunFrom(cfg, Alone(clock, PickedVod(v), Waiting(clock, AloneItem(cfg, clock, v)), 0),
                    [Acquire("c"), Progress("c", AttemptFails)])
         == Alone(clock, TriedVod(v), Downloading(clock, AloneItem(cfg, clock, v), 1), 1)
  {
    var item := AloneItem(cfg, clock, v);
    var w0, w1, w2 := Waiting(clock, item), Downloading(clock, item, 0), Downloading(clock, item, 1);
    RunTwo(cfg, Alone(clock, PickedVod(v), w0, 0), Acquire("c"), Progress("c", AttemptFails));
    AloneAcquires(cfg, clock, PickedVod(v), item);
    Replace(PickedVod(v), w1, TriedVod(v), w2);
    NoUploads();
  }

  lemma EndingRuns(cfg: Config, clock: int, v: Vod)
    requires cfg.Valid()
    ensures RunFrom(cfg, Alone(clock, TriedVod(v), Downloading(clock, AloneItem(cfg, clock, v), 1), 1),
                    [Progress("c", Ending(cfg)), Release("c"), Tick(cfg.cooldown * SECOND)])
         == Alone(clock + cfg.cooldown * SECOND, FailedVod(v, clock), Idle, 0)
  {
    var w := Downloading(clock, AloneItem(cfg, clock, v), 1);
    RunThree(cfg, Alone(clock, TriedVod(v), w, 1),
             Progress("c", Ending(cfg)), Release("c"), Tick(cfg.cooldown * SECOND));
    Replace(TriedVod(v), w, FailedVod(v, clock), Leaving);
    Replace(FailedVod(v, clock), Leaving, FailedVod(v, clock), Idle);
    NoUploads();
  }

  function FailedPick(cfg: Config): seq<Step>
    requires cfg.Valid()
  {
    PICK + ([Acquire("c"), Progress("c", AttemptFails)]
            + [Progress("c", Ending(cfg)), Release("c"), Tick(cfg.cooldown * SECOND)])
  }

  /** It stores an error, costs one retry, and the cooldown passes. */
  lemma FailedPickRuns(cfg: Config, clock: int, v: Vod)
    requires cfg.Valid() && CanBePicked(cfg, clock, v)
    ensures RunFrom(cfg, Alone(clock, v, Idle, 0), FailedPick(cfg))
         == Alone(clock + cfg.cooldown * SECOND, FailedVod(v, clock), Idle, 0)
  {
    var item := AloneItem(cfg, clock, v);
    var s1 := Alone(clock, PickedVod(v), Waiting(clock, item), 0);
    var s2 := Alone(clock, TriedVod(v), Downloading(clock, item, 1), 1);
    var s3 := Alone(clock + cfg.cooldown * SECOND, FailedVod(v, clock), Idle, 0);
    var a := [Acquire("c"), Progress("c", AttemptFails)];
    var b := [Progress("c", Ending(cfg)), Release("c"), Tick(cfg.cooldown * SECOND)];
    AloneIsPicked(cfg, clock, v);
    TryRuns(cfg, clock, v);
    EndingRuns(cfg, clock, v);
    GoOn(cfg, s1, a, s2, b, s3);
    GoOn(cfg, Alone(clock, v, Idle, 0), PICK, s1, a + b, s3);
  }

  lemma OneMoreFailure(cfg: Config, front: seq<Step>, clock: int, v: Vod)
    requires cfg.Valid() && CanBePicked(cfg, clock, v) && Run(cfg, front) == Alone(clock, v, Idle, 0)
    ensures Run(cfg, front + FailedPick(cfg)) == Alone(clock + cfg.cooldown * SECOND, FailedVod(v, clock), Idle, 0)
  {
    FailedPickRuns(cfg, clock, v);
    GoOn(cfg, INITIAL, front, Alone(clock, v, Idle, 0), FailedPick(cfg),
         Alone(clock + cfg.cooldown * SECOND, FailedVod(v, clock), Idle, 0));
  }

  /** n picks that fail, as long as the limit allows. */
  lemma {:induction false} FailedPicks(cfg: Config, front: seq<Step>, v: Vod, n: nat)
    returns (steps: seq<Step>, clock: int, v': Vod)
    requires cfg.Valid() && CanBePicked(cfg, 0, v) && Run(cfg, front) == Alone(0, v, Idle, 0)
    requires v.retries + n <= cfg.maxAttempts
    ensures Run(cfg, steps) == Alone(clock, v', Idle, 0)
    ensures v'.picks == v.picks + n && v'.wasted == v.wasted && v'.retries == v.retries + n
    ensures v'.retries < cfg.maxAttempts ==> CanBePicked(cfg, clock, v')
  {
    if n == 0 {
      steps, clock, v' := front, 0, v;
    } else {
      var t, u;
      steps, t, u := FailedPicks(cfg, front, v, n - 1);
      OneMoreFailure(cfg, steps, t, u);
      clock, v' := t + cfg.cooldown * SECOND, FailedVod(u, t);
      steps := steps + FailedPick(cfg);
    }
  }

  // ---- A pick whose yt-dlp does not start --------------------------------------------------

  function StalledVod(v: Vod, clock: int): Vod {
    CutVod(v, 1).(failed := true, touchedAt := clock, errorAt := clock)
  }

  lemma StallRuns(cfg: Config, clock: int, v: Vod, w: Worker)
    requires cfg.Valid() && w == Waiting(clock, AloneItem(cfg, clock, v))
    ensures RunFrom(cfg, Alone(clock, PickedVod(v), w, 0), [Acquire("c"), Progress("c", StartFails)])
         == Alone(clock, StalledVod(v, clock), Leaving, 1)
  {
    RunTwo(cfg, Alone(clock, PickedVod(v), w, 0), Acquire("c"), Progress("c", StartFails));
    AloneAcquires(cfg, clock, PickedVod(v), w.item);
    Replace(PickedVod(v), Downloading(clock, w.item, 0), StalledVod(v, clock), Leaving);
    NoUploads();
  }

  lemma LeaveAndWait(cfg: Config, clock: int, v: Vod)
    requires cfg.Valid()
    ensures RunFrom(cfg, Alone(clock, v, Leaving, 1), [Release("c"), Tick(cfg.cooldown * SECOND)])
         == Alone(clock + cfg.cooldown * SECOND, v, Idle, 0)
  {
    RunTwo(cfg, Alone(clock, v, Leaving, 1), Release("c"), Tick(cfg.cooldown * SECOND));
    Replace(v, Leaving, v, Idle);
  }

  function StalledPick(cfg: Config): seq<Step>
    requires cfg.Valid()
  {
    PICK + ([Acquire("c"), Progress("c", StartFails)] + [Release("c"), Tick(cfg.cooldown * SECOND)])
  }

  /** It stores an error, and costs no retry. */
  lemma FirstPickStalls(cfg: Config)
    requires cfg.Valid()
    ensures Run(cfg, FIND + StalledPick(cfg)) == Alone(cfg.cooldown * SECOND, StalledVod(NewVod(), 0), Idle, 0)
  {
    var v, v' := NewVod(), StalledVod(NewVod(), 0);
    var w := Waiting(0, AloneItem(cfg, 0, v));
    var s0, s1, s2 := Alone(0, v, Idle, 0), Alone(0, PickedVod(v), w, 0), Alone(0, v', Leaving, 1);
    var s3 := Alone(0 + cfg.cooldown * SECOND, v', Idle, 0);
    var a, b := [Acquire("c"), Progress("c", StartFails)], [Release("c"), Tick(cfg.cooldown * SECOND)];
    FindRuns(cfg);
    AloneIsPicked(cfg, 0, v);
    StallRuns(cfg, 0, v, w);
    LeaveAndWait(cfg, 0, v');
    GoOn(cfg, s1, a, s2, b, s3);
    GoOn(cfg, s0, PICK, s1, a + b, s3);
    GoOn(cfg, INITIAL, FIND, s0, StalledPick(cfg), s3);
  }

  // ---- Main results ------------------------------------------------------------------------

  /** The picks that are cut short have no bound: under every configuration, a row with an error stored can be
      picked any number of times by workers that are stopped, and it never gets nearer to the limit. */
  lemma PicksWithoutBound(cfg: Config, n: nat) returns (steps: seq<Step>, id: string)
    requires cfg.Valid()
    ensures id in Run(cfg, steps).vods
    ensures var v := Run(cfg, steps).vods[id];
      v.failed && v.picks > n && v.retries == 0
  {
    FirstPickStalls(cfg);
    steps := CutPicks(cfg, FIND + StalledPick(cfg), cfg.cooldown * SECOND, StalledVod(NewVod(), 0), n);
    id := "v";
  }

  /** With m picks cut short a row can be picked as often as RetriesAreBounded allows. */
  lemma BoundIsReached(cfg: Config, m: nat) returns (steps: seq<Step>, id: string)
    requires cfg.Valid()
    ensures id in Run(cfg, steps).vods && ShortPicks(cfg, steps, id) == m
    ensures Run(cfg, steps).vods[id].picks == cfg.maxAttempts + m
  {
    FindRuns(cfg);
    steps := CutPicks(cfg, FIND, 0, NewVod(), m);
    var clock, v;
    steps, clock, v := FailedPicks(cfg, steps, CutVod(NewVod(), m), cfg.maxAttempts);
    id := "v";
    WastedAreShort(cfg, steps, id);
  }

  /** On every run, a row of which at most m picks have been cut short has been picked at most so many times. */
  ghost predicate AlwaysPickedWithin(cfg: Config, m: nat, limit: int) {
    forall steps: seq<Step>, id | id in Run(cfg, steps).vods && ShortPicks(cfg, steps, id) <= m ::
      Run(cfg, steps).vods[id].picks <= limit
  }

  /** How often a row is picked: at most DOWNLOAD_MAX_ATTEMPTS times and once for each pick that was cut short, and
      no smaller number will do. */
  lemma PickedWithinIff(cfg: Config, m: nat, limit: int)
    requires cfg.Valid()
    ensures AlwaysPickedWithin(cfg, m, limit) <==> limit >= cfg.maxAttempts + m
  {
    forall steps: seq<Step>, id | id in Run(cfg, steps).vods && ShortPicks(cfg, steps, id) <= m
      ensures Run(cfg, steps).vods[id].picks <= cfg.maxAttempts + m
    {
      RetriesAreBounded(cfg, steps, id);
    }
    var steps, id := BoundIsReached(cfg, m);
    assert id in Run(cfg, steps).vods && ShortPicks(cfg, steps, id) <= m;
  }
}
