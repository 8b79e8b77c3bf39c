/** What the backfill throttle does to the selection query (backend/vod/processing.go:254-294): the query is cut
    off before back-catalog rows are skipped. */
module Throttle {
  import opened Common
  import opened Pipeline
  import opened Picking
  import opened PipelineCaps
  import opened PipelineExamples
  import opened PipelineStops

  predicate IsRecent(cfg: Config, s: State, ch: string, cutoff: int, id: string) {
    Eligible(cfg, s, ch, id) && s.vods[id].date >= cutoff
  }

  /** The eligible back-catalog rows. */
  function OldRows(cfg: Config, s: State, ch: string, cutoff: int): set<string> {
    set id <- s.vods | Eligible(cfg, s, ch, id) && s.vods[id].date < cutoff
  }

  /** A row that stands in front of every eligible recent row. */
  predicate IsAhead(cfg: Config, s: State, ch: string, cutoff: int, id: string)
    requires id in s.vods
  {
    forall r <- s.vods | IsRecent(cfg, s, ch, cutoff, r) :: Precedes(s.vods[id], s.vods[r])
  }

  /** The eligible back-catalog rows in front of every eligible recent row. */
  function Ahead(cfg: Config, s: State, ch: string, cutoff: int): set<string> {
    set id <- OldRows(cfg, s, ch, cutoff) | IsAhead(cfg, s, ch, cutoff, id)
  }

  function Members(batch: seq<string>): set<string> {
    set id | id in batch
  }

  lemma {:induction false} DistinctMembers(batch: seq<string>)
    requires forall i, j | 0 <= i < j < |batch| :: batch[i] != batch[j]
    ensures |Members(batch)| == |batch|
  {
    if batch != [] {
      var n := |batch| - 1;
      DistinctMembers(batch[..n]);
      assert batch == batch[..n] + [batch[n]];
      assert Members(batch) == Members(batch[..n]) + {batch[n]};
      assert batch[n] !in Members(batch[..n]);
    }
  }

  /** The last row of the batch does not stand in front of any other. */
  lemma LastIsLast(cfg: Config, s: State, ch: string, batch: seq<string>, id: string)
    requires IsBatch(cfg, s, ch, batch) && id in batch
    ensures batch[|batch| - 1] in s.vods && !Precedes(s.vods[batch[|batch| - 1]], s.vods[id])
  {
    var i :| 0 <= i < |batch| && batch[i] == id;
    assert Eligible(cfg, s, ch, batch[i]) && Eligible(cfg, s, ch, batch[|batch| - 1]);
    if i < |batch| - 1 {
      assert !Precedes(s.vods[batch[|batch| - 1]], s.vods[batch[i]]);
    }
  }

  /** A recent row is in the batch only if all rows in front of it are. */
  lemma RecentRowComesAfterRowsAhead(cfg: Config, s: State, ch: string, batch: seq<string>, id: string, row: string)
    requires IsBatch(cfg, s, ch, batch) && id in batch && id in s.vods
    requires Eligible(cfg, s, ch, row) && Precedes(s.vods[row], s.vods[id])
    ensures row in batch
  {
    LastIsLast(cfg, s, ch, batch, id);
    if row !in batch {
      assert Precedes(s.vods[row], s.vods[batch[|batch| - 1]]);
    }
  }

  /** A back-catalog row is in a batch without any recent row only if it stands in front of all of these. */
  lemma BatchIsAhead(cfg: Config, s: State, ch: string, batch: seq<string>, cutoff: int, id: string, recent: string)
    requires IsBatch(cfg, s, ch, batch) && id in batch && id in s.vods && s.vods[id].date < cutoff
    requires IsRecent(cfg, s, ch, cutoff, recent) && recent !in batch
    ensures Precedes(s.vods[id], s.vods[recent])
  {
    LastIsLast(cfg, s, ch, batch, id);
    assert !Precedes(s.vods[recent], s.vods[batch[|batch| - 1]]);
  }

  lemma StarvedBatch(cfg: Config, s: State, ch: string, batch: seq<string>, cutoff: int, recent: string)
    requires IsBatch(cfg, s, ch, batch) && IsRecent(cfg, s, ch, cutoff, recent)
    requires FirstPassing(s, batch, true, cutoff).None?
    ensures |batch| == BATCH_SIZE && Members(batch) <= Ahead(cfg, s, ch, cutoff)
  {
    assert recent !in batch;
    forall id <- Members(batch) ensures id in Ahead(cfg, s, ch, cutoff) {
      assert Eligible(cfg, s, ch, id);
      forall r <- s.vods | IsRecent(cfg, s, ch, cutoff, r) ensures Precedes(s.vods[id], s.vods[r]) {
        assert r !in batch;
        BatchIsAhead(cfg, s, ch, batch, cutoff, id, r);
      }
    }
  }

  /** While the throttle is on and the channel has an eligible recent VOD, nothing is picked exactly if at least
      20 eligible back-catalog rows stand in front of every recent one. */
  lemma ThrottleStarvesIff(cfg: Config, s: State, ch: string, batch: seq<string>, cutoff: int, recent: string)
    requires IsBatch(cfg, s, ch, batch) && IsRecent(cfg, s, ch, cutoff, recent)
    ensures FirstPassing(s, batch, true, cutoff).None? <==> |Ahead(cfg, s, ch, cutoff)| >= 20
  {
    var choice := FirstPassing(s, batch, true, cutoff);
    DistinctMembers(batch);
    if choice.None? {
      StarvedBatch(cfg, s, ch, batch, cutoff, recent);
      SubsetSize(Members(batch), Ahead(cfg, s, ch, cutoff));
    } else {
      var id := choice.value;
      assert IsRecent(cfg, s, ch, cutoff, id);
      forall x <- Ahead(cfg, s, ch, cutoff) ensures x in Members(batch) - {id} {
        RecentRowComesAfterRowsAhead(cfg, s, ch, batch, id, x);
      }
      SubsetSize(Ahead(cfg, s, ch, cutoff), Members(batch) - {id});
    }
  }

  /** If nobody has set a priority, every old row is in front: 20 eligible ones hide all recent VODs. */
  lemma EqualPrioritiesStarveIff(cfg: Config, s: State, ch: string, batch: seq<string>, cutoff: int, recent: string)
    requires IsBatch(cfg, s, ch, batch) && IsRecent(cfg, s, ch, cutoff, recent)
    requires forall x <- s.vods | Eligible(cfg, s, ch, x) :: s.vods[x].priority == s.vods[recent].priority
    ensures FirstPassing(s, batch, true, cutoff).None? <==> |OldRows(cfg, s, ch, cutoff)| >= 20
  {
    ThrottleStarvesIff(cfg, s, ch, batch, cutoff, recent);
    assert Ahead(cfg, s, ch, cutoff) == OldRows(cfg, s, ch, cutoff);
  }

  // ---- A run that starves ------------------------------------------------------------------

  /** The rows that have been processed. */
  function Processed(s: State): set<string> {
    set id <- s.vods | s.vods[id].processed
  }

  /** At instant 0 channel "c" has uploaded k old VODs, and n more are waiting. */
  ghost predicate Crowd(s: State, date: int, k: nat, n: nat) {
    && s.clock == 0 && WorkerOf(s, "c").Idle?
    && (forall i | k < i <= k + n :: Name(i) in s.vods && IsNew(s.vods[Name(i)], date))
    && (forall id <- s.vods :: |id| <= k + n)
    && (forall id <- s.vods :: if s.vods[id].processed then IsDone(s.vods[id], date) else k < |id| && id == Name(|id|))
    && |Processed(s)| == k
  }

  lemma FirstOfTheCrowd(s: State, date: int, k: nat)
    requires OneWaits(s, date, k)
    ensures Crowd(s, date, k, 1)
  {
    assert Processed(s) == s.vods.Keys - {Name(k + 1)};
    assert |Name(k + 1)| == k + 1;
  }

  lemma CrowdGrows(s: State, date: int, k: nat, n: nat)
    requires Crowd(s, date, k, n)
    ensures Crowd(DoDiscover(s, "c", Name(k + n + 1), date), date, k, n + 1)
    ensures Name(k + n + 1) !in s.vods
  {
    var id := Name(k + n + 1);
    var s' := DoDiscover(s, "c", id, date);
    assert |id| == k + n + 1;
    assert Processed(s') == Processed(s);
    forall i | k < i <= k + n + 1 ensures Name(i) in s'.vods && IsNew(s'.vods[Name(i)], date) {
      assert |Name(i)| == i;
    }
  }

  lemma {:induction false} CrowdRuns(cfg: Config, date: int, k: nat, n: nat, front: seq<Step>)
    returns (steps: seq<Step>)
    requires n >= 1 && OneWaits(Run(cfg, front), date, k)
    ensures Crowd(Run(cfg, steps), date, k, n)
  {
    if n == 1 {
      steps := front;
      FirstOfTheCrowd(Run(cfg, front), date, k);
    } else {
      steps := CrowdRuns(cfg, date, k, n - 1, front);
      CrowdGrows(Run(cfg, steps), date, k, n - 1);
      var more := Discover("c", Name(k + n), date);
      RunOne(cfg, Run(cfg, steps), more);
      RunOn(cfg, INITIAL, steps, [more]);
      steps := steps + [more];
    }
  }

  /** And then a recent VOD turns up. */
  function Joined(s: State, k: nat): State {
    DoDiscover(s, "c", Name(k + BATCH_SIZE + 1), 0)
  }

  predicate IsOld(cfg: Config, date: int) {
    date < -cfg.backfillDays * DAY
  }

  function FirstNames(k: nat, n: nat): (names: seq<string>)
    ensures |names| == n && forall i | 0 <= i < n :: names[i] == Name(k + i + 1)
  {
    if n == 0 then [] else FirstNames(k, n - 1) + [Name(k + n)]
  }

  /** Who waits in the crowd, and in front of the recent VOD. */
  lemma JoinedEligible(cfg: Config, s: State, date: int, k: nat, id: string)
    requires cfg.Valid() && Crowd(s, date, k, BATCH_SIZE)
    ensures Eligible(cfg, Joined(s, k), "c", id) <==> k < |id| <= k + BATCH_SIZE + 1 && id == Name(|id|)
    ensures Eligible(cfg, Joined(s, k), "c", id) ==>
      IsNew(Joined(s, k).vods[id], if |id| <= k + BATCH_SIZE then date else 0)
  {
    assert |Name(k + BATCH_SIZE + 1)| == k + BATCH_SIZE + 1;
  }

  /** Rows of one priority and date are a batch, if there are enough and no other eligible row is older. */
  lemma EqualRowsAreABatch(cfg: Config, s: State, ch: string, batch: seq<string>, date: int)
    requires |batch| == BATCH_SIZE
    requires forall i | 0 <= i < |batch| ::
      Eligible(cfg, s, ch, batch[i]) && s.vods[batch[i]].priority == 0 && s.vods[batch[i]].date == date
    requires forall i, j | 0 <= i < j < |batch| :: batch[i] != batch[j]
    requires forall id <- s.vods | Eligible(cfg, s, ch, id) :: s.vods[id].priority == 0 && s.vods[id].date >= date
    ensures IsBatch(cfg, s, ch, batch)
  {
  }

  lemma FirstNamesWait(cfg: Config, s: State, date: int, k: nat)
    requires cfg.Valid() && Crowd(s, date, k, BATCH_SIZE)
    ensures var s', batch := Joined(s, k), FirstNames(k, BATCH_SIZE);
      forall i | 0 <= i < |batch| :: Eligible(cfg, s', "c", batch[i]) && IsNew(s'.vods[batch[i]], date)
  {
    var batch := FirstNames(k, BATCH_SIZE);
    forall i | 0 <= i < |batch|
      ensures Eligible(cfg, Joined(s, k), "c", batch[i]) && IsNew(Joined(s, k).vods[batch[i]], date)
    {
      JoinedEligible(cfg, s, date, k, batch[i]);
    }
  }

  lemma NamesDiffer(k: nat, n: nat)
    ensures forall i, j | 0 <= i < j < n :: FirstNames(k, n)[i] != FirstNames(k, n)[j]
  {
    forall i, j | 0 <= i < j < n ensures FirstNames(k, n)[i] != FirstNames(k, n)[j] {
      assert |FirstNames(k, n)[i]| == k + i + 1 && |FirstNames(k, n)[j]| == k + j + 1;
    }
  }

  lemma NoneIsOlder(cfg: Config, s: State, date: int, k: nat)
    requires cfg.Valid() && IsOld(cfg, date) && Crowd(s, date, k, BATCH_SIZE)
    ensures var s' := Joined(s, k);
      forall id <- s'.vods | Eligible(cfg, s', "c", id) :: s'.vods[id].priority == 0 && s'.vods[id].date >= date
  {
    var s' := Joined(s, k);
    forall id <- s'.vods | Eligible(cfg, s', "c", id) ensures s'.vods[id].priority == 0 && s'.vods[id].date >= date {
      JoinedEligible(cfg, s, date, k, id);
    }
  }

  lemma JoinedBatch(cfg: Config, s: State, date: int, k: nat)
    requires cfg.Valid() && IsOld(cfg, date) && Crowd(s, date, k, BATCH_SIZE)
    ensures IsBatch(cfg, Joined(s, k), "c", FirstNames(k, BATCH_SIZE))
  {
    var s', batch := Joined(s, k), FirstNames(k, BATCH_SIZE);
    FirstNamesWait(cfg, s, date, k);
    NamesDiffer(k, BATCH_SIZE);
    NoneIsOlder(cfg, s, date, k);
    EqualRowsAreABatch(cfg, s', "c", batch, date);
  }

  /** The uploads of the day have used up the throttle, but not the cap. */
  lemma JoinedIsThrottled(cfg: Config, s: State, date: int, k: nat)
    requires IsOld(cfg, date) && Crowd(s, date, k, BATCH_SIZE)
    ensures var s' := Joined(s, k);
      |RecentUploads(s', "c")| == |RecentBackfill(s', "c", -cfg.backfillDays * DAY)| == k
  {
    var s' := Joined(s, k);
    assert |Name(k + BATCH_SIZE + 1)| == k + BATCH_SIZE + 1;
    forall id ensures id in RecentUploads(s', "c") <==> id in Processed(s) {
      if id in s.vods && id != Name(k + BATCH_SIZE + 1) && !s.vods[id].processed {
        assert IsNew(s.vods[Name(|id|)], date);
      }
    }
    assert RecentUploads(s', "c") == Processed(s);
    assert RecentBackfill(s', "c", -cfg.backfillDays * DAY) == Processed(s);
  }

  lemma NonePasses(cfg: Config, s: State, date: int, k: nat, batch: seq<string>)
    requires cfg.Valid() && IsOld(cfg, date) && Crowd(s, date, k, BATCH_SIZE)
    requires batch == FirstNames(k, BATCH_SIZE) && IsBatch(cfg, Joined(s, k), "c", batch)
    ensures FirstPassing(Joined(s, k), batch, true, -cfg.backfillDays * DAY).None?
  {
    forall i | 0 <= i < |batch| ensures !Passes(Joined(s, k), batch[i], true, -cfg.backfillDays * DAY) {
      JoinedEligible(cfg, s, date, k, batch[i]);
    }
  }

  lemma CheckThrottles(cfg: Config, s: State)
    requires s.clock == 0 && WorkerOf(s, "c").Idle?
    requires |RecentUploads(s, "c")| < cfg.uploadLimit
    requires |RecentBackfill(s, "c", -cfg.backfillDays * DAY)| >= cfg.backfillLimit
    ensures Apply(cfg, s, CheckCaps("c")) == Move(s, "c", Checked(0, true, -cfg.backfillDays * DAY))
  {
    CapsState(cfg, s, "c");
  }

  lemma PickNothing(cfg: Config, s: State, ch: string, batch: seq<string>)
    requires WorkerOf(s, ch).Idle? && IsBatch(cfg, s, ch, batch) && Chosen(cfg, s, ch, batch).None?
    ensures WorkerOf(RunFrom(cfg, s, [CheckCaps(ch), Select(ch, batch)]), ch).Idle?
  {
    PickRuns(cfg, s, ch, batch);
  }

  lemma ThrottledChoice(cfg: Config, s: State, batch: seq<string>)
    requires s.clock == 0 && IsBatch(cfg, s, "c", batch)
    requires |RecentBackfill(s, "c", -cfg.backfillDays * DAY)| >= cfg.backfillLimit
    requires FirstPassing(s, batch, true, -cfg.backfillDays * DAY).None?
    ensures Chosen(cfg, s, "c", batch).None?
  {
  }

  /** The next cycle is throttled and picks nothing. */
  lemma JoinedStarves(cfg: Config, s: State, date: int, k: nat)
    requires cfg.Valid() && IsOld(cfg, date) && Crowd(s, date, k, BATCH_SIZE)
    requires cfg.backfillLimit <= k < cfg.uploadLimit
    ensures Apply(cfg, Joined(s, k), CheckCaps("c"))
         == Move(Joined(s, k), "c", Checked(0, true, -cfg.backfillDays * DAY))
    ensures WorkerOf(RunFrom(cfg, Joined(s, k), [CheckCaps("c"), Select("c", FirstNames(k, BATCH_SIZE))]), "c").Idle?
  {
    var s', batch := Joined(s, k), FirstNames(k, BATCH_SIZE);
    JoinedIsThrottled(cfg, s, date, k);
    CheckThrottles(cfg, s');
    JoinedBatch(cfg, s, date, k);
    NonePasses(cfg, s, date, k, batch);
    ThrottledChoice(cfg, s', batch);
    PickNothing(cfg, s', "c", batch);
  }

  lemma JoinedRuns(cfg: Config, date: int) returns (steps: seq<Step>, s: State)
    requires cfg.Valid() && cfg.uploadsEnabled && cfg.backfillLimit < cfg.uploadLimit && IsOld(cfg, date)
    ensures Crowd(s, date, cfg.backfillLimit, BATCH_SIZE) && Run(cfg, steps) == Joined(s, cfg.backfillLimit)
  {
    var k: nat := cfg.backfillLimit;
    steps := CutAndStore(cfg, date, Backfill, 0, k);
    steps := CrowdRuns(cfg, date, k, BATCH_SIZE, steps);
    s := Run(cfg, steps);
    CrowdGrows(s, date, k, BATCH_SIZE);
    RunOne(cfg, s, Discover("c", Name(k + BATCH_SIZE + 1), 0));
    RunOn(cfg, INITIAL, steps, [Discover("c", Name(k + BATCH_SIZE + 1), 0)]);
    steps := steps + [Discover("c", Name(k + BATCH_SIZE + 1), 0)];
  }

  /** A cycle that is throttled and picks nothing from this batch, although this recent VOD is eligible. */
  ghost predicate Starves(cfg: Config, s: State, batch: seq<string>, recent: string) {
    var w := WorkerOf(Apply(cfg, s, CheckCaps("c")), "c");
    && w.Checked? && w.throttled && IsRecent(cfg, s, "c", w.cutoff, recent) && IsBatch(cfg, s, "c", batch)
    && WorkerOf(RunFrom(cfg, s, [CheckCaps("c"), Select("c", batch)]), "c").Idle?
  }

  lemma RecentIsEligible(cfg: Config, s: State, date: int, k: nat)
    requires cfg.Valid() && Crowd(s, date, k, BATCH_SIZE)
    ensures IsRecent(cfg, Joined(s, k), "c", -cfg.backfillDays * DAY, Name(k + BATCH_SIZE + 1))
  {
    JoinedEligible(cfg, s, date, k, Name(k + BATCH_SIZE + 1));
  }

  lemma JoinedShows(cfg: Config, s: State, date: int, k: nat)
    requires cfg.Valid() && IsOld(cfg, date) && Crowd(s, date, k, BATCH_SIZE)
    requires cfg.backfillLimit <= k < cfg.uploadLimit
    ensures Starves(cfg, Joined(s, k), FirstNames(k, BATCH_SIZE), Name(k + BATCH_SIZE + 1))
  {
    RecentIsEligible(cfg, s, date, k);
    JoinedBatch(cfg, s, date, k);
    JoinedStarves(cfg, s, date, k);
  }

  /** Under every configuration whose throttle is tighter than its cap: as many old VODs are uploaded in a day as
      the throttle allows, and then twenty more old ones and a recent one turn up. The next cycle is throttled and
      picks nothing, although the recent VOD is eligible. */
  lemma ThrottledCycleStarves(cfg: Config) returns (steps: seq<Step>, batch: seq<string>, recent: string)
    requires cfg.Valid() && cfg.uploadsEnabled && cfg.backfillLimit < cfg.uploadLimit
    ensures Starves(cfg, Run(cfg, steps), batch, recent)
  {
    var date, k: nat := -cfg.backfillDays * DAY - 1, cfg.backfillLimit;
    var s;
    steps, s := JoinedRuns(cfg, date);
    recent, batch := Name(k + BATCH_SIZE + 1), FirstNames(k, BATCH_SIZE);
    JoinedShows(cfg, s, date, k);
  }
}
