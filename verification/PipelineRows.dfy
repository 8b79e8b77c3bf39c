/** What every run of the pipeline keeps about rows, workers and slots. */
module PipelineRows {
  import opened Common
  import opened Pipeline

  // ---- One row and the worker of its channel -----------------------------------------------

  /** What no step ever takes back in a row. */
  ghost predicate RowForward(v: Vod, v': Vod) {
    && v'.channel == v.channel && v'.date == v.date
    && (v.processed ==> v'.processed) && (v.uploaded ==> v'.uploaded)
    && v.touchedAt <= v'.touchedAt && v.picks <= v'.picks
  }

  /** The retries that a pick in progress has not paid for yet. */
  function Debt(w: Worker, id: string, born: nat): int {
    if !w.WorksOn(id, born) then 0 else if w.Downloading? then 1 - w.attempts else 1
  }

  /** The invariant of row `id`, where `w` is the worker of the row's channel. */
  ghost predicate RowInv(cfg: Config, id: string, v: Vod, w: Worker, now: int) {
    && (v.processed ==> !v.failed && !w.WorksOn(id, v.born) && !IsPlaceholder(id))
    && (v.uploaded ==> v.processed)
    && v.errorAt <= v.touchedAt <= now
    && v.picks <= cfg.maxAttempts + v.wasted
    && (!v.processed && v.retries < cfg.maxAttempts ==> v.picks <= v.retries + v.wasted + Debt(w, id, v.born))
    && (!v.processed && !v.failed ==> v.picks <= v.wasted + if w.WorksOn(id, v.born) then 1 else 0)
  }

  lemma ProgressKeepsRow(cfg: Config, id: string, v: Vod, w: Worker, event: Event, skipped: bool, now: int)
    requires cfg.Valid() && Possible(cfg, w, event) && RowInv(cfg, id, v, w, now)
    requires w.item.id == id && w.item.born == v.born && (w.HasFile() ==> !IsPlaceholder(id))
    requires event.Decide? ==> skipped == UploadSkipped(cfg, v, w.item)
    ensures RowForward(v, RowAfter(cfg, v, w, event, now))
    ensures RowInv(cfg, id, RowAfter(cfg, v, w, event, now), WorkerAfter(cfg, w, event, skipped, now), now)
  {
  }

  /** A worker that still has a deleted row's item writes to the row that has taken its place. */
  lemma StaleWriteKeepsRow(cfg: Config, id: string, v: Vod, w: Worker, event: Event, own: Worker, now: int)
    requires cfg.Valid() && Possible(cfg, w, event) && w.Downloading? && IsPlaceholder(id) && w.item.born != v.born
    requires w.item.id == id && RowInv(cfg, id, v, own, now)
    ensures RowForward(v, RowAfter(cfg, v, w, event, now))
    ensures RowInv(cfg, id, RowAfter(cfg, v, w, event, now), own, now)
  {
  }

  // ---- The whole table ---------------------------------------------------------------------

  /** Rows are numbered as they are inserted, and the number tells the channel. */
  ghost predicate BornOn(s: State, born: nat, channel: string) {
    born < |s.births| && s.births[born] == channel
  }

  ghost predicate RowOk(cfg: Config, s: State, id: string)
    requires id in s.vods
  {
    var v := s.vods[id];
    BornOn(s, v.born, v.channel) && RowInv(cfg, id, v, WorkerOf(s, v.channel), s.clock)
  }

  /** A busy worker works on a row of its own channel; only a placeholder's row may be gone, or be another one
      by now, and only before there is a file. */
  ghost predicate Owns(s: State, ch: string) {
    var w := WorkerOf(s, ch);
    w.Busy() ==>
      && BornOn(s, w.item.born, ch)
      && (w.HasFile() ==> !IsPlaceholder(w.item.id))
      && (!IsPlaceholder(w.item.id) ==>
            w.item.id in s.vods && s.vods[w.item.id].channel == ch && s.vods[w.item.id].born == w.item.born)
  }

  ghost predicate RowsInv(cfg: Config, s: State) {
    && (forall id <- s.vods :: RowOk(cfg, s, id))
    && (forall ch :: Owns(s, ch))
  }

  /** A row that was there is ahead of itself, or it was a placeholder's and has been deleted; what took its
      place, if anything, was inserted later. */
  ghost predicate RowKept(s: State, s': State, id: string)
    requires id in s.vods
  {
    if id in s'.vods && s'.vods[id].born == s.vods[id].born then RowForward(s.vods[id], s'.vods[id])
    else IsPlaceholder(id) && (id in s'.vods ==> s'.vods[id].born >= |s.births|)
  }

  ghost predicate Forward(s: State, s': State) {
    && s.clock <= s'.clock
    && s.births <= s'.births && s.uploads <= s'.uploads && s.stored <= s'.stored && s.lost <= s'.lost
    && (forall id <- s.vods :: RowKept(s, s', id))
    && (forall id <- s'.vods | id !in s.vods :: s'.vods[id].born >= |s.births|)
  }

  // ---- Steps that leave one row and one worker changed at most -----------------------------

  /** A step of channel `ch` that touches at most row `at`. */
  ghost predicate Local(s: State, s': State, ch: string, at: string) {
    && s'.births == s.births && s'.clock == s.clock && s'.vods.Keys == s.vods.Keys
    && (forall id <- s.vods | id != at :: s'.vods[id] == s.vods[id])
    && (forall c | c != ch :: WorkerOf(s', c) == WorkerOf(s, c))
  }

  lemma OthersKeepRow(cfg: Config, s: State, s': State, ch: string, at: string, id: string)
    requires Local(s, s', ch, at) && id in s.vods && id != at && RowOk(cfg, s, id)
    requires forall born | WorkerOf(s, ch).WorksOn(id, born) || WorkerOf(s', ch).WorksOn(id, born) ::
      Debt(WorkerOf(s', ch), id, born) == Debt(WorkerOf(s, ch), id, born)
      && WorkerOf(s, ch).WorksOn(id, born) == WorkerOf(s', ch).WorksOn(id, born)
    ensures RowOk(cfg, s', id)
  {
  }

  /** A worker whose item is row `at`, before and after, concerns no other row. */
  ghost predicate Confined(w: Worker, at: string) {
    w.Busy() ==> w.item.id == at
  }

  lemma OthersOwn(s: State, s': State, ch: string, at: string, c: string)
    requires Local(s, s', ch, at) && Owns(s, c) && c != ch
    requires at in s.vods ==> s'.vods[at].channel == s.vods[at].channel && s'.vods[at].born == s.vods[at].born
    ensures Owns(s', c)
  {
    assert WorkerOf(s', c) == WorkerOf(s, c);
  }

  lemma LocalKeepsRows(cfg: Config, s: State, s': State, ch: string, at: string)
    requires RowsInv(cfg, s) && Local(s, s', ch, at) && Owns(s', ch)
    requires Confined(WorkerOf(s, ch), at) && Confined(WorkerOf(s', ch), at)
    requires at in s.vods ==> s'.vods[at].born == s.vods[at].born
    requires at in s.vods ==> RowForward(s.vods[at], s'.vods[at]) && RowOk(cfg, s', at)
    ensures RowsInv(cfg, s')
    ensures forall id <- s.vods :: RowKept(s, s', id)
  {
    forall id <- s'.vods ensures RowOk(cfg, s', id) {
      if id != at {
        assert RowOk(cfg, s, id);
        OthersKeepRow(cfg, s, s', ch, at, id);
      }
    }
    forall c ensures Owns(s', c) {
      if c != ch {
        OthersOwn(s, s', ch, at, c);
      }
    }
  }

  // ---- Every step --------------------------------------------------------------------------

  lemma SelectKeepsRows(cfg: Config, s: State, ch: string, w: Worker, id: string)
    requires cfg.Valid() && RowsInv(cfg, s) && w == WorkerOf(s, ch) && w.Checked?
    requires Eligible(cfg, s, ch, id)
    ensures RowsInv(cfg, DoSelect(s, ch, w, Some(id))) && Forward(s, DoSelect(s, ch, w, Some(id)))
  {
    assert RowOk(cfg, s, id);
    LocalKeepsRows(cfg, s, DoSelect(s, ch, w, Some(id)), ch, id);
  }

  lemma ProgressKeepsRows(cfg: Config, s: State, ch: string, w: Worker, event: Event)
    requires cfg.Valid() && RowsInv(cfg, s) && w == WorkerOf(s, ch) && Possible(cfg, w, event)
    requires w.item.id in s.vods
    ensures RowsInv(cfg, DoProgress(cfg, s, ch, w, event)) && Forward(s, DoProgress(cfg, s, ch, w, event))
  {
    assert Owns(s, ch) && RowOk(cfg, s, w.item.id);
    ProgressRow(cfg, s, ch, w, event);
    ProgressOwns(cfg, s, ch, w, event);
    LocalKeepsRows(cfg, s, DoProgress(cfg, s, ch, w, event), ch, w.item.id);
  }

  lemma ProgressRow(cfg: Config, s: State, ch: string, w: Worker, event: Event)
    requires cfg.Valid() && w == WorkerOf(s, ch) && Possible(cfg, w, event) && Owns(s, ch)
    requires w.item.id in s.vods && RowOk(cfg, s, w.item.id)
    ensures RowForward(s.vods[w.item.id], DoProgress(cfg, s, ch, w, event).vods[w.item.id])
    ensures RowOk(cfg, DoProgress(cfg, s, ch, w, event), w.item.id)
  {
    var s' := DoProgress(cfg, s, ch, w, event);
    var id, v := w.item.id, s.vods[w.item.id];
    if v.born == w.item.born {
      ProgressKeepsRow(cfg, id, v, w, event, UploadSkipped(cfg, v, w.item), s.clock);
    } else if v.channel == ch {
      StaleWriteKeepsRow(cfg, id, v, w, event, WorkerOf(s', ch), s.clock);
    } else {
      StaleWriteKeepsRow(cfg, id, v, w, event, WorkerOf(s, v.channel), s.clock);
    }
  }

  lemma ProgressOwns(cfg: Config, s: State, ch: string, w: Worker, event: Event)
    requires w == WorkerOf(s, ch) && Possible(cfg, w, event) && Owns(s, ch) && w.item.id in s.vods
    ensures Owns(DoProgress(cfg, s, ch, w, event), ch)
  {
  }

  lemma AbortKeepsRows(cfg: Config, s: State, ch: string, w: Worker)
    requires cfg.Valid() && RowsInv(cfg, s) && w == WorkerOf(s, ch)
    ensures RowsInv(cfg, DoAbort(s, ch, w)) && Forward(s, DoAbort(s, ch, w))
  {
    var s' := DoAbort(s, ch, w);
    assert Owns(s, ch);
    var at := if w.Busy() then w.item.id else "";
    if at in s.vods {
      assert RowOk(cfg, s, at);
      AbortKeepsRow(cfg, s, ch, w, at);
    }
    LocalKeepsRows(cfg, s, s', ch, at);
  }

  lemma AbortKeepsRow(cfg: Config, s: State, ch: string, w: Worker, id: string)
    requires cfg.Valid() && w == WorkerOf(s, ch) && Owns(s, ch) && id in s.vods && RowOk(cfg, s, id)
    requires Confined(w, id)
    ensures RowForward(s.vods[id], DoAbort(s, ch, w).vods[id]) && RowOk(cfg, DoAbort(s, ch, w), id)
  {
  }

  /** Steps that change no row and only move a worker within its item. */
  lemma MoveKeepsRows(cfg: Config, s: State, ch: string, w: Worker, slots: nat)
    requires cfg.Valid() && RowsInv(cfg, s)
    requires w.Busy() ==> WorkerOf(s, ch).Waiting? && w == Downloading(WorkerOf(s, ch).at, WorkerOf(s, ch).item, 0)
    requires !w.Busy() ==> !WorkerOf(s, ch).Busy()
    ensures RowsInv(cfg, Move(s, ch, w).(slots := slots)) && Forward(s, Move(s, ch, w).(slots := slots))
  {
    var s' := Move(s, ch, w).(slots := slots);
    assert Owns(s, ch);
    var at := if w.Busy() then w.item.id else "";
    if at in s.vods {
      assert RowOk(cfg, s, at);
    }
    LocalKeepsRows(cfg, s, s', ch, at);
  }

  /** The row of the worker's item is gone. */
  lemma MissingRowKeepsRows(cfg: Config, s: State, ch: string, w: Worker, event: Event)
    requires cfg.Valid() && RowsInv(cfg, s) && w == WorkerOf(s, ch) && Possible(cfg, w, event)
    requires w.Downloading? && w.item.id !in s.vods
    ensures var s' := Move(s, ch, WorkerAfter(cfg, w, event, false, s.clock));
      RowsInv(cfg, s') && Forward(s, s')
  {
    var s' := Move(s, ch, WorkerAfter(cfg, w, event, false, s.clock));
    assert Owns(s, ch);
    LocalKeepsRows(cfg, s, s', ch, w.item.id);
  }

  /** A new row is nobody's item yet. */
  lemma DiscoverKeepsRows(cfg: Config, s: State, ch: string, id: string, date: int)
    requires cfg.Valid() && RowsInv(cfg, s) && id !in s.vods
    ensures RowsInv(cfg, DoDiscover(s, ch, id, date)) && Forward(s, DoDiscover(s, ch, id, date))
  {
    var s' := DoDiscover(s, ch, id, date);
    forall c ensures Owns(s', c) {
      assert Owns(s, c);
    }
    assert Owns(s, ch);
    forall x <- s'.vods ensures RowOk(cfg, s', x) {
      assert x != id ==> RowOk(cfg, s, x);
    }
  }

  lemma RemoveKeepsRows(cfg: Config, s: State, id: string)
    requires cfg.Valid() && RowsInv(cfg, s) && id in s.vods && IsPlaceholder(id)
    ensures RowsInv(cfg, s.(vods := s.vods - {id})) && Forward(s, s.(vods := s.vods - {id}))
  {
    var s' := s.(vods := s.vods - {id});
    forall c ensures Owns(s', c) {
      assert Owns(s, c);
    }
    forall x <- s'.vods ensures RowOk(cfg, s', x) {
      assert RowOk(cfg, s, x);
    }
  }

  lemma TickKeepsRows(cfg: Config, s: State, delta: nat)
    requires RowsInv(cfg, s)
    ensures RowsInv(cfg, s.(clock := s.clock + delta)) && Forward(s, s.(clock := s.clock + delta))
  {
    var s' := s.(clock := s.clock + delta);
    forall c ensures Owns(s', c) {
      assert Owns(s, c);
    }
    forall x <- s'.vods ensures RowOk(cfg, s', x) {
      assert RowOk(cfg, s, x);
    }
  }

  lemma EditKeepsRows(cfg: Config, s: State, id: string, v: Vod)
    requires RowsInv(cfg, s) && id in s.vods
    requires v == s.vods[id].(priority := v.priority, skipUpload := v.skipUpload, touchedAt := s.clock)
    ensures RowsInv(cfg, s.(vods := s.vods[id := v])) && Forward(s, s.(vods := s.vods[id := v]))
  {
    var s' := s.(vods := s.vods[id := v]);
    forall c ensures Owns(s', c) {
      assert Owns(s, c);
    }
    forall x <- s'.vods ensures RowOk(cfg, s', x) && RowKept(s, s', x) {
      EditKeepsRow(cfg, s, id, v, x);
    }
  }

  lemma EditKeepsRow(cfg: Config, s: State, id: string, v: Vod, x: string)
    requires id in s.vods && x in s.vods && RowOk(cfg, s, x)
    requires v == s.vods[id].(priority := v.priority, skipUpload := v.skipUpload, touchedAt := s.clock)
    ensures RowOk(cfg, s.(vods := s.vods[id := v]), x) && RowKept(s, s.(vods := s.vods[id := v]), x)
  {
  }

  /** The steps of processOnce before an item is picked, and around the slot. */
  lemma WorkerStepKeepsRows(cfg: Config, s: State, step: Step, ch: string)
    requires cfg.Valid() && RowsInv(cfg, s)
    requires step == CheckCaps(ch) || step == Acquire(ch) || step == Release(ch)
    ensures RowsInv(cfg, Apply(cfg, s, step)) && Forward(s, Apply(cfg, s, step))
  {
    var s' := Apply(cfg, s, step);
    if s' != s {
      assert s' == Move(s, ch, WorkerOf(s', ch)).(slots := s'.slots);
      MoveKeepsRows(cfg, s, ch, WorkerOf(s', ch), s'.slots);
    }
  }

  lemma SelectStepKeepsRows(cfg: Config, s: State, ch: string, batch: seq<string>)
    requires cfg.Valid() && RowsInv(cfg, s)
    ensures RowsInv(cfg, Apply(cfg, s, Select(ch, batch))) && Forward(s, Apply(cfg, s, Select(ch, batch)))
  {
    var w := WorkerOf(s, ch);
    if w.Checked? && IsBatch(cfg, s, ch, batch) {
      var choice := FirstPassing(s, batch, w.throttled, w.cutoff);
      if choice.Some? {
        assert Eligible(cfg, s, ch, choice.value);
        SelectKeepsRows(cfg, s, ch, w, choice.value);
      } else {
        MoveKeepsRows(cfg, s, ch, Idle, s.slots);
      }
    }
  }

  lemma ProgressStepKeepsRows(cfg: Config, s: State, ch: string, event: Event)
    requires cfg.Valid() && RowsInv(cfg, s)
    ensures RowsInv(cfg, Apply(cfg, s, Progress(ch, event))) && Forward(s, Apply(cfg, s, Progress(ch, event)))
  {
    var w := WorkerOf(s, ch);
    if Possible(cfg, w, event) {
      if w.item.id in s.vods {
        ProgressKeepsRows(cfg, s, ch, w, event);
      } else if w.Downloading? {
        MissingRowKeepsRows(cfg, s, ch, w, event);
      }
    }
  }

  lemma StepKeepsRows(cfg: Config, s: State, step: Step)
    requires cfg.Valid() && RowsInv(cfg, s)
    ensures RowsInv(cfg, Apply(cfg, s, step)) && Forward(s, Apply(cfg, s, step))
  {
    match step
    case Tick(delta) => TickKeepsRows(cfg, s, delta);
    case Discover(ch, id, date) => if id !in s.vods { DiscoverKeepsRows(cfg, s, ch, id, date); }
    case Remove(id) => if id in s.vods && IsPlaceholder(id) { RemoveKeepsRows(cfg, s, id); }
    case Edit(id, _, _) => if id in s.vods { EditKeepsRows(cfg, s, id, Apply(cfg, s, step).vods[id]); }
    case CheckCaps(ch) => WorkerStepKeepsRows(cfg, s, step, ch);
    case Select(ch, batch) => SelectStepKeepsRows(cfg, s, ch, batch);
    case Acquire(ch) => WorkerStepKeepsRows(cfg, s, step, ch);
    case Progress(ch, event) => ProgressStepKeepsRows(cfg, s, ch, event);
    case Release(ch) => WorkerStepKeepsRows(cfg, s, step, ch);
    case Abort(ch) => AbortKeepsRows(cfg, s, ch, WorkerOf(s, ch));
  }

  // ---- Slots -------------------------------------------------------------------------------

  /** The workers between acquiring and releasing a slot. */
  function Holders(s: State): set<string> {
    set ch <- s.workers | s.workers[ch].HoldsSlot()
  }

  ghost predicate SlotsExact(cfg: Config, s: State) {
    s.slots == |Holders(s)| && s.slots <= cfg.maxConcurrent
  }

  function SlotOf(w: Worker): nat {
    if w.HoldsSlot() then 1 else 0
  }

  /** Moving one worker changes the number of holders by what that worker does. */
  lemma MoveHolders(s: State, s': State, ch: string, w: Worker)
    requires s'.workers == s.workers[ch := w]
    ensures |Holders(s')| == |Holders(s)| - SlotOf(WorkerOf(s, ch)) + SlotOf(w)
    ensures SlotOf(WorkerOf(s, ch)) <= |Holders(s)|
  {
    HoldersWithout(s, ch);
    HoldersWithout(s', ch);
    assert Holders(s') - {ch} == Holders(s) - {ch};
  }

  lemma HoldersWithout(s: State, ch: string)
    ensures |Holders(s)| == |Holders(s) - {ch}| + SlotOf(WorkerOf(s, ch))
  {
    if WorkerOf(s, ch).HoldsSlot() {
      assert Holders(s) == (Holders(s) - {ch}) + {ch};
    } else {
      assert Holders(s) == Holders(s) - {ch};
    }
  }

  /** The steps that move a worker move only that one, and the semaphore along with it. */
  lemma SlotsMove(cfg: Config, s: State, step: Step, ch: string)
    requires cfg.Valid() && (WorkerOf(s, ch).HoldsSlot() ==> s.slots > 0)
    requires step.CheckCaps? || step.Select? || step.Acquire? || step.Progress? || step.Release? || step.Abort?
    requires step.channel == ch && Apply(cfg, s, step) != s
    ensures var s' := Apply(cfg, s, step);
      && s'.workers == s.workers[ch := WorkerOf(s', ch)]
      && s'.slots == s.slots - SlotOf(WorkerOf(s, ch)) + SlotOf(WorkerOf(s', ch))
      && (s'.slots > s.slots ==> s.slots < cfg.maxConcurrent)
  {
  }

  lemma StepKeepsSlots(cfg: Config, s: State, step: Step)
    requires cfg.Valid() && SlotsExact(cfg, s)
    ensures SlotsExact(cfg, Apply(cfg, s, step))
  {
    var s' := Apply(cfg, s, step);
    if step.CheckCaps? || step.Select? || step.Acquire? || step.Progress? || step.Release? || step.Abort? {
      MoveHolders(s, s.(workers := s.workers[step.channel := WorkerOf(s', step.channel)]), step.channel,
                  WorkerOf(s', step.channel));
      if s' != s {
        SlotsMove(cfg, s, step, step.channel);
      }
    } else {
      assert s'.workers == s.workers && s'.slots == s.slots;
    }
  }

  // ---- Whole runs --------------------------------------------------------------------------

  lemma {:induction false} RunKeepsRows(cfg: Config, steps: seq<Step>)
    requires cfg.Valid()
    ensures RowsInv(cfg, Run(cfg, steps)) && SlotsExact(cfg, Run(cfg, steps))
  {
    if steps == [] {
      assert Holders(INITIAL) == {};
    } else {
      RunKeepsRows(cfg, steps[..|steps| - 1]);
      StepKeepsRows(cfg, Run(cfg, steps[..|steps| - 1]), steps[|steps| - 1]);
      StepKeepsSlots(cfg, Run(cfg, steps[..|steps| - 1]), steps[|steps| - 1]);
    }
  }

  lemma ForwardOn(cfg: Config, a: State, b: State, c: State)
    requires RowsInv(cfg, a) && Forward(a, b) && Forward(b, c)
    ensures Forward(a, c)
  {
    forall id <- a.vods ensures RowKept(a, c, id) {
      assert RowKept(a, b, id) && RowOk(cfg, a, id);
      assert id in b.vods ==> RowKept(b, c, id);
    }
  }

  /** Later states are ahead of earlier ones: a row stays, and stays processed once it is, unless it is a live
      placeholder's that has been deleted. */
  lemma {:induction false} RowsOnlyMoveForward(cfg: Config, steps: seq<Step>, n: nat)
    requires cfg.Valid() && n <= |steps|
    ensures Forward(Run(cfg, steps[..n]), Run(cfg, steps))
  {
    RunKeepsRows(cfg, steps[..n]);
    if n == |steps| {
      assert steps[..n] == steps;
    } else {
      var front := steps[..|steps| - 1];
      assert front[..n] == steps[..n];
      RowsOnlyMoveForward(cfg, front, n);
      RunKeepsRows(cfg, front);
      StepKeepsRows(cfg, Run(cfg, front), steps[|steps| - 1]);
      ForwardOn(cfg, Run(cfg, front[..n]), Run(cfg, front), Run(cfg, steps));
    }
  }

  /** On every run: no row is in the hands of two workers, and for anything but a live placeholder no VOD is;
      the semaphore counts the workers between acquire and release and never exceeds its capacity, so a release
      always finds a slot to return; a processed row has no error, and a row with a video URL is processed. */
  lemma WorkersNeverCollide(cfg: Config, steps: seq<Step>)
    requires cfg.Valid()
    ensures var s := Run(cfg, steps);
      && (forall a, b | a != b && WorkerOf(s, a).Busy() && WorkerOf(s, b).Busy() ::
            WorkerOf(s, a).item.born != WorkerOf(s, b).item.born
            && (WorkerOf(s, a).item.id != WorkerOf(s, b).item.id || IsPlaceholder(WorkerOf(s, a).item.id)))
      && s.slots == |Holders(s)| <= cfg.maxConcurrent
      && (forall ch | WorkerOf(s, ch).Leaving? :: s.slots > 0)
      && (forall id <- s.vods | s.vods[id].processed :: !s.vods[id].failed)
      && (forall id <- s.vods | s.vods[id].uploaded :: s.vods[id].processed)
  {
    RunKeepsRows(cfg, steps);
    var s := Run(cfg, steps);
    forall a, b | a != b && WorkerOf(s, a).Busy() && WorkerOf(s, b).Busy()
      ensures WorkerOf(s, a).item.born != WorkerOf(s, b).item.born
      ensures WorkerOf(s, a).item.id != WorkerOf(s, b).item.id || IsPlaceholder(WorkerOf(s, a).item.id)
    {
      assert Owns(s, a) && Owns(s, b);
    }
    forall ch | WorkerOf(s, ch).Leaving? ensures s.slots > 0 {
      assert ch in Holders(s);
    }
    assert forall id <- s.vods :: RowOk(cfg, s, id);
  }

  /** The pick of this row that a worker is busy with is cut short: by an abort, or by a yt-dlp that does not start
      at the first attempt. */
  predicate CutsShort(s: State, step: Step, id: string) {
    && (step.Abort? || (step.Progress? && step.event.StartFails?))
    && var w := WorkerOf(s, step.channel);
    && w.Busy() && w.item.id == id && (step.Progress? ==> w.Downloading? && w.attempts == 0)
  }

  /** How many picks of a row the run has cut short. */
  function ShortPicks(cfg: Config, steps: seq<Step>, id: string): nat {
    if steps == [] then 0
    else
      var front, step := steps[..|steps| - 1], steps[|steps| - 1];
      ShortPicks(cfg, front, id) + if CutsShort(Run(cfg, front), step, id) then 1 else 0
  }

  lemma StepWastes(cfg: Config, s: State, step: Step, id: string)
    requires id in Apply(cfg, s, step).vods
    ensures Apply(cfg, s, step).vods[id].wasted
         <= (if id in s.vods then s.vods[id].wasted else 0) + if CutsShort(s, step, id) then 1 else 0
    ensures cfg.Valid() && !IsPlaceholder(id) && (step.Abort? || step.Progress? ==> Owns(s, step.channel)) ==>
      Apply(cfg, s, step).vods[id].wasted
      == (if id in s.vods then s.vods[id].wasted else 0) + if CutsShort(s, step, id) then 1 else 0
  {
    match step
    case Progress(ch, event) => ProgressCounts(cfg, s, ch, event, id);
    case Select(ch, batch) => SelectCounts(cfg, s, ch, batch, id);
    case _ =>
  }

  lemma ProgressCounts(cfg: Config, s: State, ch: string, event: Event, id: string)
    requires id in Apply(cfg, s, Progress(ch, event)).vods
    ensures id in s.vods
    ensures var v, v' := s.vods[id], Apply(cfg, s, Progress(ch, event)).vods[id];
      v'.picks == v.picks && v'.wasted <= v.wasted + if CutsShort(s, Progress(ch, event), id) then 1 else 0
    ensures cfg.Valid() && !IsPlaceholder(id) && Owns(s, ch) ==>
      Apply(cfg, s, Progress(ch, event)).vods[id].wasted
      == s.vods[id].wasted + if CutsShort(s, Progress(ch, event), id) then 1 else 0
  {
  }

  lemma SelectCounts(cfg: Config, s: State, ch: string, batch: seq<string>, id: string)
    requires id in Apply(cfg, s, Select(ch, batch)).vods
    ensures id in s.vods
    ensures var v, v' := s.vods[id], Apply(cfg, s, Select(ch, batch)).vods[id];
      v'.wasted == v.wasted && (v'.picks > v.picks ==> Eligible(cfg, s, ch, id))
  {
  }

  lemma {:induction false} NotThereNotShort(cfg: Config, steps: seq<Step>, id: string)
    requires cfg.Valid() && id !in Run(cfg, steps).vods && !IsPlaceholder(id)
    ensures ShortPicks(cfg, steps, id) == 0
  {
    if steps != [] {
      var front, step := steps[..|steps| - 1], steps[|steps| - 1];
      RunKeepsRows(cfg, front);
      StaysAway(cfg, Run(cfg, front), step, id);
      NotThereNotShort(cfg, front, id);
      assert step.Abort? || step.Progress? ==> Owns(Run(cfg, front), step.channel);
    }
  }

  /** Only placeholders are ever removed. */
  lemma StaysAway(cfg: Config, s: State, step: Step, id: string)
    requires id !in Apply(cfg, s, step).vods && !IsPlaceholder(id)
    ensures id !in s.vods
  {
  }

  lemma {:induction false} WastedAreShort(cfg: Config, steps: seq<Step>, id: string)
    requires cfg.Valid() && id in Run(cfg, steps).vods
    ensures Run(cfg, steps).vods[id].wasted <= ShortPicks(cfg, steps, id)
    ensures !IsPlaceholder(id) ==> Run(cfg, steps).vods[id].wasted == ShortPicks(cfg, steps, id)
  {
    var front, step := steps[..|steps| - 1], steps[|steps| - 1];
    RunKeepsRows(cfg, front);
    assert step.Abort? || step.Progress? ==> Owns(Run(cfg, front), step.channel);
    StepWastes(cfg, Run(cfg, front), step, id);
    if id in Run(cfg, front).vods {
      WastedAreShort(cfg, front, id);
    } else if !IsPlaceholder(id) {
      NotThereNotShort(cfg, front, id);
    }
  }

  /** On every run a row is picked at most DOWNLOAD_MAX_ATTEMPTS times, and once more for each of its picks that was
      cut short. */
  lemma RetriesAreBounded(cfg: Config, steps: seq<Step>, id: string)
    requires cfg.Valid() && id in Run(cfg, steps).vods
    ensures Run(cfg, steps).vods[id].picks <= cfg.maxAttempts + ShortPicks(cfg, steps, id)
  {
    RunKeepsRows(cfg, steps);
    assert RowOk(cfg, Run(cfg, steps), id);
    WastedAreShort(cfg, steps, id);
  }

  lemma {:induction false} NoneAreShort(cfg: Config, steps: seq<Step>, id: string)
    requires forall step <- steps :: !step.Abort? && !(step.Progress? && step.event.StartFails?)
    ensures ShortPicks(cfg, steps, id) == 0
  {
    if steps != [] {
      NoneAreShort(cfg, steps[..|steps| - 1], id);
    }
  }

  /** So if every context lives and yt-dlp always starts, DOWNLOAD_MAX_ATTEMPTS picks are all there are. */
  lemma RetriesAreFew(cfg: Config, steps: seq<Step>, id: string)
    requires cfg.Valid() && id in Run(cfg, steps).vods
    requires forall step <- steps :: !step.Abort? && !(step.Progress? && step.event.StartFails?)
    ensures Run(cfg, steps).vods[id].picks <= cfg.maxAttempts
  {
    NoneAreShort(cfg, steps, id);
    RetriesAreBounded(cfg, steps, id);
  }

  lemma OnlySelectPicks(cfg: Config, s: State, step: Step, id: string)
    requires id in s.vods && id in Apply(cfg, s, step).vods && Apply(cfg, s, step).vods[id].picks > s.vods[id].picks
    ensures step.Select? && Eligible(cfg, s, s.vods[id].channel, id)
  {
    match step
    case Progress(ch, event) => ProgressCounts(cfg, s, ch, event, id);
    case Select(ch, batch) => SelectCounts(cfg, s, ch, batch, id);
    case _ =>
  }

  /** A row with an error stored is picked only below the limit and a cooldown after the error. */
  lemma RepicksWait(cfg: Config, steps: seq<Step>, step: Step, id: string)
    requires cfg.Valid() && id in Run(cfg, steps).vods && id in Apply(cfg, Run(cfg, steps), step).vods
    requires Apply(cfg, Run(cfg, steps), step).vods[id].picks > Run(cfg, steps).vods[id].picks
    ensures var v := Run(cfg, steps).vods[id];
      && !v.processed
      && (v.failed ==>
            v.retries < cfg.maxAttempts && Run(cfg, steps).clock >= v.errorAt + cfg.cooldown * SECOND)
  {
    RunKeepsRows(cfg, steps);
    assert RowOk(cfg, Run(cfg, steps), id);
    OnlySelectPicks(cfg, Run(cfg, steps), step, id);
  }
}
