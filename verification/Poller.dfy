/** The poll loop that starts chat recorders and reconcilers (StartAutoChatRecorder in backend/chat/auto.go).
    Its variables are shared with the reconcilers it starts, which run concurrently and may finish at any time;
    a recorder runs until it is cancelled or gives up by itself. A poll that finds a new stream waits for the
    database between announcing the stream and starting its recorder, so these are two steps. */
module Poller {
  /** A recorder of the stream that started at `start`. */
  datatype Recorder = Recorder(start: int, active: bool)

  /** The loop's variables. `announced` says that the poll under way has stored the new stream's start and not
      yet started its recorder; `recorders` are all those ever started, the last one being the one that
      recCancel stops; `pending` are the reconcilers under way, by the start of their stream. */
  datatype State = State(running: bool, reconciled: bool, announced: bool, start: int,
    recorders: seq<Recorder>, pending: multiset<int>)

  const INITIAL := State(false, false, false, 0, [], multiset{})

  datatype Step =
    | Live(start: int)                   // a poll sees the stream, up to its INSERT
    | StartRecorder                      // the rest of that poll
    | Offline                            // a poll sees no stream
    | Ends(start: int, committed: bool)  // a reconciler commits, or gives up
    | Exits(i: nat)                      // a recorder gives up

  function Stop(recorders: seq<Recorder>, i: nat): seq<Recorder> {
    if i < |recorders| then recorders[i := recorders[i].(active := false)] else recorders
  }

  function CancelLast(recorders: seq<Recorder>): seq<Recorder> {
    if recorders == [] then [] else Stop(recorders, |recorders| - 1)
  }

  /** One step; while a poll is under way the loop takes no other. */
  function Apply(s: State, step: Step): State {
    match step
    case Live(start) =>
      if s.running || s.announced then s else s.(start := start, reconciled := false, announced := true)
    case StartRecorder =>
      if !s.announced then s
      else s.(running := true, announced := false, recorders := s.recorders + [Recorder(s.start, true)])
    case Offline =>
      if s.running && !s.reconciled && !s.announced
      then s.(recorders := CancelLast(s.recorders), pending := s.pending + multiset{s.start}) else s
    case Ends(start, committed) =>
      if start !in s.pending then s
      else if committed then s.(running := false, reconciled := true, pending := s.pending - multiset{start})
      else s.(pending := s.pending - multiset{start})
    case Exits(i) => s.(recorders := Stop(s.recorders, i))
  }

  function RunFrom(s: State, steps: seq<Step>): State {
    if steps == [] then s else Apply(RunFrom(s, steps[..|steps| - 1]), steps[|steps| - 1])
  }

  function Run(steps: seq<Step>): State {
    RunFrom(INITIAL, steps)
  }

  predicate IsActive(s: State, i: nat) {
    i < |s.recorders| && s.recorders[i].active
  }

  predicate AnyActive(s: State) {
    exists i | 0 <= i < |s.recorders| :: IsActive(s, i)
  }

  /** Two recorders write every message of the chat twice. */
  predicate TwoActive(s: State) {
    exists i, j | 0 <= i < j < |s.recorders| :: IsActive(s, i) && IsActive(s, j)
  }

  /** The loop takes its stream for reconciled and for being recorded: it does nothing at all. */
  predicate Stuck(s: State) {
    s.running && s.reconciled && !s.announced
  }

  // ---- One recorder at a time --------------------------------------------------------------

  /** Only the latest recorder is active, it records the current stream, and the loop knows about it. */
  predicate Orderly(s: State) {
    && (forall i | 0 <= i < |s.recorders| - 1 :: !IsActive(s, i))
    && (s.running ==> s.recorders != [] && s.recorders[|s.recorders| - 1].start == s.start && !s.reconciled)
    && (AnyActive(s) ==> s.running)
    && (s.announced ==> !s.running && !s.reconciled)
  }

  predicate Commits(s: State, step: Step) {
    step.Ends? && step.committed && step.start in s.pending
  }

  /** A reconciler commits, and tells the loop so, while a recorder is active or about to start. */
  predicate LateCommit(s: State, step: Step) {
    Commits(s, step) && (AnyActive(s) || s.announced)
  }

  lemma OrderlyIsOne(s: State)
    requires Orderly(s)
    ensures !TwoActive(s) && !Stuck(s)
  {
  }

  lemma StartKeepsOrder(s: State)
    requires Orderly(s)
    ensures Orderly(Apply(s, StartRecorder))
  {
    if s.announced {
      var s' := Apply(s, StartRecorder);
      forall i | 0 <= i < |s'.recorders| - 1 ensures !IsActive(s', i) {
        assert !IsActive(s, i);
      }
    }
  }

  lemma StopKeepsOrder(s: State, i: nat, pending: multiset<int>)
    requires Orderly(s)
    ensures Orderly(s.(recorders := Stop(s.recorders, i), pending := pending))
  {
    var s' := s.(recorders := Stop(s.recorders, i), pending := pending);
    forall k | IsActive(s', k) ensures IsActive(s, k) {}
  }

  /** A step that leaves the recorders alone. */
  lemma SameRecorders(s: State, s': State)
    requires s'.recorders == s.recorders
    ensures AnyActive(s') == AnyActive(s)
    ensures forall i: nat :: IsActive(s', i) == IsActive(s, i)
  {
    assert forall i: nat :: IsActive(s', i) == IsActive(s, i);
  }

  /** A step keeps the order exactly if it is not a late commit. */
  lemma StepKeepsOrderIff(s: State, step: Step)
    requires Orderly(s)
    ensures Orderly(Apply(s, step)) <==> !LateCommit(s, step)
  {
    var s' := Apply(s, step);
    match step
    case Live(_) => SameRecorders(s, s');
    case StartRecorder => StartKeepsOrder(s);
    case Offline =>
      if s.running {
        StopKeepsOrder(s, |s.recorders| - 1, s'.pending);
      }
    case Exits(i) => StopKeepsOrder(s, i, s.pending);
    case Ends(_, _) => SameRecorders(s, s');
  }

  predicate AlwaysOrderly(steps: seq<Step>) {
    forall n | 0 <= n <= |steps| :: Orderly(Run(steps[..n]))
  }

  predicate NeverLate(steps: seq<Step>) {
    forall n | 0 <= n < |steps| :: !LateCommit(Run(steps[..n]), steps[n])
  }

  lemma OrderlyOneMore(front: seq<Step>, steps: seq<Step>)
    requires |steps| > 0 && front == steps[..|steps| - 1]
    ensures AlwaysOrderly(steps) <==> AlwaysOrderly(front) && Orderly(Run(steps))
  {
    assert forall n | 0 <= n <= |front| :: front[..n] == steps[..n];
    assert steps[..|steps|] == steps;
  }

  lemma LateOneMore(front: seq<Step>, steps: seq<Step>)
    requires |steps| > 0 && front == steps[..|steps| - 1]
    ensures NeverLate(steps) <==> NeverLate(front) && !LateCommit(Run(front), steps[|steps| - 1])
  {
    assert forall n | 0 <= n <= |front| :: front[..n] == steps[..n];
  }

  /** Over a run, at most one recorder is ever active, the loop knows about it and is never stuck, exactly if no
      reconciler commits while a recorder is active or about to start. */
  lemma {:induction false} OneRecorderIff(steps: seq<Step>)
    ensures AlwaysOrderly(steps) <==> NeverLate(steps)
    ensures AlwaysOrderly(steps) ==> !TwoActive(Run(steps)) && !Stuck(Run(steps))
  {
    if steps != [] {
      var front := steps[..|steps| - 1];
      OneRecorderIff(front);
      OrderlyOneMore(front, steps);
      LateOneMore(front, steps);
      if AlwaysOrderly(front) {
        assert front[..|front|] == front;
        StepKeepsOrderIff(Run(front), steps[|steps| - 1]);
      }
    }
    if AlwaysOrderly(steps) {
      assert steps[..|steps|] == steps;
      OrderlyIsOne(Run(steps));
    }
  }

  /** While a poll waits for its INSERT there is no other poll, and only that one starts a recorder. */
  lemma OnePollAtATime(s: State, start: int)
    ensures s.announced ==> Apply(s, Live(start)) == s && Apply(s, Offline) == s
    ensures !s.announced ==> Apply(s, StartRecorder) == s
    ensures s.announced ==> Apply(s, StartRecorder).recorders == s.recorders + [Recorder(s.start, true)]
  {
  }

  /** A reconciler that ends is gone, whether it has committed or not, and if not it has changed nothing; a recorder
      that gives up is no longer active, and the others go on. */
  lemma EndsAndExits(s: State, start: int, committed: bool, i: nat, k: nat)
    requires start in s.pending
    ensures Apply(s, Ends(start, committed)).pending == s.pending - multiset{start}
    ensures Apply(s, Ends(start, false)) == s.(pending := s.pending - multiset{start})
    ensures IsActive(Apply(s, Exits(i)), k) <==> IsActive(s, k) && k != i
  {
  }

  /** The first poll without a stream after a recorded one stops the recorder and starts a reconciler for it. */
  lemma OfflineReconciles(s: State)
    requires Orderly(s) && s.running
    ensures var s' := Apply(s, Offline);
      !AnyActive(s') && s'.pending == s.pending + multiset{s.start} && s'.running && !s'.reconciled
  {
    var s' := Apply(s, Offline);
    forall i: nat ensures !IsActive(s', i) {
      assert i < |s.recorders| - 1 ==> !IsActive(s, i);
    }
  }

  // ---- What a late commit does -------------------------------------------------------------

  /** The state after a whole poll that finds a stream. */
  function AfterPoll(s: State, start: int): State {
    Apply(Apply(s, Live(start)), StartRecorder)
  }

  lemma PollKeepsOrder(s: State, start: int)
    requires Orderly(s)
    ensures Orderly(AfterPoll(s, start)) && !TwoActive(AfterPoll(s, start)) && !Stuck(AfterPoll(s, start))
  {
    StepKeepsOrderIff(s, Live(start));
    StartKeepsOrder(Apply(s, Live(start)));
    OrderlyIsOne(AfterPoll(s, start));
  }

  /** A commit while a recorder is active, and nothing else, makes the next poll start a second one. */
  lemma SecondRecorderIff(s: State, step: Step, start: int)
    requires Orderly(s)
    ensures TwoActive(AfterPoll(Apply(s, step), start)) <==> Commits(s, step) && AnyActive(s)
  {
    var s2 := AfterPoll(Apply(s, step), start);
    if LateCommit(s, step) {
      if AnyActive(s) {
        var i :| 0 <= i < |s.recorders| && IsActive(s, i);
        assert IsActive(s2, i) && IsActive(s2, |s.recorders|);
      } else {
        assert forall i | 0 <= i < |s.recorders| :: !IsActive(s, i);
        assert forall i | 0 <= i < |s.recorders| :: IsActive(s2, i) == IsActive(s, i);
      }
    } else {
      StepKeepsOrderIff(s, step);
      PollKeepsOrder(Apply(s, step), start);
    }
  }

  /** A commit in the middle of a poll, and nothing else, leaves the loop stuck when the poll is over. */
  lemma StuckIff(s: State, step: Step, start: int)
    requires Orderly(s)
    ensures Stuck(AfterPoll(Apply(s, step), start)) <==> Commits(s, step) && s.announced
  {
    if !LateCommit(s, step) {
      StepKeepsOrderIff(s, step);
      PollKeepsOrder(Apply(s, step), start);
    }
  }

  lemma StuckStep(s: State, step: Step)
    requires Stuck(s) && !Commits(s, step)
    ensures var s' := Apply(s, step);
      && Stuck(s') && s'.pending <= s.pending && s'.start == s.start && |s'.recorders| == |s.recorders|
      && (!step.Exits? ==> s'.recorders == s.recorders)
  {
  }

  /** No reconciler commits during these steps: none of them says so, or none is under way. */
  predicate NoCommit(s: State, steps: seq<Step>) {
    s.pending == multiset{} || forall n | 0 <= n < |steps| :: !(steps[n].Ends? && steps[n].committed)
  }

  /** While no reconciler commits, a stuck loop stays stuck: whatever streams come and go, it starts and cancels no
      recorder and starts no reconciler. */
  lemma {:induction false} StuckForGood(s: State, steps: seq<Step>)
    requires Stuck(s) && NoCommit(s, steps)
    ensures var t := RunFrom(s, steps);
      Stuck(t) && t.pending <= s.pending && t.start == s.start && |t.recorders| == |s.recorders|
    ensures NoExit(steps) ==> RunFrom(s, steps).recorders == s.recorders
  {
    if steps != [] {
      var front := steps[..|steps| - 1];
      assert NoCommit(s, front);
      StuckForGood(s, front);
      StuckStep(RunFrom(s, front), steps[|steps| - 1]);
      assert NoExit(steps) ==> NoExit(front);
    }
  }

  predicate NoExit(steps: seq<Step>) {
    forall n | 0 <= n < |steps| :: !steps[n].Exits?
  }

  // ---- How many reconcilers ----------------------------------------------------------------

  /** The stream is seen offline once for each reconciliation: no other reconciler is under way. */
  predicate SingleFile(s: State, step: Step) {
    step.Offline? && s.running ==> s.pending == multiset{}
  }

  predicate Settled(s: State) {
    && |s.pending| <= 1
    && (AnyActive(s) || !s.running ==> s.pending == multiset{})
  }

  lemma CancelledIsInactive(s: State)
    requires Orderly(s)
    ensures !AnyActive(s.(recorders := CancelLast(s.recorders)))
  {
    var s' := s.(recorders := CancelLast(s.recorders));
    forall i | 0 <= i < |s'.recorders| ensures !IsActive(s', i) {
      assert i < |s.recorders| - 1 ==> !IsActive(s, i);
    }
  }

  lemma OfflineKeepsSettled(s: State)
    requires Orderly(s) && Settled(s) && SingleFile(s, Offline)
    ensures Settled(Apply(s, Offline))
  {
    var s' := Apply(s, Offline);
    if s' != s {
      CancelledIsInactive(s);
      SameRecorders(s.(recorders := CancelLast(s.recorders)), s');
    }
  }

  lemma StepKeepsSettled(s: State, step: Step)
    requires Orderly(s) && Settled(s) && SingleFile(s, step)
    ensures Settled(Apply(s, step)) && !LateCommit(s, step)
  {
    var s' := Apply(s, step);
    match step
    case Live(_) => SameRecorders(s, s');
    case StartRecorder =>
    case Offline => OfflineKeepsSettled(s);
    case Ends(_, _) => SameRecorders(s, s');
    case Exits(_) => assert forall i: nat | IsActive(s', i) :: IsActive(s, i);
  }

  /** With one reconciler at a time there is never more than one recorder, and the loop is never stuck. */
  lemma {:induction false} SingleFileIsOrderly(steps: seq<Step>)
    requires forall n | 0 <= n < |steps| :: SingleFile(Run(steps[..n]), steps[n])
    ensures Orderly(Run(steps)) && Settled(Run(steps)) && !TwoActive(Run(steps)) && !Stuck(Run(steps))
  {
    if steps != [] {
      var m := |steps| - 1;
      var front := steps[..m];
      forall n | 0 <= n < m ensures SingleFile(Run(front[..n]), front[n]) {
        assert front[..n] == steps[..n];
      }
      SingleFileIsOrderly(front);
      StepKeepsSettled(Run(front), steps[m]);
      StepKeepsOrderIff(Run(front), steps[m]);
    }
    OrderlyIsOne(Run(steps));
  }

  // ---- Runs that go wrong ------------------------------------------------------------------

  lemma OneMore(steps: seq<Step>, step: Step)
    ensures Run(steps + [step]) == Apply(Run(steps), step)
  {
    assert (steps + [step])[..|steps|] == steps;
  }

  lemma TwoMore(steps: seq<Step>, a: Step, b: Step)
    ensures Run(steps + [a, b]) == Apply(Apply(Run(steps), a), b)
  {
    OneMore(steps, a);
    OneMore(steps + [a], b);
    assert steps + [a, b] == steps + [a] + [b];
  }

  const ENDED := [Recorder(0, false)]

  /** Two polls see a stream offline before its reconciliation is over, and the first reconciler commits. */
  lemma OneOfTwoCommitted() returns (steps: seq<Step>)
    ensures Run(steps) == State(false, true, false, 0, ENDED, multiset{0})
  {
    TwoMore([], Live(0), StartRecorder);
    steps := [] + [Live(0), StartRecorder];
    assert Run(steps) == State(true, false, false, 0, [Recorder(0, true)], multiset{});
    TwoMore(steps, Offline, Offline);
    steps := steps + [Offline, Offline];
    assert Run(steps) == State(true, false, false, 0, ENDED, multiset{0, 0});
    OneMore(steps, Ends(0, true));
    steps := steps + [Ends(0, true)];
  }

  /** Then a new stream begins, and the second reconciler commits: the new stream gets two recorders. */
  lemma SecondReconcilerDoublesRecording() returns (steps: seq<Step>)
    ensures TwoActive(Run(steps))
    ensures Run(steps).recorders == ENDED + [Recorder(9, true), Recorder(9, true)]
  {
    steps := OneOfTwoCommitted();
    TwoMore(steps, Live(9), StartRecorder);
    steps := steps + [Live(9), StartRecorder];
    OneMore(steps, Ends(0, true));
    steps := steps + [Ends(0, true)];
    assert Run(steps) == State(false, true, false, 9, ENDED + [Recorder(9, true)], multiset{});
    TwoMore(steps, Live(9), StartRecorder);
    steps := steps + [Live(9), StartRecorder];
    assert IsActive(Run(steps), 1) && IsActive(Run(steps), 2);
  }

  /** If instead the second one commits while the poll waits for its INSERT, the loop is stuck with an active
      recorder and nobody left to commit: whatever comes after, no other recorder is ever started, and this one
      records all later streams as its own until it gives up by itself. */
  lemma CommitDuringInsertSticks(rest: seq<Step>) returns (steps: seq<Step>)
    ensures Run(steps).pending == multiset{} && Run(steps).recorders == ENDED + [Recorder(9, true)]
    ensures Stuck(RunFrom(Run(steps), rest)) && |RunFrom(Run(steps), rest).recorders| == 2
    ensures NoExit(rest) ==> RunFrom(Run(steps), rest).recorders == ENDED + [Recorder(9, true)]
  {
    steps := OneOfTwoCommitted();
    TwoMore(steps, Live(9), Ends(0, true));
    steps := steps + [Live(9), Ends(0, true)];
    OneMore(steps, StartRecorder);
    steps := steps + [StartRecorder];
    StuckForGood(Run(steps), rest);
  }

  // ---- Streams that are missed -------------------------------------------------------------

  lemma {:induction false} SilentUntilACommit(s: State, steps: seq<Step>)
    requires s.running && !s.announced && !AnyActive(s)
    requires forall n | 0 <= n < |steps| :: !(steps[n].Ends? && steps[n].committed)
    ensures RunFrom(s, steps).running && !RunFrom(s, steps).announced && !AnyActive(RunFrom(s, steps))
  {
    if steps != [] {
      var front := steps[..|steps| - 1];
      SilentUntilACommit(s, front);
      var t, t' := RunFrom(s, front), RunFrom(s, steps);
      forall i | 0 <= i < |t'.recorders| ensures !IsActive(t', i) {
        assert !IsActive(t, i);
      }
    }
  }

  /** Once a recorded stream has been seen offline nothing is recorded again before a reconciliation commits,
      however many streams come and go: without a published VOD to match, never. */
  lemma NothingIsRecordedBeforeACommit(s: State, steps: seq<Step>)
    requires Orderly(s) && s.running
    requires forall n | 0 <= n < |steps| :: !(steps[n].Ends? && steps[n].committed)
    ensures !AnyActive(RunFrom(Apply(s, Offline), steps))
  {
    var s' := Apply(s, Offline);
    CancelledIsInactive(s);
    SameRecorders(s.(recorders := CancelLast(s.recorders)), s');
    SilentUntilACommit(s', steps);
  }

  // ---- The code ----------------------------------------------------------------------------

  class AutoRecorder {
    var running: bool
    var reconciled: bool
    var startedAt: int
    var recorders: seq<Recorder>
    ghost var announced: bool
    ghost var pending: multiset<int>

    ghost function Vars(): State
      reads this
    {
      State(running, reconciled, announced, startedAt, recorders, pending)
    }

    constructor ()
      ensures Vars() == INITIAL
    {
      running, reconciled, startedAt, recorders, announced, pending := false, false, 0, [], false, multiset{};
    }

    /** One poll up to its INSERT, if it comes to that; `streams` are the starts of the streams it finds, if the
        request succeeds at all. */
    method Poll(failed: bool, streams: seq<int>) returns (starts: bool)
      requires !announced
      modifies this
      ensures Vars() == if failed then old(Vars())
                        else if streams == [] then Apply(old(Vars()), Offline) else Apply(old(Vars()), Live(streams[0]))
      ensures starts == announced
    {
      if failed {
        return false;
      }
      if |streams| == 0 {
        if running && !reconciled {
          if recorders != [] {
            recorders := recorders[|recorders| - 1 := recorders[|recorders| - 1].(active := false)];
          }
          pending := pending + multiset{startedAt};
        }
        return false;
      }
      if running {
        return false;
      }
      startedAt := streams[0];
      reconciled := false;
      announced := true;
      return true;
    }

    /** The rest of a poll that found a new stream. */
    method BeginRecording()
      requires announced
      modifies this
      ensures Vars() == Apply(old(Vars()), StartRecorder)
    {
      running := true;
      recorders := recorders + [Recorder(startedAt, true)];
      announced := false;
    }

    /** The end of a reconciler that has committed. */
    method Committed(start: int)
      requires start in pending
      modifies this
      ensures Vars() == Apply(old(Vars()), Ends(start, true))
    {
      pending := pending - multiset{start};
      reconciled := true;
      running := false;
    }
  }
}
