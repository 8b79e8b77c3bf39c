/** The per-channel circuit breaker kept in the kv table (processing.go and vod.go under backend/vod). */
module Circuit {
  import opened Common

  datatype CircuitState = Closed | Open | HalfOpen

  /** The three kv entries of a channel; None is a missing row. */
  datatype Kv = Kv(state: Option<CircuitState>, failures: Option<int>, openUntil: Option<int>) {
    /** A missing state counts as closed. */
    predicate IsClosed() { state.None? || state.value.Closed? }
    predicate IsOpen() { state.Some? && state.value.Open? }
    predicate IsHalfOpen() { state.Some? && state.value.HalfOpen? }
  }

  const EMPTY := Kv(None, None, None)

  /** `thresholdSet` says whether CIRCUIT_FAILURE_THRESHOLD is a non-empty string at all. */
  datatype Config = Config(threshold: int, thresholdSet: bool, cooldown: int) {
    predicate Armed() {
      threshold > 0 && thresholdSet
    }
  }

  /** An instant written in RFC 3339 format has no fraction of a second. */
  function WholeSeconds(t: int): (r: int)
    ensures r <= t < r + SECOND && r % SECOND == 0
  {
    t - t % SECOND
  }

  /** The check at the start of a processing cycle: the new entries, and whether the cycle goes on. */
  function Gate(kv: Kv, now: int): (Kv, bool) {
    if kv.IsOpen() && kv.openUntil.Some? then
      if now < kv.openUntil.value then (kv, false) else (kv.(state := Some(HalfOpen)), true)
    else (kv, true)
  }

  function Opened(cfg: Config, kv: Kv, now: int): Kv {
    kv.(state := Some(Open), openUntil := Some(WholeSeconds(now + cfg.cooldown)))
  }

  /** A counted failure. */
  function AfterFailure(cfg: Config, kv: Kv, now: int): Kv {
    if cfg.threshold <= 0 then kv
    else if kv.IsHalfOpen() then Opened(cfg, kv, now)
    else
      var fails := kv.failures.GetOr(0) + 1;
      var counted := kv.(failures := Some(fails));
      if fails >= cfg.threshold then Opened(cfg, counted, now) else counted
  }

  /** A completed download. */
  function AfterSuccess(cfg: Config, kv: Kv): Kv {
    if kv.state == Some(Closed) && !cfg.thresholdSet then kv else Kv(Some(Closed), Some(0), None)
  }

  /** The kv table: one map per key, indexed by channel. */
  class CircuitStore {
    var state: map<string, CircuitState>
    var failures: map<string, int>
    var openUntil: map<string, int>

    static function Entry<T>(m: map<string, T>, channel: string): Option<T> {
      if channel in m then Some(m[channel]) else None
    }

    /** The entries of one channel. */
    function Row(channel: string): Kv
      reads this
    {
      Kv(Entry(state, channel), Entry(failures, channel), Entry(openUntil, channel))
    }

    constructor ()
      ensures forall c :: Row(c) == EMPTY
    {
      state, failures, openUntil := map[], map[], map[];
    }

    method CheckGate(channel: string, now: int) returns (proceed: bool)
      modifies this
      ensures (Row(channel), proceed) == Gate(old(Row(channel)), now)
      ensures var kv := old(Row(channel));
        && (!proceed <==> kv.state == Some(Open) && kv.openUntil.Some? && now < kv.openUntil.value)
        && (kv.state == Some(Open) && kv.openUntil.Some? && kv.openUntil.value <= now ==>
              Row(channel) == Kv(Some(HalfOpen), kv.failures, kv.openUntil))
        && (!(kv.state == Some(Open) && kv.openUntil.Some? && kv.openUntil.value <= now) ==> Row(channel) == kv)
      ensures forall c | c != channel :: Row(c) == old(Row(c))
    {
      if channel in state && state[channel] == Open {
        if channel in openUntil {
          if now < openUntil[channel] {
            return false;
          }
          state := state[channel := HalfOpen];
        }
      }
      return true;
    }

    method UpdateOnFailure(cfg: Config, channel: string, now: int)
      modifies this
      ensures Row(channel) == AfterFailure(cfg, old(Row(channel)), now)
      ensures cfg.threshold <= 0 ==> Row(channel) == old(Row(channel))
      ensures forall c | c != channel :: Row(c) == old(Row(c))
    {
      if cfg.threshold <= 0 {
        return;
      }
      if channel in state && state[channel] == HalfOpen {
        state := state[channel := Open];
        openUntil := openUntil[channel := WholeSeconds(now + cfg.cooldown)];
        return;
      }
      var fails := 0;
      if channel in failures {
        fails := failures[channel];
      }
      fails := fails + 1;
      failures := failures[channel := fails];
      if fails >= cfg.threshold {
        state := state[channel := Open];
        openUntil := openUntil[channel := WholeSeconds(now + cfg.cooldown)];
      }
    }

    method Reset(cfg: Config, channel: string)
      modifies this
      ensures Row(channel) == AfterSuccess(cfg, old(Row(channel)))
      ensures Row(channel) == if old(Row(channel)).state == Some(Closed) && !cfg.thresholdSet then old(Row(channel))
                              else Kv(Some(Closed), Some(0), None)
      ensures forall c | c != channel :: Row(c) == old(Row(c))
    {
      if channel in state && state[channel] == Closed && !cfg.thresholdSet {
        return;
      }
      failures := failures[channel := 0];
      state := state[channel := Closed];
      openUntil := openUntil - {channel};
    }
  }

  // ---- Whole runs --------------------------------------------------------------------------

  /** How a cycle that passed the gate ends. Only Failed counts against the channel; NoWork covers every
      return before the download starts. */
  datatype Outcome = Succeeded | Failed | AuthRequired | Canceled | NoWork

  /** A channel has one worker: a Poll starts a cycle, a Finish ends it. */
  datatype Event = Poll(channel: string, now: int) | Finish(channel: string, outcome: Outcome, now: int)

  datatype Cycle = Cycle(start: int, outcome: Outcome, end: int)

  /** A channel's entries, the start of the cycle it is in, and the cycles it has completed. */
  datatype Channel = Channel(kv: Kv, running: Option<int>, log: seq<Cycle>)

  function AfterOutcome(cfg: Config, kv: Kv, outcome: Outcome, now: int): Kv {
    match outcome
    case Succeeded => AfterSuccess(cfg, kv)
    case Failed => AfterFailure(cfg, kv, now)
    case _ => kv
  }

  function StepChannel(cfg: Config, c: Channel, e: Event): Channel {
    match e
    case Poll(_, now) =>
      if c.running.Some? then c
      else
        var (kv, proceed) := Gate(c.kv, now);
        Channel(kv, if proceed then Some(now) else None, c.log)
    case Finish(_, outcome, now) =>
      if c.running.None? then c
      else Channel(AfterOutcome(cfg, c.kv, outcome, now), None, c.log + [Cycle(c.running.value, outcome, now)])
  }

  function Run(cfg: Config, events: seq<Event>): map<string, Channel> {
    if events == [] then map[]
    else
      var s := Run(cfg, events[..|events| - 1]);
      var e := events[|events| - 1];
      s[e.channel := StepChannel(cfg, Get(s, e.channel), e)]
  }

  function Get(s: map<string, Channel>, channel: string): Channel {
    if channel in s then s[channel] else Channel(EMPTY, None, [])
  }

  ghost predicate Chronological(events: seq<Event>) {
    && (forall i | 0 <= i < |events| :: 0 <= events[i].now)
    && (forall i, j | 0 <= i < j < |events| :: events[i].now <= events[j].now)
  }

  function LastTime(events: seq<Event>): int {
    if events == [] then 0 else events[|events| - 1].now
  }

  // ---- What a channel's history says -------------------------------------------------------

  /** Counted failures since the last completed download. */
  function FailuresSinceSuccess(log: seq<Cycle>): nat {
    if log == [] then 0
    else
      var n := FailuresSinceSuccess(log[..|log| - 1]);
      match log[|log| - 1].outcome
      case Succeeded => 0
      case Failed => n + 1
      case _ => n
  }

  /** When the last of those failures was recorded. */
  function LastFailure(log: seq<Cycle>): Option<int> {
    if log == [] then None
    else match log[|log| - 1].outcome
      case Succeeded => None
      case Failed => Some(log[|log| - 1].end)
      case _ => LastFailure(log[..|log| - 1])
  }

  /** The instant before which a channel must not start a cycle after `n` failures, the last at `last`. */
  function Deadline(cfg: Config, n: nat, last: Option<int>): Option<int> {
    if n < cfg.threshold || last.None? then None else Some(WholeSeconds(last.value + cfg.cooldown))
  }

  function NotBefore(cfg: Config, log: seq<Cycle>): Option<int> {
    Deadline(cfg, FailuresSinceSuccess(log), LastFailure(log))
  }

  /** The entries of a channel that has counted `n` failures since its last success, the last at `last`. */
  ghost predicate Means(cfg: Config, kv: Kv, n: nat, last: Option<int>) {
    && kv.failures.GetOr(0) == (if n < cfg.threshold then n else cfg.threshold)
    && (n < cfg.threshold <==> kv.IsClosed())
    && (n >= cfg.threshold ==> last.Some?)
    && kv.openUntil == Deadline(cfg, n, last)
  }

  lemma FailureMeans(cfg: Config, kv: Kv, n: nat, last: Option<int>, now: int)
    requires cfg.Armed() && Means(cfg, kv, n, last) && !kv.IsOpen()
    ensures Means(cfg, AfterFailure(cfg, kv, now), n + 1, Some(now))
    ensures !AfterFailure(cfg, kv, now).IsHalfOpen()
  {
  }

  /** Every cycle started no earlier than its history allowed and no later than it ended. */
  ghost predicate CooldownsKept(cfg: Config, log: seq<Cycle>) {
    forall j | 0 <= j < |log| :: CycleInTime(cfg, log[..j], log[j])
  }

  ghost predicate CycleInTime(cfg: Config, history: seq<Cycle>, cycle: Cycle) {
    && cycle.start <= cycle.end
    && (NotBefore(cfg, history).Some? ==> NotBefore(cfg, history).value <= cycle.start)
  }

  ghost predicate NotAfter(until: Option<int>, t: int) {
    until.Some? ==> until.value <= t
  }

  /** The invariant of a channel at time `now`. */
  ghost predicate Inv(cfg: Config, c: Channel, now: int) {
    && Means(cfg, c.kv, FailuresSinceSuccess(c.log), LastFailure(c.log))
    && CooldownsKept(cfg, c.log)
    && (c.kv.IsHalfOpen() ==> NotAfter(c.kv.openUntil, now))
    && (c.running.Some? ==>
          c.running.value <= now && !c.kv.IsOpen() && NotAfter(c.kv.openUntil, c.running.value))
  }

  lemma HistoryGrows(cfg: Config, log: seq<Cycle>, cycle: Cycle)
    ensures FailuresSinceSuccess(log + [cycle]) ==
      if cycle.outcome == Succeeded then 0 else FailuresSinceSuccess(log) + if cycle.outcome == Failed then 1 else 0
    ensures LastFailure(log + [cycle]) ==
      if cycle.outcome == Succeeded then None else if cycle.outcome == Failed then Some(cycle.end) else LastFailure(log)
  {
    assert (log + [cycle])[..|log|] == log;
  }

  lemma CooldownsGrow(cfg: Config, log: seq<Cycle>, cycle: Cycle)
    requires CooldownsKept(cfg, log) && CycleInTime(cfg, log, cycle)
    ensures CooldownsKept(cfg, log + [cycle])
  {
    forall j | 0 <= j < |log + [cycle]| ensures CycleInTime(cfg, (log + [cycle])[..j], (log + [cycle])[j]) {
      assert (log + [cycle])[..j] == log[..j];
      assert j == |log| ==> log[..j] == log;
    }
  }

  lemma PollKeepsInv(cfg: Config, c: Channel, e: Event, before: int)
    requires cfg.Armed() && Inv(cfg, c, before) && before <= e.now && e.Poll?
    ensures Inv(cfg, StepChannel(cfg, c, e), e.now)
  {
  }

  /** The entries after a cycle mean what the longer history says. */
  lemma FinishMeans(cfg: Config, c: Channel, cycle: Cycle, before: int)
    requires cfg.Armed() && Inv(cfg, c, before) && c.running.Some?
    ensures Means(cfg, AfterOutcome(cfg, c.kv, cycle.outcome, cycle.end), FailuresSinceSuccess(c.log + [cycle]),
                  LastFailure(c.log + [cycle]))
    ensures AfterOutcome(cfg, c.kv, cycle.outcome, cycle.end).IsHalfOpen() ==>
      AfterOutcome(cfg, c.kv, cycle.outcome, cycle.end) == c.kv
  {
    HistoryGrows(cfg, c.log, cycle);
    if cycle.outcome == Failed {
      FailureMeans(cfg, c.kv, FailuresSinceSuccess(c.log), LastFailure(c.log), cycle.end);
    }
  }

  lemma FinishKeepsInv(cfg: Config, c: Channel, e: Event, before: int)
    requires cfg.Armed() && Inv(cfg, c, before) && before <= e.now && e.Finish? && c.running.Some?
    ensures Inv(cfg, StepChannel(cfg, c, e), e.now)
  {
    var cycle := Cycle(c.running.value, e.outcome, e.now);
    FinishMeans(cfg, c, cycle, before);
    CooldownsGrow(cfg, c.log, cycle);
  }

  lemma StepKeepsInv(cfg: Config, c: Channel, e: Event, before: int)
    requires cfg.Armed() && Inv(cfg, c, before) && before <= e.now
    ensures Inv(cfg, StepChannel(cfg, c, e), e.now)
  {
    if e.Poll? {
      PollKeepsInv(cfg, c, e, before);
    } else if c.running.Some? {
      FinishKeepsInv(cfg, c, e, before);
    }
  }

  lemma {:induction false} RunKeepsInv(cfg: Config, events: seq<Event>, channel: string)
    requires cfg.Armed() && Chronological(events)
    ensures Inv(cfg, Get(Run(cfg, events), channel), LastTime(events))
  {
    if events != [] {
      var front, e := events[..|events| - 1], events[|events| - 1];
      RunKeepsInv(cfg, front, channel);
      if e.channel == channel {
        StepKeepsInv(cfg, Get(Run(cfg, front), channel), e, LastTime(front));
      }
    }
  }

  // ---- Main results ------------------------------------------------------------------------

  lemma MeansExactly(cfg: Config, c: Channel, n: nat, now: int)
    requires cfg.Armed() && Inv(cfg, c, now) && n == FailuresSinceSuccess(c.log)
    ensures
      && c.kv.failures.GetOr(0) == (if n < cfg.threshold then n else cfg.threshold)
      && (n < cfg.threshold <==> c.kv.IsClosed())
      && (n >= cfg.threshold <==> c.kv.openUntil.Some?)
      && (n >= cfg.threshold ==> LastFailure(c.log).Some?)
      && (n >= cfg.threshold ==> c.kv.openUntil.value == WholeSeconds(LastFailure(c.log).value + cfg.cooldown))
  {
  }

  /** What the entries of a channel mean after any run: the failure counter is the number of counted
      failures since the last success, capped at the threshold; the circuit is closed exactly below the
      threshold; and an opened circuit carries the end of the cooldown of the last counted failure. */
  lemma BreakerMeaning(cfg: Config, events: seq<Event>, channel: string, c: Channel, n: nat)
    requires cfg.Armed() && Chronological(events)
    requires c == Get(Run(cfg, events), channel) && n == FailuresSinceSuccess(c.log)
    ensures
      && c.kv.failures.GetOr(0) == (if n < cfg.threshold then n else cfg.threshold)
      && (n < cfg.threshold <==> c.kv.IsClosed())
      && (n >= cfg.threshold <==> c.kv.openUntil.Some?)
      && (n >= cfg.threshold ==> LastFailure(c.log).Some?)
      && (n >= cfg.threshold ==> c.kv.openUntil.value == WholeSeconds(LastFailure(c.log).value + cfg.cooldown))
  {
    RunKeepsInv(cfg, events, channel);
    MeansExactly(cfg, c, n, LastTime(events));
  }

  /** Once the threshold has been reached, no cycle starts before the cooldown of the last counted failure
      is over (cut to whole seconds), so counted failures come more than cooldown - 1s apart. */
  lemma OneFailurePerCooldown(cfg: Config, events: seq<Event>, channel: string, log: seq<Cycle>, j: nat)
    requires cfg.Armed() && Chronological(events)
    requires log == Get(Run(cfg, events), channel).log && j < |log|
    requires FailuresSinceSuccess(log[..j]) >= cfg.threshold
    ensures LastFailure(log[..j]).Some?
    ensures log[j].start >= WholeSeconds(LastFailure(log[..j]).value + cfg.cooldown)
    ensures log[j].end - LastFailure(log[..j]).value > cfg.cooldown - SECOND
  {
    CooldownsAreKept(cfg, events, channel);
    Spaced(cfg, log, j);
  }

  /** A channel has one cycle at a time: a poll during a cycle does nothing, the end of a cycle is entered in the
      log with its start and its outcome, and nothing ends that has not started. */
  lemma OneCycleAtATime(cfg: Config, events: seq<Event>, channel: string, now: int, outcome: Outcome, c: Channel)
    requires c == Get(Run(cfg, events), channel)
    ensures c.running.Some? ==> Get(Run(cfg, events + [Poll(channel, now)]), channel) == c
    ensures c.running.None? ==> Get(Run(cfg, events + [Finish(channel, outcome, now)]), channel) == c
    ensures c.running.Some? ==>
      var c' := Get(Run(cfg, events + [Finish(channel, outcome, now)]), channel);
      c'.running.None? && c'.log == c.log + [Cycle(c.running.value, outcome, now)]
  {
    LastEventCounts(cfg, events, Poll(channel, now), c);
    LastEventCounts(cfg, events, Finish(channel, outcome, now), c);
  }

  /** The channel may start a cycle: it is below the threshold, or the cooldown of its last counted failure is over. */
  predicate MayStart(cfg: Config, n: nat, last: Option<int>, now: int) {
    n < cfg.threshold || (last.Some? && WholeSeconds(last.value + cfg.cooldown) <= now)
  }

  lemma StepStartsIff(cfg: Config, c: Channel, channel: string, now: int)
    requires cfg.Armed() && Inv(cfg, c, now) && c.running.None?
    ensures StepChannel(cfg, c, Poll(channel, now)).running
         == if MayStart(cfg, FailuresSinceSuccess(c.log), LastFailure(c.log), now) then Some(now) else None
  {
  }

  lemma InvBefore(cfg: Config, events: seq<Event>, e: Event)
    requires cfg.Armed() && Chronological(events + [e])
    ensures Inv(cfg, Get(Run(cfg, events), e.channel), e.now)
  {
    var all := events + [e];
    assert all[|events|] == e;
    forall i | 0 <= i < |events| ensures events[i] == all[i] {}
    RunKeepsInv(cfg, events, e.channel);
  }

  lemma LastEventCounts(cfg: Config, events: seq<Event>, e: Event, c: Channel)
    requires c == Get(Run(cfg, events), e.channel)
    ensures Get(Run(cfg, events + [e]), e.channel) == StepChannel(cfg, c, e)
  {
    assert (events + [e])[..|events|] == events;
  }

  /** And as soon as it is over, or below the threshold at once, the next poll of an idle channel starts a cycle:
      polls are refused exactly while the history asks for it, so no circuit stays open for good. */
  lemma PollStartsIff(cfg: Config, events: seq<Event>, channel: string, now: int, c: Channel)
    requires cfg.Armed() && Chronological(events + [Poll(channel, now)])
    requires c == Get(Run(cfg, events), channel) && c.running.None?
    ensures Get(Run(cfg, events + [Poll(channel, now)]), channel).running
         == if MayStart(cfg, FailuresSinceSuccess(c.log), LastFailure(c.log), now) then Some(now) else None
  {
    InvBefore(cfg, events, Poll(channel, now));
    StepStartsIff(cfg, c, channel, now);
    LastEventCounts(cfg, events, Poll(channel, now), c);
  }

  lemma CooldownsAreKept(cfg: Config, events: seq<Event>, channel: string)
    requires cfg.Armed() && Chronological(events)
    ensures CooldownsKept(cfg, Get(Run(cfg, events), channel).log)
  {
    RunKeepsInv(cfg, events, channel);
  }

  lemma Spaced(cfg: Config, log: seq<Cycle>, j: nat)
    requires cfg.Armed() && CooldownsKept(cfg, log) && j < |log|
    requires FailuresSinceSuccess(log[..j]) >= cfg.threshold
    ensures LastFailure(log[..j]).Some?
    ensures log[j].start >= WholeSeconds(LastFailure(log[..j]).value + cfg.cooldown)
    ensures log[j].end - LastFailure(log[..j]).value > cfg.cooldown - SECOND
  {
    FailuresHaveALast(cfg, log[..j]);
    assert CycleInTime(cfg, log[..j], log[j]);
  }

  lemma {:induction false} FailuresHaveALast(cfg: Config, log: seq<Cycle>)
    ensures FailuresSinceSuccess(log) > 0 <==> LastFailure(log).Some?
  {
    if log != [] {
      FailuresHaveALast(cfg, log[..|log| - 1]);
    }
  }

  function Of(events: seq<Event>, channel: string): (own: seq<Event>)
    ensures forall e :: e in own <==> e in events && e.channel == channel
  {
    if events == [] then []
    else
      var front := Of(events[..|events| - 1], channel);
      var e := events[|events| - 1];
      if e.channel == channel then front + [e] else front
  }

  /** A channel ends up as if the other channels did not exist. */
  lemma {:induction false} ChannelsAreIndependent(cfg: Config, events: seq<Event>, channel: string)
    ensures Get(Run(cfg, events), channel) == Get(Run(cfg, Of(events, channel)), channel)
  {
    if events != [] {
      var front, e := events[..|events| - 1], events[|events| - 1];
      ChannelsAreIndependent(cfg, front, channel);
      if e.channel == channel {
        assert Of(events, channel)[..|Of(events, channel)| - 1] == Of(front, channel);
      }
    }
  }
}
