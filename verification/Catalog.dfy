/** Paging through a channel's archive with a saved cursor (backend/vod/catalog.go). A listing is the sequence of
    its pages; the cursor of page i names page i + 1, and the last page has none. */
module Catalog {
  import opened Common

  const FULL_PAGE := 100

  datatype Vod = Vod(id: string, date: int)

  /** A failed run hands nothing to its caller: either it has no result, or the caller drops it. */
  datatype Fetch = Fetched(vods: seq<Vod>) | Failed

  /** How many VODs a run asks for at a time. */
  function PageSize(maxCount: nat): nat {
    if 0 < maxCount < FULL_PAGE then maxCount else FULL_PAGE
  }

  // ---- What a run should return ----

  /** The VODs from page c on, up to the first empty page. */
  function Rest(pages: seq<seq<Vod>>, c: nat): seq<Vod>
    decreases |pages| - c
  {
    if c >= |pages| || pages[c] == [] then [] else pages[c] + Rest(pages, c + 1)
  }

  predicate Old(v: Vod, cutoff: Option<int>) {
    cutoff.Some? && v.date < cutoff.value
  }

  /** The first VOD from index i on that is too old. */
  function FirstOld(vods: seq<Vod>, cutoff: Option<int>, i: nat): (n: nat)
    requires i <= |vods|
    ensures i <= n <= |vods|
    ensures forall k | i <= k < n :: !Old(vods[k], cutoff)
    ensures n < |vods| ==> Old(vods[n], cutoff)
    decreases |vods| - i
  {
    if i == |vods| || Old(vods[i], cutoff) then i else FirstOld(vods, cutoff, i + 1)
  }

  /** An age limit keeps the VODs before the first one that is older than the limit, and no limit keeps all. */
  lemma RecentMeans(vods: seq<Vod>, cutoff: Option<int>)
    ensures Recent(vods, cutoff) <= vods
    ensures cutoff.None? ==> Recent(vods, cutoff) == vods
    ensures cutoff.Some? ==>
      && (forall k | 0 <= k < |Recent(vods, cutoff)| :: vods[k].date >= cutoff.value)
      && (|Recent(vods, cutoff)| < |vods| ==> vods[|Recent(vods, cutoff)|].date < cutoff.value)
  {
  }

  predicate AllRecent(vods: seq<Vod>, cutoff: Option<int>) {
    FirstOld(vods, cutoff, 0) == |vods|
  }

  /** The VODs before the first one that is too old. */
  function Recent(vods: seq<Vod>, cutoff: Option<int>): seq<Vod> {
    vods[..FirstOld(vods, cutoff, 0)]
  }

  /** At most so many of them; zero means no limit. */
  function Room(maxCount: nat): Option<nat> {
    if maxCount == 0 then None else Some(maxCount)
  }

  function Limit(vods: seq<Vod>, room: Option<nat>): seq<Vod> {
    if room.Some? && room.value < |vods| then vods[..room.value] else vods
  }

  function Less(room: Option<nat>, n: nat): Option<nat>
    requires room.Some? ==> n <= room.value
  {
    if room.Some? then Some(room.value - n) else None
  }

  /** Whether a page uses the room up. */
  predicate Fills(page: seq<Vod>, room: Option<nat>) {
    room.Some? && room.value <= |page|
  }

  /** The page with which a run that starts at page c ends, when asking for page `broken` fails. */
  function Stop(pages: seq<seq<Vod>>, c: nat, room: Option<nat>, cutoff: Option<int>, broken: Option<nat>): (s: nat)
    ensures s >= c
    decreases |pages| - c
  {
    if broken == Some(c) || c + 1 >= |pages| || pages[c] == [] || !AllRecent(pages[c], cutoff)
       || Fills(pages[c], room)
    then c
    else Stop(pages, c + 1, Less(room, |pages[c]|), cutoff, broken)
  }

  // ---- Paging ----

  lemma RecentOfSum(a: seq<Vod>, b: seq<Vod>, cutoff: Option<int>)
    ensures AllRecent(a, cutoff) ==> Recent(a + b, cutoff) == a + Recent(b, cutoff)
    ensures !AllRecent(a, cutoff) ==> Recent(a + b, cutoff) == Recent(a, cutoff)
  {
    var i, j, k := FirstOld(a, cutoff, 0), FirstOld(b, cutoff, 0), FirstOld(a + b, cutoff, 0);
    assert forall t | 0 <= t < |a| :: (a + b)[t] == a[t];
    assert forall t | 0 <= t < |b| :: (a + b)[|a| + t] == b[t];
    assert i == |a| && j < |b| ==> Old((a + b)[|a| + j], cutoff);
    assert k >= |a| && k < |a| + |b| ==> (a + b)[k] == b[k - |a|];
  }

  lemma LimitOfSum(a: seq<Vod>, b: seq<Vod>, room: Option<nat>)
    ensures Fills(a, room) ==> Limit(a + b, room) == Limit(a, room)
    ensures !Fills(a, room) ==> Limit(a + b, room) == a + Limit(b, Less(room, |a|))
  {
  }

  /** What a run gets from its first page, and from the rest. */
  lemma PageByPage(pages: seq<seq<Vod>>, c: nat, room: Option<nat>, cutoff: Option<int>)
    requires c < |pages| && pages[c] != []
    ensures !AllRecent(pages[c], cutoff) || Fills(pages[c], room) ==>
      Limit(Recent(Rest(pages, c), cutoff), room) == Limit(Recent(pages[c], cutoff), room)
    ensures AllRecent(pages[c], cutoff) && !Fills(pages[c], room) ==>
      Limit(Recent(Rest(pages, c), cutoff), room)
      == pages[c] + Limit(Recent(Rest(pages, c + 1), cutoff), Less(room, |pages[c]|))
  {
    RecentOfSum(pages[c], Rest(pages, c + 1), cutoff);
    LimitOfSum(pages[c], Recent(Rest(pages, c + 1), cutoff), room);
  }

  lemma NoCutoff(vods: seq<Vod>)
    ensures Recent(vods, None) == vods && AllRecent(vods, None)
  {
    assert !(FirstOld(vods, None, 0) < |vods|);
  }

  /** A run that did not fail has every VOD of the pages it moved past. */
  lemma {:induction false} PagesPassedAreReturned(pages: seq<seq<Vod>>, c: nat, room: Option<nat>, broken: Option<nat>,
      i: nat)
    requires c <= i < Stop(pages, c, room, None, broken) && i < |pages|
    ensures forall v | v in pages[i] :: v in Limit(Rest(pages, c), room)
    decreases |pages| - c
  {
    NoCutoff(Rest(pages, c));
    NoCutoff(Rest(pages, c + 1));
    PageByPage(pages, c, room, None);
    if i > c {
      PagesPassedAreReturned(pages, c + 1, Less(room, |pages[c]|), broken, i);
    }
  }

  lemma {:induction false} StopIsAPage(pages: seq<seq<Vod>>, c: nat, room: Option<nat>, broken: Option<nat>)
    requires c < |pages|
    ensures Stop(pages, c, room, None, broken) < |pages|
    decreases |pages| - c
  {
    if Stop(pages, c, room, None, broken) != c {
      StopIsAPage(pages, c + 1, Less(room, |pages[c]|), broken);
    }
  }

  // ---- Runs ----

  /** The saved cursor, as the page it names, and the ids in the table of VODs. */
  datatype History = History(cursor: nat, ids: set<string>)

  function Ids(vods: seq<Vod>): set<string> {
    set v | v in vods :: v.id
  }

  /** One run of the backfill without an age limit. */
  function RunOnce(pages: seq<seq<Vod>>, maxCount: nat, h: History, broken: Option<nat>): History {
    var stop := Stop(pages, h.cursor, Room(maxCount), None, broken);
    History(stop, if broken == Some(stop) then h.ids else h.ids + Ids(Limit(Rest(pages, h.cursor), Room(maxCount))))
  }

  /** So many runs without errors. */
  function Runs(pages: seq<seq<Vod>>, maxCount: nat, h: History, n: nat): History {
    if n == 0 then h else RunOnce(pages, maxCount, Runs(pages, maxCount, h, n - 1), None)
  }

  predicate Has(h: History, page: seq<Vod>) {
    Ids(page) <= h.ids
  }

  /** No VOD before the cursor is missing from the table. */
  predicate NoGap(pages: seq<seq<Vod>>, h: History) {
    forall i | 0 <= i < h.cursor && i < |pages| :: Has(h, pages[i])
  }

  lemma SuccessHasItsPages(pages: seq<seq<Vod>>, maxCount: nat, h: History, broken: Option<nat>, i: nat)
    requires h.cursor <= i < RunOnce(pages, maxCount, h, broken).cursor && i < |pages|
    requires broken != Some(RunOnce(pages, maxCount, h, broken).cursor)
    ensures Has(RunOnce(pages, maxCount, h, broken), pages[i])
  {
    PagesPassedAreReturned(pages, h.cursor, Room(maxCount), broken, i);
  }

  /** A run leaves no gap exactly if it does not fail after it moved the cursor, or had nothing new to bring. */
  lemma RunLeavesNoGapIff(pages: seq<seq<Vod>>, maxCount: nat, h: History, broken: Option<nat>)
    requires NoGap(pages, h)
    ensures var stop := Stop(pages, h.cursor, Room(maxCount), None, broken);
      NoGap(pages, RunOnce(pages, maxCount, h, broken)) <==>
      (broken != Some(stop) || forall i | h.cursor <= i < stop && i < |pages| :: Has(h, pages[i]))
  {
    var h' := RunOnce(pages, maxCount, h, broken);
    if broken != Some(h'.cursor) {
      forall i | 0 <= i < h'.cursor && i < |pages|
        ensures Has(h', pages[i])
      {
        if i < h.cursor {
          assert Has(h, pages[i]);
        } else {
          SuccessHasItsPages(pages, maxCount, h, broken, i);
        }
      }
    }
  }

  /** Over any number of runs without errors, everything before the saved cursor has been inserted. */
  lemma {:induction false} CatalogHasNoGaps(pages: seq<seq<Vod>>, maxCount: nat, n: nat)
    ensures NoGap(pages, Runs(pages, maxCount, History(0, {}), n))
  {
    if n > 0 {
      CatalogHasNoGaps(pages, maxCount, n - 1);
      RunLeavesNoGapIff(pages, maxCount, Runs(pages, maxCount, History(0, {}), n - 1), None);
    }
  }

  // ---- How far the runs get ----

  /** Without errors a run goes one page on at least, unless the page it starts with is the last, is empty or
      fills the limit: then no run ever gets further. */
  lemma RunMovesIff(pages: seq<seq<Vod>>, maxCount: nat, h: History)
    ensures RunOnce(pages, maxCount, h, None).cursor > h.cursor <==>
      (h.cursor + 1 < |pages| && pages[h.cursor] != [] && (maxCount == 0 || |pages[h.cursor]| < maxCount))
  {
    if h.cursor < |pages| {
      NoCutoff(pages[h.cursor]);
    }
  }

  predicate Passable(pages: seq<seq<Vod>>, maxCount: nat) {
    forall i | 0 <= i < |pages| - 1 :: pages[i] != [] && (maxCount == 0 || |pages[i]| < maxCount)
  }

  lemma {:induction false} CursorAdvances(pages: seq<seq<Vod>>, maxCount: nat, n: nat)
    requires pages != [] && Passable(pages, maxCount)
    ensures |pages| > Runs(pages, maxCount, History(0, {}), n).cursor
         >= if n < |pages| - 1 then n else |pages| - 1
  {
    if n > 0 {
      var h := Runs(pages, maxCount, History(0, {}), n - 1);
      CursorAdvances(pages, maxCount, n - 1);
      RunMovesIff(pages, maxCount, h);
      StopIsAPage(pages, h.cursor, Room(maxCount), None);
    }
  }

  lemma LastPageArrives(pages: seq<seq<Vod>>, maxCount: nat, h: History)
    requires pages != [] && h.cursor == |pages| - 1
    requires |pages[|pages| - 1]| <= PageSize(maxCount)
    ensures Has(RunOnce(pages, maxCount, h, None), pages[|pages| - 1])
  {
    assert Rest(pages, |pages|) == [];
    if pages[|pages| - 1] != [] {
      assert Rest(pages, |pages| - 1) == pages[|pages| - 1];
    }
  }

  /** If no page but the last is empty or fills the limit, as many runs as there are pages bring everything. */
  lemma EverythingArrives(pages: seq<seq<Vod>>, maxCount: nat, i: nat)
    requires i < |pages| && Passable(pages, maxCount)
    requires |pages[|pages| - 1]| <= PageSize(maxCount)
    ensures Has(Runs(pages, maxCount, History(0, {}), |pages|), pages[i])
  {
    var n := |pages| - 1;
    var h := Runs(pages, maxCount, History(0, {}), n);
    CursorAdvances(pages, maxCount, n);
    if i < n {
      CatalogHasNoGaps(pages, maxCount, n);
      assert Has(h, pages[i]);
    } else {
      LastPageArrives(pages, maxCount, h);
    }
  }

  /** The ids on the pages up to and including page b. */
  function UpTo(pages: seq<seq<Vod>>, b: nat): set<string>
    requires b < |pages|
  {
    set i, v | 0 <= i <= b && v in pages[i] :: v.id
  }

  lemma {:induction false} NothingPast(pages: seq<seq<Vod>>, c: nat, room: Option<nat>, b: nat)
    requires c <= b < |pages| && (pages[b] == [] || Fills(pages[b], room))
    ensures Ids(Limit(Rest(pages, c), room)) <= UpTo(pages, b)
    decreases |pages| - c
  {
    if pages[c] != [] {
      NoCutoff(Rest(pages, c));
      NoCutoff(Rest(pages, c + 1));
      NoCutoff(pages[c]);
      PageByPage(pages, c, room, None);
      if c < b && !Fills(pages[c], room) {
        NothingPast(pages, c + 1, Less(room, |pages[c]|), b);
      }
    }
  }

  lemma {:induction false} StopsBefore(pages: seq<seq<Vod>>, c: nat, room: Option<nat>, b: nat)
    requires c <= b < |pages| && (pages[b] == [] || Fills(pages[b], room))
    ensures Stop(pages, c, room, None, None) <= b
    decreases |pages| - c
  {
    if Stop(pages, c, room, None, None) != c && c < b {
      StopsBefore(pages, c + 1, Less(room, |pages[c]|), b);
    }
  }

  /** No run gets past a page that is empty or fills the limit, however often it is tried. */
  lemma {:induction false} NothingPastAFullPage(pages: seq<seq<Vod>>, maxCount: nat, b: nat, n: nat)
    requires b < |pages| && (pages[b] == [] || 0 < maxCount <= |pages[b]|)
    ensures Runs(pages, maxCount, History(0, {}), n).cursor <= b
    ensures Runs(pages, maxCount, History(0, {}), n).ids <= UpTo(pages, b)
  {
    if n > 0 {
      var h := Runs(pages, maxCount, History(0, {}), n - 1);
      NothingPastAFullPage(pages, maxCount, b, n - 1);
      NothingPast(pages, h.cursor, Room(maxCount), b);
      StopsBefore(pages, h.cursor, Room(maxCount), b);
    }
  }

  /** With a limit of at most 100 a full first page is as large as the limit, and so is all that ever arrives; with a
      higher limit, or none, pages have 100. */
  lemma SmallLimitsStick(pages: seq<seq<Vod>>, maxCount: nat, n: nat)
    requires pages != [] && |pages[0]| == PageSize(maxCount)
    ensures 0 < maxCount <= 100 ==>
      |pages[0]| == maxCount
      && Runs(pages, maxCount, History(0, {}), n).cursor == 0
      && Runs(pages, maxCount, History(0, {}), n).ids <= UpTo(pages, 0)
    ensures maxCount == 0 || maxCount > 100 ==> |pages[0]| == 100
  {
    if 0 < maxCount <= 100 {
      NothingPastAFullPage(pages, maxCount, 0, n);
    }
  }

  /** A listing as the API hands it out: no page is empty or larger than asked for, no VOD is on two pages. */
  predicate Listing(pages: seq<seq<Vod>>, maxCount: nat) {
    && pages != []
    && (forall i | 0 <= i < |pages| :: 0 < |pages[i]| <= PageSize(maxCount))
    && (forall i, j | 0 <= i < j < |pages| :: Ids(pages[i]) !! Ids(pages[j]))
  }

  /** However often the backfill runs, the whole listing arrives exactly if no page but the last is as large as
      the limit, and then it takes no more runs than there are pages. With a limit of at most one page, which
      is then the page size, a full first page is all that ever arrives. */
  lemma BackfillCompletesIff(pages: seq<seq<Vod>>, maxCount: nat, n: nat)
    requires Listing(pages, maxCount) && n >= |pages|
    ensures (forall i | 0 <= i < |pages| :: Has(Runs(pages, maxCount, History(0, {}), n), pages[i]))
      <==> (maxCount == 0 || forall i | 0 <= i < |pages| - 1 :: |pages[i]| < maxCount)
  {
    var h := Runs(pages, maxCount, History(0, {}), n);
    if maxCount == 0 || forall i | 0 <= i < |pages| - 1 :: |pages[i]| < maxCount {
      forall i | 0 <= i < |pages|
        ensures Has(h, pages[i])
      {
        EverythingArrives(pages, maxCount, i);
        MoreRunsBringMore(pages, maxCount, |pages|, n);
      }
    } else {
      var b :| 0 <= b < |pages| - 1 && |pages[b]| >= maxCount;
      NothingPastAFullPage(pages, maxCount, b, n);
      NextPageIsMissing(pages, maxCount, b);
    }
  }

  lemma {:induction false} MoreRunsBringMore(pages: seq<seq<Vod>>, maxCount: nat, m: nat, n: nat)
    requires m <= n
    ensures Runs(pages, maxCount, History(0, {}), m).ids <= Runs(pages, maxCount, History(0, {}), n).ids
  {
    if m < n {
      MoreRunsBringMore(pages, maxCount, m, n - 1);
    }
  }

  lemma NextPageIsMissing(pages: seq<seq<Vod>>, maxCount: nat, b: nat)
    requires Listing(pages, maxCount) && b + 1 < |pages|
    ensures !(Ids(pages[b + 1]) <= UpTo(pages, b))
  {
    var v := pages[b + 1][0];
    assert v.id in Ids(pages[b + 1]);
    forall i, u | 0 <= i <= b && u in pages[i]
      ensures u.id != v.id
    {
      assert u.id in Ids(pages[i]);
    }
  }

  // ---- What a failed run loses ----

  lemma {:induction false} RestIsFurtherOn(pages: seq<seq<Vod>>, c: nat, i: nat)
    requires i < c && i < |pages|
    requires forall j | i < j < |pages| :: Ids(pages[i]) !! Ids(pages[j])
    ensures Ids(pages[i]) !! Ids(Rest(pages, c))
    decreases |pages| - c
  {
    if c < |pages| && pages[c] != [] {
      RestIsFurtherOn(pages, c + 1, i);
      assert Ids(Rest(pages, c)) == Ids(pages[c]) + Ids(Rest(pages, c + 1));
    }
  }

  /** What is missing before the cursor stays missing: no later run goes back for it. */
  lemma {:induction false} GapsStay(pages: seq<seq<Vod>>, maxCount: nat, h: History, n: nat, i: nat)
    requires Listing(pages, maxCount) && i < h.cursor && i < |pages|
    ensures Runs(pages, maxCount, h, n).cursor >= h.cursor
    ensures Ids(pages[i]) * Runs(pages, maxCount, h, n).ids == Ids(pages[i]) * h.ids
  {
    if n > 0 {
      var before := Runs(pages, maxCount, h, n - 1);
      GapsStay(pages, maxCount, h, n - 1, i);
      RestIsFurtherOn(pages, before.cursor, i);
      var all := Rest(pages, before.cursor);
      assert Ids(Limit(all, Room(maxCount))) <= Ids(all);
    }
  }

  // ---- Runs that go wrong ------------------------------------------------------------------

  const NEWER := Vod("1", 30)
  const OLDER := Vod("2", 20)
  const TWO_PAGES := [[NEWER], [OLDER]]

  /** Two VODs and a limit of one VOD a run: the second one never arrives. */
  lemma {:induction false} OneAtATimeNeverArrives(n: nat)
    ensures Listing(TWO_PAGES, 1) && |TWO_PAGES[0]| == PageSize(1)
    ensures "2" !in Runs(TWO_PAGES, 1, History(0, {}), n).ids
  {
    NothingPastAFullPage(TWO_PAGES, 1, 0, n);
    assert UpTo(TWO_PAGES, 0) == {"1"};
  }

  /** A first run that fails on the second page has moved the cursor and lost the first page for good, although
      every later run succeeds. */
  lemma FailureAfterSavingLosesAPage(n: nat)
    ensures RunOnce(TWO_PAGES, 0, History(0, {}), Some(1)) == History(1, {})
    ensures "1" !in Runs(TWO_PAGES, 0, RunOnce(TWO_PAGES, 0, History(0, {}), Some(1)), n).ids
  {
    NoCutoff(TWO_PAGES[0]);
    assert Stop(TWO_PAGES, 1, None, None, Some(1)) == 1;
    assert RunOnce(TWO_PAGES, 0, History(0, {}), Some(1)) == History(1, {});
    assert Ids(TWO_PAGES[0]) == {"1"} && Ids(TWO_PAGES[1]) == {"2"};
    GapsStay(TWO_PAGES, 0, History(1, {}), n, 0);
    var ids := Runs(TWO_PAGES, 0, History(1, {}), n).ids;
    assert ("1" in {"1"} * ids) == ("1" in ids);
  }

  // ---- One run, page by page ----

  /** With what was collected so far, a run that started at page `first` goes on as one from page `after`. */
  predicate OnTrack(pages: seq<seq<Vod>>, first: nat, after: nat, maxCount: nat, cutoff: Option<int>,
    broken: Option<nat>, collected: seq<Vod>)
    requires maxCount > 0 ==> |collected| <= maxCount
  {
    var room := Less(Room(maxCount), |collected|);
    && Stop(pages, first, Room(maxCount), cutoff, broken) == Stop(pages, after, room, cutoff, broken)
    && Limit(Recent(Rest(pages, first), cutoff), Room(maxCount))
       == collected + Limit(Recent(Rest(pages, after), cutoff), room)
  }

  lemma NextPage(pages: seq<seq<Vod>>, first: nat, after: nat, maxCount: nat, cutoff: Option<int>,
      broken: Option<nat>, collected: seq<Vod>)
    requires maxCount > 0 ==> |collected| <= maxCount
    requires OnTrack(pages, first, after, maxCount, cutoff, broken, collected)
    requires broken != Some(after) && after + 1 < |pages| && pages[after] != [] && AllRecent(pages[after], cutoff)
    requires !Fills(pages[after], Less(Room(maxCount), |collected|))
    ensures OnTrack(pages, first, after + 1, maxCount, cutoff, broken, collected + pages[after])
  {
    var room := Less(Room(maxCount), |collected|);
    var rest := Limit(Recent(Rest(pages, after + 1), cutoff), Less(room, |pages[after]|));
    PageByPage(pages, after, room, cutoff);
    assert Less(Room(maxCount), |collected + pages[after]|) == Less(room, |pages[after]|);
    Regroup(collected, pages[after], rest);
  }

  /** How a run that is on its way ends. */
  ghost predicate EndsWith(pages: seq<seq<Vod>>, first: nat, maxCount: nat, cutoff: Option<int>, broken: Option<nat>,
    stop: nat, r: Fetch)
  {
    && stop == Stop(pages, first, Room(maxCount), cutoff, broken)
    && (r.Failed? <==> broken == Some(stop))
    && (r.Fetched? ==> r.vods == Limit(Recent(Rest(pages, first), cutoff), Room(maxCount)))
  }

  lemma NoMorePages(pages: seq<seq<Vod>>, first: nat, after: nat, maxCount: nat, cutoff: Option<int>,
      broken: Option<nat>, collected: seq<Vod>)
    requires maxCount > 0 ==> |collected| < maxCount
    requires OnTrack(pages, first, after, maxCount, cutoff, broken, collected)
    requires after >= |pages| || pages[after] == [] || broken == Some(after)
    ensures EndsWith(pages, first, maxCount, cutoff, broken, after,
                     if broken == Some(after) then Failed else Fetched(collected))
  {
  }

  lemma WhatWasAdded(page: seq<Vod>, room: Option<nat>, cutoff: Option<int>)
    ensures var added := Limit(Recent(page, cutoff), room);
      && (room.Some? ==> |added| <= room.value)
      && (AllRecent(page, cutoff) && !Fills(page, room) ==> added == page && (room.Some? ==> |page| < room.value))
      && (AllRecent(page, cutoff) && Fills(page, room) ==> |added| == room.value)
  {
  }

  /** What AddPage did either ends the run or takes it to the next page. */
  lemma PageAdded(pages: seq<seq<Vod>>, first: nat, after: nat, maxCount: nat, cutoff: Option<int>,
      broken: Option<nat>, before: seq<Vod>, collected: seq<Vod>, tooOld: bool)
    requires maxCount > 0 ==> |before| < maxCount
    requires OnTrack(pages, first, after, maxCount, cutoff, broken, before)
    requires broken != Some(after) && after < |pages| && pages[after] != []
    requires collected == before + Limit(Recent(pages[after], cutoff), Less(Room(maxCount), |before|))
    requires tooOld ==> !AllRecent(pages[after], cutoff)
    requires !tooOld ==> AllRecent(pages[after], cutoff) || (maxCount > 0 && |collected| == maxCount)
    ensures maxCount > 0 ==> |collected| <= maxCount
    ensures tooOld || after + 1 == |pages| || (maxCount > 0 && |collected| >= maxCount) ==>
      EndsWith(pages, first, maxCount, cutoff, broken, after, Fetched(collected))
    ensures !(tooOld || after + 1 == |pages| || (maxCount > 0 && |collected| >= maxCount)) ==>
      OnTrack(pages, first, after + 1, maxCount, cutoff, broken, collected)
  {
    var page, room := pages[after], Less(Room(maxCount), |before|);
    WhatWasAdded(page, room, cutoff);
    if after + 1 == |pages| || !AllRecent(page, cutoff) || Fills(page, room) {
      LastPage(pages, first, after, maxCount, cutoff, broken, before);
    } else {
      NextPage(pages, first, after, maxCount, cutoff, broken, before);
    }
  }

  lemma Regroup(a: seq<Vod>, b: seq<Vod>, c: seq<Vod>)
    ensures a + (b + c) == (a + b) + c
  {
  }

  lemma LastPage(pages: seq<seq<Vod>>, first: nat, after: nat, maxCount: nat, cutoff: Option<int>,
      broken: Option<nat>, collected: seq<Vod>)
    requires maxCount > 0 ==> |collected| <= maxCount
    requires OnTrack(pages, first, after, maxCount, cutoff, broken, collected)
    requires broken != Some(after) && after < |pages| && pages[after] != []
    requires !AllRecent(pages[after], cutoff) || Fills(pages[after], Less(Room(maxCount), |collected|))
      || after + 1 == |pages|
    ensures Stop(pages, first, Room(maxCount), cutoff, broken) == after
    ensures Limit(Recent(Rest(pages, first), cutoff), Room(maxCount))
      == collected + Limit(Recent(pages[after], cutoff), Less(Room(maxCount), |collected|))
  {
    PageByPage(pages, after, Less(Room(maxCount), |collected|), cutoff);
    assert Rest(pages, after + 1) == [] || after + 1 < |pages|;
  }

  // ---- The code ----

  class Catalog {
    var saved: nat // the page named by catalog_after; 0 while there is none
    var ids: set<string>

    function State(): History
      reads this
    {
      History(saved, ids)
    }

    constructor ()
      ensures State() == History(0, {})
    {
      saved, ids := 0, {};
    }

    /** Appends the VODs of one page; `tooOld` says that it ran into one that is too old. */
    method AddPage(page: seq<Vod>, cutoff: Option<int>, maxCount: nat, already: seq<Vod>)
      returns (collected: seq<Vod>, tooOld: bool)
      requires maxCount > 0 ==> |already| < maxCount
      ensures collected == already + Limit(Recent(page, cutoff), Less(Room(maxCount), |already|))
      ensures tooOld ==> !AllRecent(page, cutoff)
      ensures !tooOld ==> AllRecent(page, cutoff) || (maxCount > 0 && |collected| == maxCount)
    {
      collected, tooOld := already, false;
      for i := 0 to |page|
        invariant i <= FirstOld(page, cutoff, 0)
        invariant collected == already + page[..i]
        invariant maxCount > 0 ==> |collected| < maxCount
      {
        if Old(page[i], cutoff) {
          return collected, true;
        }
        assert FirstOld(page, cutoff, 0) != i;
        collected := collected + [page[i]];
        if maxCount > 0 && |collected| >= maxCount {
          return;
        }
      }
    }

    /** One pass through the loop: what was collected up to and including this page, and whether the run ends. */
    method FetchPage(pages: seq<seq<Vod>>, cutoff: Option<int>, maxCount: nat, broken: Option<nat>,
        ghost first: nat, after: nat, collected: seq<Vod>)
      returns (r: Fetch, last: bool)
      requires maxCount > 0 ==> |collected| < maxCount
      requires OnTrack(pages, first, after, maxCount, cutoff, broken, collected)
      ensures last ==> EndsWith(pages, first, maxCount, cutoff, broken, after, r)
      ensures !last ==>
        r.Fetched? && after + 1 < |pages| && (maxCount > 0 ==> |r.vods| < maxCount)
        && OnTrack(pages, first, after + 1, maxCount, cutoff, broken, r.vods)
    {
      if broken == Some(after) || after >= |pages| || pages[after] == [] {
        NoMorePages(pages, first, after, maxCount, cutoff, broken, collected);
        return if broken == Some(after) then Failed else Fetched(collected), true;
      }
      var more, tooOld := AddPage(pages[after], cutoff, maxCount, collected);
      PageAdded(pages, first, after, maxCount, cutoff, broken, collected, more, tooOld);
      return Fetched(more), tooOld || after + 1 >= |pages| || (maxCount > 0 && |more| >= maxCount);
    }

    /** One run of FetchAllChannelVODs at instant `now`; asking for page `broken` fails. */
    method FetchAll(pages: seq<seq<Vod>>, maxCount: nat, maxAge: nat, now: int, broken: Option<nat>)
      returns (r: Fetch)
      modifies this`saved
      ensures var first := if maxAge == 0 then old(saved) else 0;
        var cutoff := if maxAge == 0 then None else Some(now - maxAge);
        && EndsWith(pages, first, maxCount, cutoff, broken, Stop(pages, first, Room(maxCount), cutoff, broken), r)
        && saved == if maxAge == 0 then Stop(pages, first, Room(maxCount), cutoff, broken) else old(saved)
    {
      var cutoff := if maxAge > 0 then Some(now - maxAge) else None;
      var after := if maxAge == 0 then saved else 0;
      ghost var first := after;
      var collected: seq<Vod> := [];
      while maxCount == 0 || |collected| < maxCount
        invariant first <= after && (first < after ==> after < |pages|)
        invariant maxCount > 0 ==> |collected| < maxCount
        invariant maxAge == 0 ==> saved == after
        invariant maxAge > 0 ==> saved == old(saved)
        invariant OnTrack(pages, first, after, maxCount, cutoff, broken, collected)
        decreases |pages| - after
      {
        var last;
        r, last := FetchPage(pages, cutoff, maxCount, broken, first, after, collected);
        if last {
          return;
        }
        collected := r.vods;
        after := after + 1;
        if maxAge == 0 {
          saved := after;
        }
      }
      r := Fetched(collected);
    }

    /** BackfillCatalog: inserts what a run returned, and nothing if it failed. */
    method Backfill(pages: seq<seq<Vod>>, maxCount: nat, maxAge: nat, now: int, broken: Option<nat>)
      modifies this
      ensures maxAge == 0 ==> State() == RunOnce(pages, maxCount, old(State()), broken)
      ensures maxAge > 0 ==> (
        saved == old(saved)
        && ids == old(ids)
             + if broken == Some(Stop(pages, 0, Room(maxCount), Some(now - maxAge), broken)) then {}
               else Ids(Limit(Recent(Rest(pages, 0), Some(now - maxAge)), Room(maxCount))))
    {
      var r := FetchAll(pages, maxCount, maxAge, now, broken);
      if r.Failed? {
        return;
      }
      NoCutoff(Rest(pages, old(saved)));
      for i := 0 to |r.vods|
        invariant saved == RunOnce(pages, maxCount, old(State()), broken).cursor || maxAge > 0
        invariant maxAge > 0 ==> saved == old(saved)
        invariant ids == old(ids) + Ids(r.vods[..i])
      {
        ids := ids + {r.vods[i].id};
      }
      assert r.vods[..|r.vods|] == r.vods;
    }
  }
}
