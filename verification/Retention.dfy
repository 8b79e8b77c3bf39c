/** The retention job of backend/vod/retention.go: which files a cleanup pass deletes. */
module Retention {
  import opened Common

  const HOUR: int := 3600 * SECOND

  /** The columns of vods that the job looks at. `downloading` says that download_state is one of the two
      active states, `uploaded` that youtube_url is set. */
  datatype Row = Row(
    channel: string, date: int, processed: bool, uploaded: bool, downloading: bool,
    path: Option<string>, updatedAt: Option<int>
  ) {
    predicate HasFile() { path.Some? && path.value != "" }
  }

  type Table = map<string, Row>

  datatype Policy = Policy(keepDays: nat, keepCount: nat, dryRun: bool) {
    /** The job does not even start. */
    predicate Disabled() { keepDays == 0 && keepCount == 0 }
  }

  /** What the job sees: `order` is the channel's part of the table in the order of the query that sorts by
      date, newest first; of the existing files some may not be examined, and some not be removed. */
  datatype View = View(channel: string, order: seq<string>, now: int, unreadable: set<string>, undeletable: set<string>)

  ghost predicate IsOrder(table: Table, v: View) {
    && (forall id :: id in v.order <==> id in table && table[id].channel == v.channel)
    && (forall i, j | 0 <= i < j < |v.order| ::
          v.order[i] in table && v.order[j] in table && v.order[i] != v.order[j]
          && table[v.order[i]].date >= table[v.order[j]].date)
  }

  predicate IsRecent(policy: Policy, r: Row, now: int) {
    policy.keepDays > 0 && r.date >= now - policy.keepDays * DAY
  }

  function Newest(policy: Policy, v: View): seq<string> {
    if policy.keepCount < |v.order| then v.order[..policy.keepCount] else v.order
  }

  predicate IsActive(r: Row, now: int) {
    || (!r.processed && r.path.Some?)
    || (r.updatedAt.Some? && r.updatedAt.value > now - HOUR && !r.uploaded && r.path.Some?)
    || r.downloading
  }

  /** The row survives: it is recent, among the newest, or somebody may be working on it. */
  predicate Retained(policy: Policy, table: Table, v: View, id: string)
    requires id in table
  {
    table[id].channel == v.channel &&
    (IsRecent(policy, table[id], v.now) || id in Newest(policy, v) || IsActive(table[id], v.now))
  }

  /** The rows that the job looks through. */
  predicate Listed(table: Table, v: View, id: string)
    requires id in table
  {
    table[id].channel == v.channel && table[id].HasFile()
  }

  /** The rows whose path a pass clears. */
  function Doomed(policy: Policy, table: Table, files: set<string>, v: View): set<string> {
    set id <- table | Listed(table, v, id) && !Retained(policy, table, v, id)
      && !(table[id].path.value in files && table[id].path.value in v.unreadable + v.undeletable)
  }

  function Cleared(r: Row, files: set<string>, now: int): Row
    requires r.path.Some?
  {
    if r.path.value in files then r.(path := None, updatedAt := Some(now)) else r.(path := None)
  }

  /** The table and the files after a pass that clears the given rows. */
  function ClearedTable(table: Table, files: set<string>, doomed: set<string>, now: int): Table
    requires forall id <- doomed :: id in table && table[id].path.Some?
  {
    map id <- table :: if id in doomed then Cleared(table[id], files, now) else table[id]
  }

  function RemainingFiles(table: Table, files: set<string>, doomed: set<string>): set<string>
    requires forall id <- doomed :: id in table && table[id].path.Some?
  {
    set p <- files | forall id <- doomed :: table[id].path.value != p
  }

  function Cleanup(policy: Policy, table: Table, files: set<string>, v: View): (Table, set<string>) {
    if policy.dryRun then (table, files)
    else
      var doomed := Doomed(policy, table, files, v);
      (ClearedTable(table, files, doomed, v.now), RemainingFiles(table, files, doomed))
  }

  /** What the job does at each tick, if there is a policy at all. */
  function Pass(policy: Policy, table: Table, files: set<string>, v: View): (Table, set<string>) {
    if policy.Disabled() then (table, files) else Cleanup(policy, table, files, v)
  }

  // ---- One row -----------------------------------------------------------------------------

  /** What a pass makes of a listed row. */
  datatype Verdict = Skipped | Missing | Failed | Removed

  function VerdictOf(policy: Policy, table: Table, files: set<string>, v: View, id: string): Verdict
    requires id in table && table[id].path.Some?
  {
    var path := table[id].path.value;
    RowVerdict(policy, Retained(policy, table, v, id), path in files, path in v.unreadable, path in v.undeletable)
  }

  function RowVerdict(policy: Policy, retained: bool, present: bool, unreadable: bool, undeletable: bool): Verdict {
    if retained then Skipped
    else if !present then Missing
    else if unreadable || (undeletable && !policy.dryRun) then Failed
    else Removed
  }

  /** How many of the rows get this verdict. */
  function Tally(policy: Policy, table: Table, files: set<string>, v: View, ids: seq<string>, verdict: Verdict): nat {
    if ids == [] then 0
    else
      var id := ids[|ids| - 1];
      Tally(policy, table, files, v, ids[..|ids| - 1], verdict)
      + if id in table && table[id].path.Some? && VerdictOf(policy, table, files, v, id) == verdict then 1 else 0
  }

  ghost predicate DistinctPaths(table: Table) {
    forall a <- table, b <- table ::
      a != b && table[a].HasFile() && table[b].HasFile() ==> table[a].path.value != table[b].path.value
  }

  /** Clearing one more row is one more deletion: no other row has the same file. */
  lemma ClearOneMore(table: Table, files: set<string>, doomed: set<string>, id: string, now: int)
    requires DistinctPaths(table) && id !in doomed && id in table && table[id].HasFile()
    requires forall d <- doomed :: d in table && table[d].HasFile()
    ensures ClearedTable(table, files, doomed, now)[id] == table[id]
    ensures table[id].path.value in RemainingFiles(table, files, doomed) <==> table[id].path.value in files
    ensures ClearedTable(table, files, doomed + {id}, now)
         == ClearedTable(table, files, doomed, now)[id := Cleared(table[id], files, now)]
    ensures RemainingFiles(table, files, doomed + {id}) == RemainingFiles(table, files, doomed) - {table[id].path.value}
  {
  }

  // ---- The job -----------------------------------------------------------------------------

  /** Adds the ids of a query result to a set. */
  method AddAll(ids: seq<string>, into: set<string>) returns (all: set<string>)
    ensures forall id :: id in all <==> id in into || id in ids
  {
    all := into;
    for i := 0 to |ids|
      invariant forall id :: id in all <==> id in into || id in ids[..i]
    {
      all := all + {ids[i]};
    }
  }

  ghost predicate AnswersRecent(policy: Policy, table: Table, v: View, ids: seq<string>) {
    forall id :: id in ids <==>
      id in table && table[id].channel == v.channel && table[id].date >= v.now - policy.keepDays * DAY
  }

  /** updated_at > t, which a NULL never satisfies. */
  predicate UpdatedAfter(r: Row, t: int) {
    r.updatedAt.Some? && r.updatedAt.value > t
  }

  ghost predicate AnswersActive(table: Table, v: View, ids: seq<string>) {
    forall id :: id in ids <==>
      && id in table && table[id].channel == v.channel
      && ((!table[id].processed && table[id].path.Some?)
          || (UpdatedAfter(table[id], v.now - 3600 * SECOND) && !table[id].uploaded && table[id].path.Some?)
          || table[id].downloading)
  }

  ghost predicate AnswersListed(table: Table, v: View, ids: seq<string>) {
    forall id :: id in ids <==>
      && id in table && table[id].channel == v.channel && table[id].path.Some? && table[id].path.value != ""
  }

  ghost predicate Distinct(ids: seq<string>) {
    forall i, j | 0 <= i < j < |ids| :: ids[i] != ids[j]
  }

  lemma NotBefore(ids: seq<string>, i: nat)
    requires Distinct(ids) && i < |ids|
    ensures ids[i] !in ids[..i] && ids[..i + 1] == ids[..i] + [ids[i]]
  {
  }

  /** The row is one to look at, and the set of retained rows is right about it. */
  ghost predicate CanVisit(policy: Policy, table: Table, v: View, retained: set<string>, id: string) {
    id in table && Listed(table, v, id) && (id in retained <==> Retained(policy, table, v, id))
  }

  class Job {
    var table: Table
    var files: set<string>

    /** The ids that this pass must keep, from the answers of three queries. */
    method CollectRetained(policy: Policy, v: View, recent: seq<string>, active: seq<string>)
      returns (retained: set<string>)
      requires AnswersRecent(policy, table, v, recent) && AnswersActive(table, v, active) && IsOrder(table, v)
      ensures forall id :: id in retained <==> id in table && Retained(policy, table, v, id)
    {
      retained := {};
      if policy.keepDays > 0 {
        retained := AddAll(recent, retained);
      }
      if policy.keepCount > 0 {
        retained := AddAll(Newest(policy, v), retained);
      }
      retained := AddAll(active, retained);
      forall id | id in Newest(policy, v) ensures id in v.order {}
    }

    /** The body of the loop, for a row of the query's answer with its path then. */
    method CleanRow(policy: Policy, v: View, retained: bool, id: string, path: string) returns (verdict: Verdict)
      requires id in table
      modifies this
      ensures verdict == RowVerdict(policy, retained, path in old(files), path in v.unreadable, path in v.undeletable)
      ensures if policy.dryRun || verdict.Skipped? || verdict.Failed? then table == old(table) && files == old(files)
              else if verdict.Missing?
              then table == old(table)[id := old(table)[id].(path := None)] && files == old(files)
              else table == old(table)[id := old(table)[id].(path := None, updatedAt := Some(v.now))]
                   && files == old(files) - {path}
    {
      if retained {
        return Skipped;
      }
      if path !in files {
        if !policy.dryRun {
          table := table[id := table[id].(path := None)];
        }
        return Missing;
      }
      if path in v.unreadable {
        return Failed;
      }
      if policy.dryRun {
        return Removed;
      }
      if path in v.undeletable {
        return Failed;
      }
      files := files - {path};
      table := table[id := table[id].(path := None, updatedAt := Some(v.now))];
      return Removed;
    }

    /** The body of the loop, on its way through the answer taken from `snapshot`. */
    method Visit(policy: Policy, v: View, retained: bool, id: string, snapshot: Table,
        ghost before: set<string>, ghost seen: seq<string>)
      returns (verdict: Verdict)
      requires DistinctPaths(snapshot) && id in snapshot && Listed(snapshot, v, id) && id !in seen
      requires retained == Retained(policy, snapshot, v, id)
      requires After(policy, snapshot, before, v, seen, table, files)
      modifies this
      ensures After(policy, snapshot, before, v, seen + [id], table, files)
      ensures verdict == VerdictOf(policy, snapshot, before, v, id)
    {
      BeforeRow(policy, snapshot, before, v, seen, id);
      ghost var table0, files0 := table, files;
      verdict := CleanRow(policy, v, retained, id, snapshot[id].path.value);
      AfterOneMore(policy, snapshot, before, v, seen, id, table0, files0, table, files);
    }

    /** The loop over the rows with a file, oldest first. */
    method CleanAll(policy: Policy, v: View, retained: set<string>, listed: seq<string>)
      returns (cleaned: nat, skipped: nat, errors: nat)
      requires Distinct(listed) && DistinctPaths(table)
      requires forall i | 0 <= i < |listed| :: CanVisit(policy, table, v, retained, listed[i])
      modifies this
      ensures After(policy, old(table), old(files), v, listed, table, files)
      ensures Counted(policy, old(table), old(files), v, listed, cleaned, skipped, errors)
    {
      var snapshot := table;
      cleaned, skipped, errors := 0, 0, 0;
      NothingCleared(table, files, v.now);
      for i := 0 to |listed|
        invariant After(policy, snapshot, old(files), v, listed[..i], table, files)
        invariant Counted(policy, snapshot, old(files), v, listed[..i], cleaned, skipped, errors)
      {
        var id := listed[i];
        NotBefore(listed, i);
        assert CanVisit(policy, snapshot, v, retained, id);
        var verdict := Visit(policy, v, id in retained, id, snapshot, old(files), listed[..i]);
        CountOneMore(policy, snapshot, old(files), v, listed[..i], id, cleaned, skipped, errors);
        match verdict
        case Skipped => skipped := skipped + 1;
        case Failed => errors := errors + 1;
        case Removed => cleaned := cleaned + 1;
        case Missing =>
      }
      assert listed[..|listed|] == listed;
    }

    /** One pass. */
    method Run(policy: Policy, v: View, recent: seq<string>, active: seq<string>, listed: seq<string>)
      returns (cleaned: nat, skipped: nat, errors: nat)
      requires AnswersRecent(policy, table, v, recent) && AnswersActive(table, v, active)
      requires AnswersListed(table, v, listed) && Distinct(listed)
      requires IsOrder(table, v) && DistinctPaths(table)
      modifies this
      ensures (table, files) == Cleanup(policy, old(table), old(files), v)
      ensures Counted(policy, old(table), old(files), v, listed, cleaned, skipped, errors)
    {
      var retained := CollectRetained(policy, v, recent, active);
      forall i | 0 <= i < |listed| ensures CanVisit(policy, table, v, retained, listed[i]) {
        assert listed[i] in listed;
      }
      cleaned, skipped, errors := CleanAll(policy, v, retained, listed);
      AllCleared(policy, old(table), old(files), v, listed);
    }

    /** A tick of the job, or its start. */
    method Tick(policy: Policy, v: View, recent: seq<string>, active: seq<string>, listed: seq<string>)
      requires AnswersRecent(policy, table, v, recent) && AnswersActive(table, v, active)
      requires AnswersListed(table, v, listed) && Distinct(listed)
      requires IsOrder(table, v) && DistinctPaths(table)
      modifies this
      ensures (table, files) == Pass(policy, old(table), old(files), v)
    {
      if policy.keepDays == 0 && policy.keepCount == 0 {
        return;
      }
      var _, _, _ := Run(policy, v, recent, active, listed);
    }
  }

  /** The rows among these that a pass clears. */
  function ClearedBy(policy: Policy, table: Table, files: set<string>, v: View, ids: seq<string>):
    (cleared: set<string>)
    ensures forall id <- cleared :: id in table && table[id].HasFile() && id in ids
  {
    if policy.dryRun then {}
    else set id <- table | id in ids && id in Doomed(policy, table, files, v)
  }

  lemma NothingCleared(table: Table, files: set<string>, now: int)
    ensures ClearedTable(table, files, {}, now) == table && RemainingFiles(table, files, {}) == files
  {
  }

  /** The table and the files when the loop has seen some of the rows. */
  ghost predicate After(policy: Policy, table: Table, files: set<string>, v: View, seen: seq<string>,
    table': Table, files': set<string>)
  {
    && table' == ClearedTable(table, files, ClearedBy(policy, table, files, v, seen), v.now)
    && files' == RemainingFiles(table, files, ClearedBy(policy, table, files, v, seen))
  }

  ghost predicate Counted(policy: Policy, table: Table, files: set<string>, v: View, seen: seq<string>,
    cleaned: nat, skipped: nat, errors: nat)
  {
    && cleaned == Tally(policy, table, files, v, seen, Removed)
    && skipped == Tally(policy, table, files, v, seen, Skipped)
    && errors == Tally(policy, table, files, v, seen, Failed)
  }

  lemma BeforeRow(policy: Policy, table: Table, files: set<string>, v: View, seen: seq<string>, id: string)
    requires DistinctPaths(table) && id in table && table[id].HasFile() && id !in seen
    ensures var done := ClearedBy(policy, table, files, v, seen);
      && ClearedTable(table, files, done, v.now)[id] == table[id]
      && (table[id].path.value in RemainingFiles(table, files, done) <==> table[id].path.value in files)
  {
    ClearOneMore(table, files, ClearedBy(policy, table, files, v, seen), id, v.now);
  }

  /** Whether a pass clears a row depends on its verdict. */
  predicate Clears(policy: Policy, verdict: Verdict) {
    !policy.dryRun && (verdict.Missing? || verdict.Removed?)
  }

  lemma ClearedByOneMore(policy: Policy, table: Table, files: set<string>, v: View, seen: seq<string>, id: string)
    requires id in table && Listed(table, v, id)
    ensures ClearedBy(policy, table, files, v, seen + [id]) ==
      ClearedBy(policy, table, files, v, seen)
      + if Clears(policy, VerdictOf(policy, table, files, v, id)) then {id} else {}
  {
    forall x ensures x in ClearedBy(policy, table, files, v, seen + [id]) <==>
      x in ClearedBy(policy, table, files, v, seen)
      || (x == id && Clears(policy, VerdictOf(policy, table, files, v, id)))
    {
    }
  }

  /** The loop's body takes the state on by one row. */
  lemma AfterOneMore(policy: Policy, table: Table, files: set<string>, v: View, seen: seq<string>, id: string,
      table0: Table, files0: set<string>, table1: Table, files1: set<string>)
    requires DistinctPaths(table) && id in table && Listed(table, v, id) && id !in seen
    requires After(policy, table, files, v, seen, table0, files0) && id in table0 && table0[id] == table[id]
    requires var verdict := VerdictOf(policy, table, files, v, id);
      if !Clears(policy, verdict) then table1 == table0 && files1 == files0
      else if verdict.Missing? then table1 == table0[id := table[id].(path := None)] && files1 == files0
      else table1 == table0[id := table[id].(path := None, updatedAt := Some(v.now))]
           && files1 == files0 - {table[id].path.value}
    ensures After(policy, table, files, v, seen + [id], table1, files1)
  {
    ClearedByOneMore(policy, table, files, v, seen, id);
    var done := ClearedBy(policy, table, files, v, seen);
    if Clears(policy, VerdictOf(policy, table, files, v, id)) {
      ClearOneMore(table, files, done, id, v.now);
      assert table[id].path.value !in files ==> files0 - {table[id].path.value} == files0;
    } else {
      assert done + {} == done;
    }
  }

  lemma TallyOneMore(policy: Policy, table: Table, files: set<string>, v: View, seen: seq<string>, id: string,
      x: Verdict)
    requires id in table && table[id].path.Some?
    ensures Tally(policy, table, files, v, seen + [id], x)
         == Tally(policy, table, files, v, seen, x) + if VerdictOf(policy, table, files, v, id) == x then 1 else 0
  {
    assert (seen + [id])[..|seen|] == seen;
  }

  lemma CountOneMore(policy: Policy, table: Table, files: set<string>, v: View, seen: seq<string>, id: string,
      cleaned: nat, skipped: nat, errors: nat)
    requires id in table && table[id].path.Some?
    requires Counted(policy, table, files, v, seen, cleaned, skipped, errors)
    ensures var verdict := VerdictOf(policy, table, files, v, id);
      Counted(policy, table, files, v, seen + [id], if verdict.Removed? then cleaned + 1 else cleaned,
              if verdict.Skipped? then skipped + 1 else skipped, if verdict.Failed? then errors + 1 else errors)
  {
    TallyOneMore(policy, table, files, v, seen, id, Removed);
    TallyOneMore(policy, table, files, v, seen, id, Skipped);
    TallyOneMore(policy, table, files, v, seen, id, Failed);
  }

  lemma AllCleared(policy: Policy, table: Table, files: set<string>, v: View, listed: seq<string>)
    requires AnswersListed(table, v, listed)
    ensures var done := ClearedBy(policy, table, files, v, listed);
      (ClearedTable(table, files, done, v.now), RemainingFiles(table, files, done)) == Cleanup(policy, table, files, v)
  {
    if policy.dryRun {
      NothingCleared(table, files, v.now);
    } else {
      assert ClearedBy(policy, table, files, v, listed) == Doomed(policy, table, files, v);
    }
  }

  // ---- What a pass does --------------------------------------------------------------------

  /** After a real pass without I/O errors a listed row has its path, and its file if there was one, exactly
      if it is retained. No other row changes, and no file goes that is not the file of a listed row. */
  lemma KeepsExactlyTheRetained(policy: Policy, table: Table, files: set<string>, v: View)
    requires !policy.dryRun && DistinctPaths(table) && v.unreadable == v.undeletable == {}
    ensures var (table', files') := Cleanup(policy, table, files, v);
      && table'.Keys == table.Keys
      && (forall id <- table :: table'[id].path.Some? <==>
            table[id].path.Some? && !(Listed(table, v, id) && !Retained(policy, table, v, id)))
      && (forall id <- table :: table'[id].path.Some? ==> table'[id] == table[id])
      && (forall id <- table | Listed(table, v, id) ::
            table[id].path.value in files' <==> table[id].path.value in files && Retained(policy, table, v, id))
      && files' <= files
      && (forall p <- files - files' :: exists id <- table :: Listed(table, v, id) && table[id].path.value == p)
  {
    var doomed := Doomed(policy, table, files, v);
    var files' := Cleanup(policy, table, files, v).1;
    forall p <- files - files' ensures exists id <- table :: Listed(table, v, id) && table[id].path.value == p {
      var id :| id in doomed && table[id].path.value == p;
      assert Listed(table, v, id);
    }
  }

  /** Whatever the policy says, a pass leaves alone the rows that somebody may be working on: a VOD that is not
      processed yet, one that changed within the last hour and has no URL yet, and one being downloaded. */
  lemma RowsInUseAreKept(policy: Policy, table: Table, files: set<string>, v: View, id: string)
    requires DistinctPaths(table) && id in table && table[id].HasFile()
    requires || !table[id].processed
             || (UpdatedAfter(table[id], v.now - 3600 * SECOND) && !table[id].uploaded)
             || table[id].downloading
    ensures var (table', files') := Pass(policy, table, files, v);
      && id in table' && table'[id] == table[id]
      && (table[id].path.value in files ==> table[id].path.value in files')
  {
  }

  /** Which rows lose their path and their file in a real pass: those with a path that are processed, uploaded or
      unchanged for an hour, not being downloaded, older than the policy keeps by age, behind the places of the
      newest that it keeps by count, and whose file is gone already or can be removed. Other rows stay as they are. */
  lemma PathGoesIff(policy: Policy, table: Table, files: set<string>, v: View, k: nat)
    requires !policy.dryRun && DistinctPaths(table)
    requires IsOrder(table, v) && k < |v.order| && table[v.order[k]].HasFile()
    ensures var r := table[v.order[k]];
      var (table', files') := Pass(policy, table, files, v);
      var goes :=
        && (policy.keepDays > 0 || policy.keepCount > 0)
        && r.processed && (r.uploaded || !UpdatedAfter(r, v.now - 3600 * SECOND)) && !r.downloading
        && (policy.keepDays > 0 ==> r.date < v.now - policy.keepDays * (24 * 3600 * SECOND)) && k >= policy.keepCount
        && (r.path.value in files ==> r.path.value !in v.unreadable && r.path.value !in v.undeletable);
      && table'.Keys == table.Keys
      && table'[v.order[k]] == (if !goes then r
                                else if r.path.value in files then r.(path := None, updatedAt := Some(v.now))
                                else r.(path := None))
      && (r.path.value in files' <==> r.path.value in files && !goes)
  {
    NewestByPlace(policy, table, v, k);
  }

  /** What the job counts is what has happened: files removed, paths of missing files cleared, rows it had to leave
      because of an error, rows it meant to keep. A dry run counts the files that it could examine as removed. */
  lemma VerdictsMean(policy: Policy, table: Table, files: set<string>, v: View, id: string, verdict: Verdict)
    requires DistinctPaths(table) && id in table && Listed(table, v, id)
    requires verdict == VerdictOf(policy, table, files, v, id)
    ensures var (table', files') := Cleanup(policy, table, files, v);
      var path := table[id].path.value;
      && (verdict.Skipped? <==> Retained(policy, table, v, id))
      && (!policy.dryRun ==>
            && (verdict.Removed? <==> path in files && path !in files')
            && (verdict.Missing? <==> path !in files && table'[id].path.None?)
            && (verdict.Failed? ==> path in files' && table'[id] == table[id]))
      && (policy.dryRun && !verdict.Skipped? ==>
            && (verdict.Removed? <==> path in files && path !in v.unreadable)
            && (verdict.Missing? <==> path !in files))
  {
  }

  /** A pass touches no row of another channel and none without a path, and a dry run or a policy of zeros touches
      nothing at all. */
  lemma PassTouchesOnlyItsOwn(policy: Policy, table: Table, files: set<string>, v: View, id: string)
    requires id in table
    ensures var (table', files') := Pass(policy, table, files, v);
      && (table[id].channel != v.channel || table[id].path.None? || table[id].path == Some("") ==>
            id in table' && table'[id] == table[id])
      && (policy.dryRun || (policy.keepDays == 0 && policy.keepCount == 0) ==> table' == table && files' == files)
  {
  }

  /** A second pass right after the first deletes nothing, also when some files could not be removed. */
  lemma SecondPassDoesNothing(policy: Policy, table: Table, files: set<string>, v: View)
    requires DistinctPaths(table)
    ensures var (table', files') := Cleanup(policy, table, files, v);
      Cleanup(policy, table', files', v) == (table', files')
  {
    var (table', files') := Cleanup(policy, table, files, v);
    if !policy.dryRun {
      var doomed := Doomed(policy, table, files, v);
      forall id <- table' | Listed(table', v, id)
        ensures id !in Doomed(policy, table', files', v)
      {
        assert id !in doomed && table'[id] == table[id];
        assert table[id].path.value in files ==> table[id].path.value in files';
      }
      assert Doomed(policy, table', files', v) == {};
      assert ClearedTable(table', files', {}, v.now) == table';
      assert RemainingFiles(table', files', {}) == files';
    }
  }

  /** Of two passes, the one with the higher settings never deletes more. */
  lemma KeepingMoreDeletesLess(policy: Policy, policy': Policy, table: Table, files: set<string>, v: View)
    requires policy.keepDays <= policy'.keepDays && policy.keepCount <= policy'.keepCount
    requires policy.dryRun == policy'.dryRun
    ensures Doomed(policy', table, files, v) <= Doomed(policy, table, files, v)
    ensures Cleanup(policy, table, files, v).1 <= Cleanup(policy', table, files, v).1
  {
    forall id <- table | Retained(policy, table, v, id) ensures Retained(policy', table, v, id) {
      if id in Newest(policy, v) {
        var i :| 0 <= i < |Newest(policy, v)| && Newest(policy, v)[i] == id;
        assert Newest(policy', v)[i] == id;
      }
    }
  }

  /** The higher settings keep every file that the lower ones keep, whatever the channel looks like. */
  ghost predicate KeepsNoLess(policy: Policy, policy': Policy) {
    forall table, files, v | IsOrder(table, v) && DistinctPaths(table) ::
      Pass(policy, table, files, v).1 <= Pass(policy', table, files, v).1
  }

  /** Raising the settings never makes the job delete more, except from the default of zero for both, which
      switches it off: there any setting makes it start deleting. */
  lemma RaisingDeletesLessIff(policy: Policy, policy': Policy)
    requires policy.keepDays <= policy'.keepDays && policy.keepCount <= policy'.keepCount
    requires !policy.dryRun && !policy'.dryRun
    ensures KeepsNoLess(policy, policy') <==> (policy.Disabled() ==> policy'.Disabled())
  {
    if policy.Disabled() && !policy'.Disabled() {
      FirstPolicyDeletes(policy, policy');
    } else {
      forall table, files, v | IsOrder(table, v) && DistinctPaths(table)
        ensures Pass(policy, table, files, v).1 <= Pass(policy', table, files, v).1
      {
        KeepingMoreDeletesLess(policy, policy', table, files, v);
      }
    }
  }

  // ---- The first policy --------------------------------------------------------------------

  /** The n-th of some processed and uploaded VODs, each older than the one before. */
  function Id(n: nat): (id: string)
    ensures |id| == n
  {
    seq(n, i => 'x')
  }

  function OldVod(n: nat): Row {
    Row("c", 0 - n, true, true, false, Some(Id(n + 1)), None)
  }

  function OldVods(n: nat): Table {
    if n == 0 then map[] else OldVods(n - 1)[Id(n - 1) := OldVod(n - 1)]
  }

  lemma {:induction false} OldVodsAre(n: nat, id: string)
    ensures id in OldVods(n) <==> |id| < n && id == Id(|id|)
    ensures id in OldVods(n) ==> OldVods(n)[id] == OldVod(|id|)
  {
    if n > 0 {
      OldVodsAre(n - 1, id);
    }
  }

  function Ids(n: nat): (ids: seq<string>)
    ensures |ids| == n && forall i | 0 <= i < n :: ids[i] == Id(i)
  {
    if n == 0 then [] else Ids(n - 1) + [Id(n - 1)]
  }

  /** As many VODs as the policy keeps by count, and one more, all of them older than it keeps by age. */
  function OldChannel(policy: Policy): View {
    View("c", Ids(policy.keepCount + 1), policy.keepDays * DAY + 1, {}, {})
  }

  lemma OldChannelHas(policy: Policy)
    ensures var table, v := OldVods(policy.keepCount + 1), OldChannel(policy);
      forall id :: id in v.order <==> id in table && table[id].channel == v.channel
  {
    var table, v := OldVods(policy.keepCount + 1), OldChannel(policy);
    forall id ensures id in v.order <==> id in table && table[id].channel == v.channel {
      OldVodsAre(policy.keepCount + 1, id);
      if |id| <= policy.keepCount {
        assert v.order[|id|] == Id(|id|);
      }
    }
  }

  lemma OldChannelIsOrdered(policy: Policy)
    ensures IsOrder(OldVods(policy.keepCount + 1), OldChannel(policy))
  {
    var n := policy.keepCount + 1;
    var table, v := OldVods(n), OldChannel(policy);
    OldChannelHas(policy);
    forall i | 0 <= i < n ensures v.order[i] in table && table[v.order[i]] == OldVod(i) && |v.order[i]| == i {
      OldVodsAre(n, v.order[i]);
    }
  }

  lemma OldPathsAreDistinct(n: nat)
    ensures DistinctPaths(OldVods(n))
  {
    var table := OldVods(n);
    forall a <- table, b <- table | a != b
      ensures table[a].HasFile() && table[b].HasFile() && table[a].path.value != table[b].path.value
    {
      OldVodsAre(n, a);
      OldVodsAre(n, b);
      assert |table[a].path.value| == |a| + 1 && |table[b].path.value| == |b| + 1;
    }
  }

  /** The oldest one goes. */
  lemma OldestIsDoomed(policy: Policy, files: set<string>)
    requires !policy.Disabled()
    ensures var n := policy.keepCount;
      Id(n) in Doomed(policy, OldVods(n + 1), files, OldChannel(policy)) && OldVods(n + 1)[Id(n)] == OldVod(n)
  {
    var n := policy.keepCount;
    var v := OldChannel(policy);
    OldVodsAre(n + 1, Id(n));
    forall i | 0 <= i < n ensures Newest(policy, v)[i] != Id(n) {
      assert |v.order[i]| == i;
    }
  }

  lemma FirstPolicyDeletes(policy: Policy, policy': Policy)
    requires policy.Disabled() && !policy'.Disabled() && !policy'.dryRun
    ensures !KeepsNoLess(policy, policy')
  {
    var n := policy'.keepCount;
    var table, v, path := OldVods(n + 1), OldChannel(policy'), Id(n + 1);
    OldChannelIsOrdered(policy');
    OldPathsAreDistinct(n + 1);
    OldestIsDoomed(policy', {path});
    DoomedFilesGo(policy', table, {path}, v, Id(n));
    assert path in Pass(policy, table, {path}, v).1 && path !in Pass(policy', table, {path}, v).1;
  }

  lemma DoomedFilesGo(policy: Policy, table: Table, files: set<string>, v: View, id: string)
    requires !policy.dryRun && id in Doomed(policy, table, files, v)
    ensures table[id].path.value !in Cleanup(policy, table, files, v).1
  {
  }

  /** The rows of the channel that are newer than `date`, and those at least as new. */
  function Newer(table: Table, channel: string, date: int): set<string> {
    set id <- table | table[id].channel == channel && table[id].date > date
  }

  function AtLeastAsNew(table: Table, channel: string, date: int): set<string> {
    set id <- table | table[id].channel == channel && table[id].date >= date
  }

  /** The ids at the first n places. */
  function First(s: seq<string>, n: nat): (ids: set<string>)
    requires n <= |s|
    ensures forall id :: id in ids <==> exists i :: 0 <= i < n && s[i] == id
    ensures (forall i, j | 0 <= i < j < |s| :: s[i] != s[j]) ==> |ids| == n
  {
    if n == 0 then {} else First(s, n - 1) + {s[n - 1]}
  }

  /** The rows kept by count are those at the first N places. */
  lemma NewestByPlace(policy: Policy, table: Table, v: View, k: nat)
    requires IsOrder(table, v) && k < |v.order|
    ensures v.order[k] in Newest(policy, v) <==> k < policy.keepCount
  {
    assert k < policy.keepCount ==> Newest(policy, v)[k] == v.order[k];
  }

  lemma NewerIsEarlier(table: Table, v: View, k: nat, id: string)
    requires IsOrder(table, v) && k < |v.order| && id in Newer(table, v.channel, table[v.order[k]].date)
    ensures exists i :: 0 <= i < k && v.order[i] == id
  {
    assert id in v.order;
    var i :| 0 <= i < |v.order| && v.order[i] == id;
    assert i < k;
  }

  lemma NewerComeFirst(table: Table, v: View, k: nat)
    requires IsOrder(table, v) && k < |v.order|
    ensures |Newer(table, v.channel, table[v.order[k]].date)| <= k
  {
    var newer := Newer(table, v.channel, table[v.order[k]].date);
    forall id <- newer ensures id in First(v.order, k) {
      NewerIsEarlier(table, v, k, id);
    }
    SubsetSize(newer, First(v.order, k));
  }

  lemma FirstAreAsNew(table: Table, v: View, k: nat)
    requires IsOrder(table, v) && k < |v.order|
    ensures |AtLeastAsNew(table, v.channel, table[v.order[k]].date)| > k
  {
    var asNew := AtLeastAsNew(table, v.channel, table[v.order[k]].date);
    forall id <- First(v.order, k + 1) ensures id in asNew {
      var i :| 0 <= i < k + 1 && v.order[i] == id;
      assert v.order[i] in v.order;
    }
    SubsetSize(First(v.order, k + 1), asNew);
  }

  /** What the N newest means without the query's order: a row among them has fewer than N newer rows, and
      a row left out has at least N others that are as new. */
  lemma NewestMeansFewNewer(policy: Policy, table: Table, v: View, id: string)
    requires IsOrder(table, v) && id in table && table[id].channel == v.channel
    ensures id in Newest(policy, v) ==> |Newer(table, v.channel, table[id].date)| < policy.keepCount
    ensures id !in Newest(policy, v) ==> |AtLeastAsNew(table, v.channel, table[id].date)| > policy.keepCount
  {
    assert id in v.order;
    var k :| 0 <= k < |v.order| && v.order[k] == id;
    NewestByPlace(policy, table, v, k);
    NewerComeFirst(table, v, k);
    FirstAreAsNew(table, v, k);
  }
}
