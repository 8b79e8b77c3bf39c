/** Agreement between downloaded_path and the data directory. Four jobs write and delete files: the
    download, the removal after an upload, the orphan sweeper and the retention job. Each job's
    delete-then-clear is one step. */
module Storage {
  import opened Common
  import opened Retention

  /** The files of the data directory with their modification times. */
  type Files = map<string, int>

  datatype State = State(table: Table, files: Files)

  /** The download's output path; it depends on the VOD's id alone. */
  function PathOf(dataDir: string, id: string): string {
    dataDir + "/twitch_" + id + ".mp4"
  }

  lemma PathsAreDistinct(dataDir: string, a: string, b: string)
    requires PathOf(dataDir, a) == PathOf(dataDir, b)
    ensures a == b
  {
    var prefix := dataDir + "/twitch_";
    assert PathOf(dataDir, a)[|prefix|..|PathOf(dataDir, a)| - 4] == a;
    assert PathOf(dataDir, b)[|prefix|..|PathOf(dataDir, b)| - 4] == b;
  }

  function ToLower(s: string): (r: string)
    ensures |r| == |s| && forall i | 0 <= i < |s| :: r[i] == if 'A' <= s[i] <= 'Z' then s[i] + 32 as char else s[i]
  {
    if s == "" then ""
    else ToLower(s[..|s| - 1]) + [if 'A' <= s[|s| - 1] <= 'Z' then s[|s| - 1] + 32 as char else s[|s| - 1]]
  }

  predicate HasSuffix(s: string, suffix: string) {
    |suffix| <= |s| && s[|s| - |suffix|..] == suffix
  }

  predicate IsVideo(path: string) {
    var name := ToLower(path);
    HasSuffix(name, ".mp4") || HasSuffix(name, ".mkv") || HasSuffix(name, ".webm")
  }

  /** The file of a row is one of those the sweeper considers. */
  lemma DownloadsAreVideos(dataDir: string, id: string)
    ensures IsVideo(PathOf(dataDir, id))
  {
    var path := PathOf(dataDir, id);
    assert path[|path| - 4..] == ".mp4";
    assert forall i | 0 <= i < 4 :: path[|path| - 4 + i] == ".mp4"[i];
    assert ToLower(path)[|path| - 4..] == ".mp4";
  }

  // ---- Steps -------------------------------------------------------------------------------

  datatype Step =
    | Insert(id: string, row: Row)            // a new VOD, nothing downloaded yet
    | Change(id: string, row: Row)            // any write that leaves channel and path alone
    | Download(id: string, now: int, modified: int) // yt-dlp may set an old modification time
    | RemoveUploaded(id: string, now: int)
    | Sweep(channel: string, cutoff: int)
    | Retain(policy: Policy, view: View)

  /** The files that the sweeper of a channel deletes: old video files that no row of this channel names. */
  function Swept(s: State, channel: string, cutoff: int): set<string> {
    set p <- s.files | IsVideo(p) && s.files[p] < cutoff
      && forall id <- s.table :: s.table[id].channel == channel && s.table[id].HasFile() ==> s.table[id].path.value != p
  }

  function Apply(dataDir: string, s: State, step: Step): State {
    match step
    case Insert(id, row) =>
      if id in s.table then s else s.(table := s.table[id := row.(path := None)])
    case Change(id, row) =>
      if id !in s.table then s
      else s.(table := s.table[id := row.(channel := s.table[id].channel, path := s.table[id].path)])
    case Download(id, now, modified) =>
      if id !in s.table then s
      else State(s.table[id := s.table[id].(path := Some(PathOf(dataDir, id)), updatedAt := Some(now))],
                 s.files[PathOf(dataDir, id) := modified])
    case RemoveUploaded(id, now) =>
      if id !in s.table || PathOf(dataDir, id) !in s.files then s
      else State(s.table[id := s.table[id].(path := None, updatedAt := Some(now))], s.files - {PathOf(dataDir, id)})
    case Sweep(channel, cutoff) => s.(files := s.files - Swept(s, channel, cutoff))
    case Retain(policy, view) =>
      var (table, kept) := Cleanup(policy, s.table, s.files.Keys, view);
      State(table, map p <- s.files | p in kept :: s.files[p])
  }

  /** Every path in the table is the row's own, and its file is there. */
  ghost predicate Agrees(dataDir: string, s: State) {
    forall id <- s.table :: s.table[id].path.Some? ==>
      s.table[id].path.value == PathOf(dataDir, id) && s.table[id].path.value in s.files
  }

  lemma AgreementIsDistinct(dataDir: string, s: State)
    requires Agrees(dataDir, s)
    ensures DistinctPaths(s.table)
  {
    forall a <- s.table, b <- s.table | a != b && s.table[a].HasFile() && s.table[b].HasFile()
      ensures s.table[a].path.value != s.table[b].path.value
    {
      if s.table[a].path.value == s.table[b].path.value {
        PathsAreDistinct(dataDir, a, b);
      }
    }
  }

  // ---- The steps of one row, and retention -------------------------------------------------

  lemma RowStepKeepsAgreement(dataDir: string, s: State, step: Step)
    requires Agrees(dataDir, s) && !step.Sweep? && !step.Retain?
    ensures Agrees(dataDir, Apply(dataDir, s, step))
  {
    var s' := Apply(dataDir, s, step);
    if step.RemoveUploaded? {
      forall id <- s'.table | s'.table[id].path.Some? ensures s'.table[id].path.value in s'.files {
        if PathOf(dataDir, id) == PathOf(dataDir, step.id) {
          PathsAreDistinct(dataDir, id, step.id);
        }
      }
    }
  }

  /** A download leaves a row with its file, and the removal after an upload takes both away again. */
  lemma DownloadedThenRemoved(dataDir: string, s: State, id: string, now: int, modified: int, later: int)
    requires id in s.table
    ensures var s1 := Apply(dataDir, s, Download(id, now, modified));
      var s2 := Apply(dataDir, s1, RemoveUploaded(id, later));
      var path := PathOf(dataDir, id);
      && s1 == State(s.table[id := s.table[id].(path := Some(path), updatedAt := Some(now))], s.files[path := modified])
      && s2 == State(s.table[id := s.table[id].(path := None, updatedAt := Some(later))], s.files - {path})
  {
    var path := PathOf(dataDir, id);
    var r1 := s.table[id].(path := Some(path), updatedAt := Some(now));
    var r2 := s.table[id].(path := None, updatedAt := Some(later));
    assert s.table[id := r1][id := r2] == s.table[id := r2];
    assert s.files[path := modified] - {path} == s.files - {path};
  }

  /** A new VOD has no path yet and does not replace a row, other writes leave channel and path alone, and a file that
      is not there is not removed. */
  lemma OtherWritesKeepPaths(dataDir: string, s: State, id: string, row: Row, now: int)
    ensures id !in s.table ==>
      Apply(dataDir, s, Insert(id, row)) == s.(table := s.table[id := row.(path := None)])
      && Apply(dataDir, s, Change(id, row)) == s
    ensures id in s.table ==>
      Apply(dataDir, s, Insert(id, row)) == s
      && Apply(dataDir, s, Change(id, row))
         == s.(table := s.table[id := row.(channel := s.table[id].channel, path := s.table[id].path)])
    ensures PathOf(dataDir, id) !in s.files ==> Apply(dataDir, s, RemoveUploaded(id, now)) == s
  {
  }

  /** A retention pass never takes the file of a row that keeps its path. */
  lemma RetentionKeepsAgreement(dataDir: string, s: State, policy: Policy, view: View)
    requires Agrees(dataDir, s)
    ensures Agrees(dataDir, Apply(dataDir, s, Retain(policy, view)))
  {
    AgreementIsDistinct(dataDir, s);
  }

  // ---- The sweeper -------------------------------------------------------------------------

  /** The sweeper's own channel is safe from it; it looks at no other channel's rows. So a sweep keeps the
      agreement exactly if no other channel has a file older than the cutoff. */
  lemma SweepKeepsAgreementIff(dataDir: string, s: State, channel: string, cutoff: int)
    requires Agrees(dataDir, s)
    ensures Agrees(dataDir, Apply(dataDir, s, Sweep(channel, cutoff))) <==>
      forall id <- s.table | s.table[id].channel != channel && s.table[id].path.Some? ::
        s.files[PathOf(dataDir, id)] >= cutoff
  {
    var s' := Apply(dataDir, s, Sweep(channel, cutoff));
    forall id <- s.table | s.table[id].path.Some?
      ensures s.table[id].path.value in s'.files
         <==> s.table[id].channel == channel || s.files[PathOf(dataDir, id)] >= cutoff
    {
      DownloadsAreVideos(dataDir, id);
      forall other <- s.table | s.table[other].channel == channel && s.table[other].HasFile()
                             && s.table[other].path.value == PathOf(dataDir, id)
        ensures other == id
      {
        PathsAreDistinct(dataDir, other, id);
      }
    }
  }

  /** A video by its extension, in whatever case. */
  ghost predicate NamesVideo(path: string) {
    exists base, ext :: path == base + ext && ToLower(ext) in {".mp4", ".mkv", ".webm"}
  }

  lemma {:induction false} LowerOfSum(a: string, b: string)
    ensures ToLower(a + b) == ToLower(a) + ToLower(b)
  {
    assert |ToLower(a + b)| == |ToLower(a) + ToLower(b)|;
    forall i | 0 <= i < |a + b| ensures ToLower(a + b)[i] == (ToLower(a) + ToLower(b))[i] {}
  }

  lemma EndsLike(path: string, n: nat)
    requires n <= |path|
    ensures path == path[..|path| - n] + path[|path| - n..]
    ensures ToLower(path)[|path| - n..] == ToLower(path[|path| - n..])
  {
    LowerOfSum(path[..|path| - n], path[|path| - n..]);
    assert path == path[..|path| - n] + path[|path| - n..];
  }

  lemma IsVideoIff(path: string)
    ensures IsVideo(path) <==> NamesVideo(path)
  {
    if IsVideo(path) {
      var n := if HasSuffix(ToLower(path), ".webm") then 5 else 4;
      EndsLike(path, n);
    } else if NamesVideo(path) {
      var base, ext :| path == base + ext && ToLower(ext) in {".mp4", ".mkv", ".webm"};
      LowerOfSum(base, ext);
    }
  }

  ghost predicate SweepSpares(s: State, channel: string, cutoff: int, p: string)
    requires p in s.files
  {
    || !NamesVideo(p) || s.files[p] >= cutoff
    || exists id <- s.table :: s.table[id].channel == channel && s.table[id].path == Some(p)
  }

  /** What a sweep takes: exactly the video files older than the cutoff that no row of its channel names. */
  lemma SweepTakesIff(dataDir: string, s: State, channel: string, cutoff: int, p: string)
    ensures var s' := Apply(dataDir, s, Sweep(channel, cutoff));
      && s'.table == s.table
      && (p in s'.files <==> p in s.files && SweepSpares(s, channel, cutoff, p))
      && (p in s'.files ==> s'.files[p] == s.files[p])
  {
    IsVideoIff(p);
  }

  // ---- Whole runs --------------------------------------------------------------------------

  function Run(dataDir: string, steps: seq<Step>): State {
    if steps == [] then State(map[], map[])
    else Apply(dataDir, Run(dataDir, steps[..|steps| - 1]), steps[|steps| - 1])
  }

  /** All rows and all sweeps are of one channel. */
  predicate OnChannel(step: Step, channel: string) {
    && (step.Insert? ==> step.row.channel == channel)
    && (step.Sweep? ==> step.channel == channel)
  }

  /** On a single channel, in whatever order the jobs take their steps, every row with a path has its file
      on disk, and no two rows share a path. */
  lemma {:induction false} FilesAgree(dataDir: string, channel: string, steps: seq<Step>)
    requires forall i | 0 <= i < |steps| :: OnChannel(steps[i], channel)
    ensures Agrees(dataDir, Run(dataDir, steps)) && DistinctPaths(Run(dataDir, steps).table)
    ensures forall id <- Run(dataDir, steps).table :: Run(dataDir, steps).table[id].channel == channel
  {
    if steps != [] {
      var front, step := steps[..|steps| - 1], steps[|steps| - 1];
      FilesAgree(dataDir, channel, front);
      var s := Run(dataDir, front);
      assert OnChannel(step, channel);
      match step
      case Sweep(_, cutoff) => SweepKeepsAgreementIff(dataDir, s, channel, cutoff);
      case Retain(policy, view) => RetentionKeepsAgreement(dataDir, s, policy, view);
      case _ => RowStepKeepsAgreement(dataDir, s, step);
    }
    AgreementIsDistinct(dataDir, Run(dataDir, steps));
  }

  // ---- A run that disagrees ----------------------------------------------------------------

  /** A file downloaded for channel "a" that the sweeper of channel "b" takes away. */
  function TwoChannels(): seq<Step> {
    [Insert("1", Row("a", 0, false, false, false, None, None)), Download("1", 5, 0), Sweep("b", 1)]
  }

  /** The sweeper asks for its own channel's paths and looks through the directory that all channels share. */
  lemma SweepTakesTheOtherChannelsFile(dataDir: string)
    ensures var s := Run(dataDir, TwoChannels());
      "1" in s.table && s.table["1"].path == Some(PathOf(dataDir, "1")) && PathOf(dataDir, "1") !in s.files
    ensures Agrees(dataDir, Run(dataDir, TwoChannels()[..2])) && !Agrees(dataDir, Run(dataDir, TwoChannels()))
  {
    var steps := TwoChannels();
    var row := Row("a", 0, false, false, false, None, None);
    assert steps[..1][..0] == [] && steps[..2][..1] == steps[..1] && steps[..1] == [steps[0]];
    assert Run(dataDir, []) == State(map[], map[]);
    assert Run(dataDir, steps[..1]) == State(map["1" := row], map[]);
    var path := PathOf(dataDir, "1");
    var s := Run(dataDir, steps[..2]);
    assert s.table == map["1" := row.(path := Some(path), updatedAt := Some(5))] && s.files == map[path := 0];
    assert Agrees(dataDir, s);
    SweepKeepsAgreementIff(dataDir, s, "b", 1);
    assert !(s.files[PathOf(dataDir, "1")] >= 1);
    DownloadsAreVideos(dataDir, "1");
    assert path in Swept(s, "b", 1);
  }
}
