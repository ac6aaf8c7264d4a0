/**
 * The Kotlin helpers of the offline-video module: the download directory, the
 * resume detection over the manager's tracked entries, the cleanup of a
 * directory's files and of the manager's entries, and the file URIs of
 * downloaded content.
 */
module OfflineFileHelper {
  import opened Text
  import opened Vendor
  import opened Storage

  /** `downloadDir`: the name that marks a path as the primary download directory. */
  const DownloadDir := "rg_offline"

  /** `downloadDirPath`; `root` is the platform's public Downloads directory. */
  function DownloadDirPath(root: string): (r: string)
    ensures Contains(r, DownloadDir)
  {
    JoinedPathContains(root, DownloadDir);
    root + "/" + DownloadDir
  }

  // ---------------------------------------------------------------------------
  // Resume detection

  /** The three conditions of a resumable download. */
  predicate Matches(state: State, cs: ContentStatus, dir: string) {
    state == Paused && cs.contentState == Pending && Contains(cs.path, dir)
  }

  /** The scan stops at an entry whose query throws or that matches. */
  predicate StopsScan(state: State, cs: ContentStatus, failing: set<string>, dir: string) {
    cs.path in failing || Matches(state, cs, dir)
  }

  /** The index of the entry at which the scan stops; `|es|` if it runs through. */
  function StopIndex(state: State, es: seq<ContentStatus>, failing: set<string>, dir: string): (k: nat)
    ensures k <= |es|
    ensures forall i :: 0 <= i < k ==> !StopsScan(state, es[i], failing, dir)
    ensures k < |es| ==> StopsScan(state, es[k], failing, dir)
  {
    if es == [] then 0
    else if StopsScan(state, es[0], failing, dir) then 0
    else 1 + StopIndex(state, es[1..], failing, dir)
  }

  /** What the scan of the manager `m` for the directory name `dir` decides. */
  function Resumable(m: Manager, dir: string): bool {
    if m.faults.queryStatus || m.tracked.None? then false
    else
      var es := m.tracked.value;
      var k := StopIndex(m.state, es, m.faults.queryContentStatus, dir);
      k < |es| && es[k].path !in m.faults.queryContentStatus
  }

  /** How many entries the scan queries. */
  function Scanned(m: Manager, dir: string): (n: nat)
    ensures m.tracked.Some? ==> n <= |m.tracked.value|
  {
    if m.faults.queryStatus || m.tracked.None? then 0
    else
      var es := m.tracked.value;
      var k := StopIndex(m.state, es, m.faults.queryContentStatus, dir);
      if k < |es| then k + 1 else k
  }

  function QueriesOf(ps: seq<string>): seq<Call> {
    seq(|ps|, i requires 0 <= i < |ps| => ContentStatusQueried(ps[i]))
  }

  /** The content queries the scan makes after the status query: one per scanned entry. */
  function ScanCalls(m: Manager, dir: string): seq<Call> {
    if m.tracked.None? then [] else QueriesOf(Paths(m.tracked.value)[..Scanned(m, dir)])
  }

  /** The calls the scan makes: one status query, then one query per scanned entry. */
  function DetectCalls(m: Manager, dir: string): seq<Call> {
    [StatusQueried] + ScanCalls(m, dir)
  }

  /** `isThereAnyResumableDownload`. */
  method IsThereAnyResumableDownload(md: MediaDownload) returns (found: bool)
    requires md.Valid()
    modifies md`calls
    ensures md.Snapshot() == old(md.Snapshot())
    ensures found == Resumable(old(md.Snapshot()), DownloadDir)
    ensures md.calls == old(md.calls) + DetectCalls(old(md.Snapshot()), DownloadDir)
  {
    var status := md.QueryStatus();
    if status.Err? || status.value.path.None? {
      return false;
    }
    found := ScanEntries(md, status.value.state, status.value.path.value, DownloadDir);
  }

  /** The `for` loop of `isThereAnyResumableDownload`, over the reported paths. */
  method ScanEntries(md: MediaDownload, state: State, paths: seq<string>, dir: string) returns (found: bool)
    requires md.Valid() && !md.faults.queryStatus && md.tracked.Some?
    requires state == md.state && paths == Paths(md.tracked.value)
    modifies md`calls
    ensures md.Snapshot() == old(md.Snapshot())
    ensures found == Resumable(old(md.Snapshot()), dir)
    ensures md.calls == old(md.calls) + ScanCalls(old(md.Snapshot()), dir)
  {
    ghost var m := md.Snapshot();
    ghost var es := m.tracked.value;
    ghost var c0 := md.calls;
    ghost var failing := m.faults.queryContentStatus;
    var i := 0;
    while i < |paths|
      invariant 0 <= i <= |paths| == |es|
      invariant md.Snapshot() == m
      invariant md.calls == c0 + QueriesOf(paths[..i])
      invariant forall j :: 0 <= j < i ==> !StopsScan(state, es[j], failing, dir)
    {
      var cs := md.QueryContentStatus(paths[i]);
      QueriesOfNext(paths, i);
      AppendAssoc(c0, QueriesOf(paths[..i]), [ContentStatusQueried(paths[i])]);
      LookupAt(es, i);
      if cs.Err? {
        ScanStopsAt(m, dir, i);
        return false;
      }
      if state == Paused && cs.value.contentState == Pending && Contains(paths[i], dir) {
        ScanStopsAt(m, dir, i);
        return true;
      }
      i := i + 1;
    }
    ScanStopsAt(m, dir, i);
    return false;
  }

  /** Where the scan stops determines both its answer and how many entries it queries. */
  lemma ScanStopsAt(m: Manager, dir: string, i: int)
    requires !m.faults.queryStatus && m.tracked.Some? && 0 <= i <= |m.tracked.value|
    requires forall j :: 0 <= j < i ==>
      !StopsScan(m.state, m.tracked.value[j], m.faults.queryContentStatus, dir)
    requires i < |m.tracked.value| ==>
      StopsScan(m.state, m.tracked.value[i], m.faults.queryContentStatus, dir)
    ensures StopIndex(m.state, m.tracked.value, m.faults.queryContentStatus, dir) == i
    ensures Scanned(m, dir) == if i < |m.tracked.value| then i + 1 else i
    ensures Resumable(m, dir) <==> i < |m.tracked.value| && m.tracked.value[i].path !in m.faults.queryContentStatus
    ensures ScanCalls(m, dir) == QueriesOf(Paths(m.tracked.value)[..if i < |m.tracked.value| then i + 1 else i])
  {
  }

  /** One more scanned path adds one more content query. */
  lemma QueriesOfNext(ps: seq<string>, i: int)
    requires 0 <= i < |ps|
    ensures QueriesOf(ps[..i + 1]) == QueriesOf(ps[..i]) + [ContentStatusQueried(ps[i])]
  {
    assert ps[..i + 1] == ps[..i] + [ps[i]];
  }

  /** An entry that matches and is reached before any query throws. */
  predicate ReachedMatch(m: Manager, dir: string, i: int)
    requires m.tracked.Some?
  {
    var es := m.tracked.value;
    0 <= i < |es| && Matches(m.state, es[i], dir) && es[i].path !in m.faults.queryContentStatus &&
    forall j :: 0 <= j < i ==> es[j].path !in m.faults.queryContentStatus
  }

  /**
   * The scan finds a resumable download exactly when the status query succeeds,
   * the path array is not null and some matching entry is reached before any
   * query throws: every error makes the answer false.
   */
  lemma ResumableExactly(m: Manager, dir: string)
    ensures Resumable(m, dir) <==>
      !m.faults.queryStatus && m.tracked.Some? && exists i :: ReachedMatch(m, dir, i)
  {
    if !m.faults.queryStatus && m.tracked.Some? {
      var es := m.tracked.value;
      var failing := m.faults.queryContentStatus;
      var k := StopIndex(m.state, es, failing, dir);
      if Resumable(m, dir) {
        assert ReachedMatch(m, dir, k);
      }
      if i :| ReachedMatch(m, dir, i) {
        assert StopsScan(m.state, es[i], failing, dir);
        assert k <= i;
        assert es[k].path !in failing;
      }
    }
  }

  /**
   * Without errors the answer is the plain rule: the manager is PAUSED and some
   * tracked entry is PENDING at a path containing `dir`.
   */
  lemma ResumableWithoutFaults(m: Manager, dir: string)
    requires !m.faults.queryStatus && m.faults.queryContentStatus == {}
    ensures Resumable(m, dir) <==>
      m.tracked.Some? && m.state == Paused &&
      exists i :: 0 <= i < |m.tracked.value| &&
        m.tracked.value[i].contentState == Pending && Contains(m.tracked.value[i].path, dir)
  {
    ResumableExactly(m, dir);
    if m.tracked.Some? && m.state == Paused {
      var es := m.tracked.value;
      if i :| 0 <= i < |es| && es[i].contentState == Pending && Contains(es[i].path, dir) {
        assert ReachedMatch(m, dir, i);
      }
    }
  }

  /** A RUNNING manager never has a resumable download, whatever it tracks. */
  lemma RunningNeverResumable(m: Manager, dir: string)
    requires m.state == Running
    ensures !Resumable(m, dir)
  {
  }

  lemma NotQueried(ps: seq<string>, p: string)
    requires forall i :: 0 <= i < |ps| ==> ps[i] != p
    ensures ContentStatusQueried(p) !in QueriesOf(ps)
  {
  }

  /** The scan never queries an entry after the one it stopped at. */
  lemma UnscannedPathsNeverQueried(m: Manager, dir: string, j: int)
    requires WellFormed(m) && m.tracked.Some?
    requires Scanned(m, dir) <= j < |m.tracked.value|
    ensures ContentStatusQueried(m.tracked.value[j].path) !in DetectCalls(m, dir)
  {
    var es := m.tracked.value;
    var ps := Paths(es)[..Scanned(m, dir)];
    forall i | 0 <= i < |ps| ensures ps[i] != es[j].path {
      assert ps[i] == es[i].path;
    }
    NotQueried(ps, es[j].path);
  }

  // ---------------------------------------------------------------------------
  // Cleanup

  function MediaFilePath(dirPath: string, c: DashContent): string {
    dirPath + "/" + c.mediaFileName
  }

  function SubtitleFilePath(dirPath: string, c: DashContent): string {
    dirPath + "/" + c.subtitlesFileName
  }

  /** The file set after the media and subtitle files under `dirPath` are gone. */
  function CleanFiles(files: set<string>, dirPath: string, c: DashContent): set<string> {
    files - {MediaFilePath(dirPath, c), SubtitleFilePath(dirPath, c)}
  }

  /**
   * The loop over the reported paths: for each, query its status, then cancel it.
   * The first call that throws ends the loop.
   */
  function CancelEachStep(m: Manager, ps: seq<string>): Step
    decreases |ps|
  {
    if ps == [] then Step(m, [])
    else if ContentStatusOf(m, ps[0]).Err? then Step(m, [ContentStatusQueried(ps[0])])
    else if ps[0] in m.faults.cancelContent then Step(m, [ContentStatusQueried(ps[0]), ContentCancelled(ps[0])])
    else
      var rest := CancelEachStep(AfterCancel(m, ps[0]), ps[1..]);
      Step(rest.m, [ContentStatusQueried(ps[0]), ContentCancelled(ps[0])] + rest.calls)
  }

  /** The manager side of `cleanup`: one status query, then `CancelEachStep` over its paths. */
  function CleanupStep(m: Manager): Step {
    if m.faults.queryStatus || m.tracked.None? then Step(m, [StatusQueried])
    else
      var s := CancelEachStep(m, Paths(m.tracked.value));
      Step(s.m, [StatusQueried] + s.calls)
  }

  /** `cleanup(mediaDownload, content, downloadDirPath)`. */
  method Cleanup(md: MediaDownload, fs: FileStore, content: DashContent, dirPath: string)
    requires md.Valid()
    modifies md`calls, md`tracked, fs
    ensures md.Valid()
    ensures fs.files == CleanFiles(old(fs.files), dirPath, content)
    ensures md.Snapshot() == CleanupStep(old(md.Snapshot())).m
    ensures md.calls == old(md.calls) + CleanupStep(old(md.Snapshot())).calls
  {
    var mediaFile := dirPath + "/" + content.mediaFileName;
    var present := fs.Exists(mediaFile);
    if present {
      fs.Delete(mediaFile);
    }
    var subtitleFile := dirPath + "/" + content.subtitlesFileName;
    present := fs.Exists(subtitleFile);
    if present {
      fs.Delete(subtitleFile);
    }

    var status := md.QueryStatus();
    if status.Err? || status.value.path.None? {
      return;
    }
    ghost var m := md.Snapshot();
    AppendAssoc(old(md.calls), [StatusQueried], CancelEachStep(m, status.value.path.value).calls);
    CancelEach(md, status.value.path.value);
  }

  /** One pass of the `for` loop of `cleanup`: query `p`, then cancel it unless the query threw. */
  method CancelOne(md: MediaDownload, p: string) returns (proceed: bool)
    modifies md`calls, md`tracked
    ensures proceed == (ContentStatusOf(old(md.Snapshot()), p).Ok? && p !in md.faults.cancelContent)
    ensures md.Snapshot() == if proceed then AfterCancel(old(md.Snapshot()), p) else old(md.Snapshot())
    ensures md.calls == old(md.calls) + OneCancelCalls(old(md.Snapshot()), p)
  {
    var contentStatus := md.QueryContentStatus(p);
    if contentStatus.Err? {
      return false;
    }
    proceed := md.CancelContent(p);
  }

  /** The calls one pass of the loop makes on `p`. */
  function OneCancelCalls(m: Manager, p: string): (r: seq<Call>)
    ensures 1 <= |r| <= 2 && r[0] == ContentStatusQueried(p)
    ensures r == [ContentStatusQueried(p)] <==> ContentStatusOf(m, p).Err?
  {
    if ContentStatusOf(m, p).Err? then [ContentStatusQueried(p)]
    else [ContentStatusQueried(p), ContentCancelled(p)]
  }

  /** The `for` loop of `cleanup`: query, then cancel, each path until a call throws. */
  method CancelEach(md: MediaDownload, paths: seq<string>)
    requires md.Valid()
    modifies md`calls, md`tracked
    ensures md.Valid()
    ensures md.Snapshot() == CancelEachStep(old(md.Snapshot()), paths).m
    ensures md.calls == old(md.calls) + CancelEachStep(old(md.Snapshot()), paths).calls
  {
    ghost var m0 := md.Snapshot();
    ghost var c0 := md.calls;
    ghost var cur := m0;
    ghost var done: seq<Call> := [];
    ghost var whole := CancelEachStep(m0, paths);
    var i := 0;
    while i < |paths|
      invariant 0 <= i <= |paths|
      invariant md.Snapshot() == cur
      invariant md.calls == c0 + done
      invariant CancelEachRemains(whole, paths, i, cur, done)
    {
      var proceed := CancelOne(md, paths[i]);
      AppendAssoc(c0, done, OneCancelCalls(cur, paths[i]));
      if !proceed {
        CancelEachStops(whole, paths, i, cur, done);
        done := done + OneCancelCalls(cur, paths[i]);
        break;
      }
      CancelEachAdvances(whole, paths, i, cur, done);
      done := done + OneCancelCalls(cur, paths[i]);
      cur := md.Snapshot();
      i := i + 1;
    }
    if i == |paths| {
      CancelEachEnds(whole, paths, cur, done);
    }
    assert whole == Step(cur, done);
    CancelEachKeepsWellFormed(m0, paths);
  }

  lemma {:induction false} CancelEachKeepsWellFormed(m: Manager, ps: seq<string>)
    requires WellFormed(m)
    ensures WellFormed(CancelEachStep(m, ps).m)
    decreases |ps|
  {
    if ps != [] && ContentStatusOf(m, ps[0]).Ok? && ps[0] !in m.faults.cancelContent {
      CancelKeepsWellFormed(m, ps[0]);
      CancelEachKeepsWellFormed(AfterCancel(m, ps[0]), ps[1..]);
    }
  }

  /** The loop invariant of `CancelEach`: the passes left over `paths[i..]` complete the whole step. */
  ghost predicate CancelEachRemains(whole: Step, paths: seq<string>, i: int, cur: Manager, done: seq<Call>)
    requires 0 <= i <= |paths|
  {
    var rest := CancelEachStep(cur, paths[i..]);
    whole == Step(rest.m, done + rest.calls)
  }

  lemma CancelEachStops(whole: Step, paths: seq<string>, i: int, cur: Manager, done: seq<Call>)
    requires 0 <= i < |paths| && CancelEachRemains(whole, paths, i, cur, done)
    requires !(ContentStatusOf(cur, paths[i]).Ok? && paths[i] !in cur.faults.cancelContent)
    ensures whole == Step(cur, done + OneCancelCalls(cur, paths[i]))
  {
    CancelEachStepUnfold(cur, paths[i..]);
  }

  lemma CancelEachAdvances(whole: Step, paths: seq<string>, i: int, cur: Manager, done: seq<Call>)
    requires 0 <= i < |paths| && CancelEachRemains(whole, paths, i, cur, done)
    requires ContentStatusOf(cur, paths[i]).Ok? && paths[i] !in cur.faults.cancelContent
    ensures CancelEachRemains(whole, paths, i + 1, AfterCancel(cur, paths[i]), done + OneCancelCalls(cur, paths[i]))
  {
    var rest := paths[i..];
    assert rest[0] == paths[i] && rest[1..] == paths[i + 1..];
    CancelEachStepUnfold(cur, rest);
    var next := CancelEachStep(AfterCancel(cur, paths[i]), paths[i + 1..]);
    assert done + (OneCancelCalls(cur, paths[i]) + next.calls) == (done + OneCancelCalls(cur, paths[i])) + next.calls;
  }

  lemma CancelEachEnds(whole: Step, paths: seq<string>, cur: Manager, done: seq<Call>)
    requires CancelEachRemains(whole, paths, |paths|, cur, done)
    ensures whole == Step(cur, done)
  {
    assert paths[|paths|..] == [];
    assert done + [] == done;
  }

  /** `CancelEachStep` on a non-empty list, one pass at a time. */
  lemma CancelEachStepUnfold(m: Manager, ps: seq<string>)
    requires ps != []
    ensures ContentStatusOf(m, ps[0]).Err? || ps[0] in m.faults.cancelContent ==>
      CancelEachStep(m, ps) == Step(m, OneCancelCalls(m, ps[0]))
    ensures ContentStatusOf(m, ps[0]).Ok? && ps[0] !in m.faults.cancelContent ==>
      CancelEachStep(m, ps) == Step(CancelEachStep(AfterCancel(m, ps[0]), ps[1..]).m,
        OneCancelCalls(m, ps[0]) + CancelEachStep(AfterCancel(m, ps[0]), ps[1..]).calls)
  {
  }

  lemma CancelsOfPair(p: string)
    ensures Cancels([ContentStatusQueried(p), ContentCancelled(p)]) == [p]
    ensures Cancels([ContentStatusQueried(p)]) == []
  {
    var one := [ContentCancelled(p)];
    var two := [ContentStatusQueried(p)] + one;
    assert one[1..] == [];
    assert Cancels(one) == [p] + Cancels([]);
    assert two[1..] == one;
    assert Cancels(two) == [] + Cancels(one);
    assert [ContentStatusQueried(p)][1..] == [];
  }

  lemma PrefixCons(x: string, a: seq<string>, b: seq<string>)
    requires a <= b
    ensures [x] + a <= [x] + b
  {
    assert ([x] + b)[..|a| + 1] == [x] + a;
  }

  /** Whatever fails, the cancelled paths are a prefix of the reported ones, in order. */
  lemma {:induction false} CancelsArePrefix(m: Manager, ps: seq<string>)
    ensures Cancels(CancelEachStep(m, ps).calls) <= ps
    decreases |ps|
  {
    if ps != [] && ContentStatusOf(m, ps[0]).Ok? && ps[0] !in m.faults.cancelContent {
      CancelsArePrefix(AfterCancel(m, ps[0]), ps[1..]);
      CancelsPrefixPasses(m, ps);
    } else if ps != [] {
      CancelsPrefixStops(m, ps);
    }
  }

  /** A path cancelled without error is followed by a prefix of the remaining paths. */
  lemma CancelsPrefixPasses(m: Manager, ps: seq<string>)
    requires ps != [] && ContentStatusOf(m, ps[0]).Ok? && ps[0] !in m.faults.cancelContent
    requires Cancels(CancelEachStep(AfterCancel(m, ps[0]), ps[1..]).calls) <= ps[1..]
    ensures Cancels(CancelEachStep(m, ps).calls) <= ps
  {
    var head := [ContentStatusQueried(ps[0]), ContentCancelled(ps[0])];
    var rest := CancelEachStep(AfterCancel(m, ps[0]), ps[1..]).calls;
    assert CancelEachStep(m, ps).calls == head + rest;
    CancelsAppend(head, rest);
    CancelsOfPair(ps[0]);
    PrefixCons(ps[0], Cancels(rest), ps[1..]);
    assert ps == [ps[0]] + ps[1..];
  }

  /** A path whose query or cancel throws ends the loop with at most that path cancelled. */
  lemma CancelsPrefixStops(m: Manager, ps: seq<string>)
    requires ps != [] && (ContentStatusOf(m, ps[0]).Err? || ps[0] in m.faults.cancelContent)
    ensures Cancels(CancelEachStep(m, ps).calls) <= ps
  {
    CancelsOfPair(ps[0]);
  }

  /**
   * `cleanup` cancels at most the paths the status reports, in their order,
   * stopping at the first error; with a null path array it cancels none.
   */
  lemma CleanupCancelsPrefix(m: Manager)
    ensures m.tracked.None? ==> Cancels(CleanupStep(m).calls) == []
    ensures m.tracked.Some? ==> Cancels(CleanupStep(m).calls) <= Paths(m.tracked.value)
  {
    assert Cancels([StatusQueried]) == [];
    if !m.faults.queryStatus && m.tracked.Some? {
      var s := CancelEachStep(m, Paths(m.tracked.value));
      CancelsArePrefix(m, Paths(m.tracked.value));
      CancelsAppend([StatusQueried], s.calls);
    }
  }

  lemma {:induction false} CancelEachTracked(m: Manager, es: seq<ContentStatus>)
    requires m.tracked == Some(es) && DistinctPaths(es)
    requires m.faults.queryContentStatus == {} && m.faults.cancelContent == {}
    ensures CancelEachStep(m, Paths(es)).m == m.(tracked := Some([]))
    ensures Cancels(CancelEachStep(m, Paths(es)).calls) == Paths(es)
    decreases |es|
  {
    if es == [] {
      assert Paths(es) == [];
      assert m.(tracked := Some([])) == m;
    } else {
      var p := es[0].path;
      var ps := Paths(es);
      assert ps[0] == p;
      LookupAt(es, 0);
      RemoveHead(es);
      var m1 := AfterCancel(m, p);
      assert m1 == m.(tracked := Some(es[1..]));
      assert ps[1..] == Paths(es[1..]);
      assert DistinctPaths(es[1..]) by {
        forall i, j | 0 <= i < j < |es[1..]| ensures es[1..][i].path != es[1..][j].path {
          assert es[1..][i] == es[i + 1] && es[1..][j] == es[j + 1];
        }
      }
      CancelEachTracked(m1, es[1..]);
      var rest := CancelEachStep(m1, ps[1..]);
      CancelsAppend([ContentStatusQueried(p), ContentCancelled(p)], rest.calls);
      CancelsOfPair(p);
      assert ps == [p] + ps[1..];
    }
  }

  /** A path on which the content query or the cancel throws. */
  predicate Throws(m: Manager, p: string) {
    p in m.faults.queryContentStatus || p in m.faults.cancelContent
  }

  /**
   * The loop of `cleanup` is cut exactly at the first path `es[k]` whose query
   * or cancel throws: every earlier path is cancelled and no longer tracked,
   * `es[k]` itself is cancelled only when its query succeeded, and no later
   * path is touched.
   */
  lemma {:induction false} CancelEachCutAtFirstThrow(m: Manager, es: seq<ContentStatus>, k: int)
    requires m.tracked == Some(es) && DistinctPaths(es) && 0 <= k <= |es|
    requires forall j :: 0 <= j < k ==> !Throws(m, es[j].path)
    requires k < |es| ==> Throws(m, es[k].path)
    ensures CancelEachStep(m, Paths(es)).m == m.(tracked := Some(es[k..]))
    ensures Cancels(CancelEachStep(m, Paths(es)).calls) == Paths(es)[..CutLength(m, es, k)]
    decreases |es|
  {
    if es == [] {
      assert Paths(es) == [];
      assert m.(tracked := Some(es[k..])) == m;
    } else if k == 0 {
      CancelEachCutAtHead(m, es);
    } else {
      var p := es[0].path;
      var m1 := m.(tracked := Some(es[1..]));
      CancelEachPassesHead(m, es);
      forall j | 0 <= j < k - 1 ensures !Throws(m1, es[1..][j].path) {
        assert es[1..][j] == es[j + 1];
      }
      if k < |es| {
        assert es[1..][k - 1] == es[k];
      }
      CancelEachCutAtFirstThrow(m1, es[1..], k - 1);
      assert es[1..][k - 1..] == es[k..];
      var rest := CancelEachStep(m1, Paths(es[1..]));
      CancelsAppend([ContentStatusQueried(p), ContentCancelled(p)], rest.calls);
      CancelsOfPair(p);
      PathsConsPrefix(es, CutLength(m, es, k));
    }
  }

  /** How many paths the loop cancels when `es[k]` is the first that throws. */
  function CutLength(m: Manager, es: seq<ContentStatus>, k: int): (n: int)
    requires 0 <= k <= |es|
    ensures k <= n <= |es|
    ensures n == k + 1 <==> k < |es| && es[k].path !in m.faults.queryContentStatus
  {
    if k < |es| && es[k].path !in m.faults.queryContentStatus then k + 1 else k
  }

  lemma PathsConsPrefix(es: seq<ContentStatus>, n: int)
    requires 1 <= n <= |es|
    ensures [es[0].path] + Paths(es[1..])[..n - 1] == Paths(es)[..n]
  {
    assert forall i :: 0 <= i < n - 1 ==> Paths(es[1..])[i] == es[i + 1].path;
  }

  /** The first tracked path throws: the loop stops there, cancelling it only if its query succeeded. */
  lemma CancelEachCutAtHead(m: Manager, es: seq<ContentStatus>)
    requires m.tracked == Some(es) && DistinctPaths(es) && es != [] && Throws(m, es[0].path)
    ensures CancelEachStep(m, Paths(es)).m == m
    ensures Cancels(CancelEachStep(m, Paths(es)).calls) ==
      if es[0].path !in m.faults.queryContentStatus then [es[0].path] else []
  {
    assert Paths(es)[0] == es[0].path;
    LookupAt(es, 0);
    CancelsOfPair(es[0].path);
  }

  /** The first tracked path does not throw: it is queried, cancelled and no longer tracked. */
  lemma CancelEachPassesHead(m: Manager, es: seq<ContentStatus>)
    requires m.tracked == Some(es) && DistinctPaths(es) && es != [] && !Throws(m, es[0].path)
    ensures DistinctPaths(es[1..])
    ensures var rest := CancelEachStep(m.(tracked := Some(es[1..])), Paths(es[1..]));
      CancelEachStep(m, Paths(es)) ==
        Step(rest.m, [ContentStatusQueried(es[0].path), ContentCancelled(es[0].path)] + rest.calls)
  {
    var ps := Paths(es);
    assert ps[0] == es[0].path;
    assert ps[1..] == Paths(es[1..]);
    LookupAt(es, 0);
    RemoveHead(es);
    assert DistinctPaths(es[1..]) by {
      forall i, j | 0 <= i < j < |es[1..]| ensures es[1..][i].path != es[1..][j].path {
        assert es[1..][i] == es[i + 1] && es[1..][j] == es[j + 1];
      }
    }
  }

  /** `cleanup` as a whole: the status query, then the loop cut at the first throw. */
  lemma CleanupCutAtFirstThrow(m: Manager, es: seq<ContentStatus>, k: int)
    requires !m.faults.queryStatus
    requires m.tracked == Some(es) && DistinctPaths(es) && 0 <= k <= |es|
    requires forall j :: 0 <= j < k ==> !Throws(m, es[j].path)
    requires k < |es| ==> Throws(m, es[k].path)
    ensures CleanupStep(m).m == m.(tracked := Some(es[k..]))
    ensures Cancels(CleanupStep(m).calls) == Paths(es)[..CutLength(m, es, k)]
  {
    CancelEachCutAtFirstThrow(m, es, k);
    assert Cancels([StatusQueried]) == [];
    CancelsAppend([StatusQueried], CancelEachStep(m, Paths(es)).calls);
  }

  /**
   * Without errors `cleanup` issues exactly one cancel per reported path, in the
   * reported order, and afterwards the manager tracks nothing.
   */
  lemma CleanupCancelsEveryTrackedPath(m: Manager)
    requires WellFormed(m)
    requires !m.faults.queryStatus && m.faults.queryContentStatus == {} && m.faults.cancelContent == {}
    ensures CleanupStep(m).m == if m.tracked.None? then m else m.(tracked := Some([]))
    ensures Cancels(CleanupStep(m).calls) == if m.tracked.None? then [] else Paths(m.tracked.value)
  {
    assert Cancels([StatusQueried]) == [];
    if m.tracked.Some? {
      var s := CancelEachStep(m, Paths(m.tracked.value));
      CancelEachTracked(m, m.tracked.value);
      CancelsAppend([StatusQueried], s.calls);
    }
  }

  /**
   * `cleanup` is idempotent: a second call on the same directory finds no files
   * to delete and, without errors, no paths to cancel, and changes nothing.
   */
  lemma CleanupIdempotent(m: Manager, files: set<string>, dirPath: string, c: DashContent)
    requires WellFormed(m)
    requires !m.faults.queryStatus && m.faults.queryContentStatus == {} && m.faults.cancelContent == {}
    ensures MediaFilePath(dirPath, c) !in CleanFiles(files, dirPath, c)
    ensures SubtitleFilePath(dirPath, c) !in CleanFiles(files, dirPath, c)
    ensures CleanFiles(CleanFiles(files, dirPath, c), dirPath, c) == CleanFiles(files, dirPath, c)
    ensures CleanupStep(CleanupStep(m).m).m == CleanupStep(m).m
    ensures CleanupStep(CleanupStep(m).m).calls == [StatusQueried]
  {
    CleanupCancelsEveryTrackedPath(m);
    var m1 := CleanupStep(m).m;
    if m1.tracked.Some? {
      assert Paths(m1.tracked.value) == [];
    }
  }

  // ---------------------------------------------------------------------------
  // File URIs

  function FileUri(path: string, name: string): string {
    "file://" + path + "/" + name
  }

  /** The directory part of a file URI built by `FileUri` for the file `name`. */
  function PathOfFileUri(uri: string, name: string): Option<string> {
    if |uri| >= 8 + |name| && uri[..7] == "file://" && uri[|uri| - |name| - 1..] == "/" + name
    then Some(uri[7..|uri| - |name| - 1])
    else None
  }

  lemma FileUriRoundTrip(path: string, name: string)
    ensures PathOfFileUri(FileUri(path, name), name) == Some(path)
  {
    var uri := FileUri(path, name);
    assert uri == "file://" + path + ("/" + name);
    assert uri[..7] == "file://";
    assert uri[|uri| - |name| - 1..] == "/" + name;
    assert uri[7..|uri| - |name| - 1] == path;
  }

  /** `getDownloadedFileUri`: the media file's URI for DASH content, `""` otherwise. */
  function DownloadedFileUri(cs: ContentStatus): (r: string)
    ensures cs.content.OtherContent? <==> r == ""
    ensures cs.content.Dash? ==> PathOfFileUri(r, cs.content.dash.mediaFileName) == Some(cs.path)
  {
    if cs.content.Dash? then
      FileUriRoundTrip(cs.path, cs.content.dash.mediaFileName);
      FileUri(cs.path, cs.content.dash.mediaFileName)
    else ""
  }

  /** `getDownloadedSubtitleUri`: the subtitle file's URI for DASH content, `""` otherwise. */
  function DownloadedSubtitleUri(cs: ContentStatus): (r: string)
    ensures cs.content.OtherContent? <==> r == ""
    ensures cs.content.Dash? ==> PathOfFileUri(r, cs.content.dash.subtitlesFileName) == Some(cs.path)
  {
    if cs.content.Dash? then
      FileUriRoundTrip(cs.path, cs.content.dash.subtitlesFileName);
      FileUri(cs.path, cs.content.dash.subtitlesFileName)
    else ""
  }

  /** `isOfflineFileAvailable`. */
  method IsOfflineFileAvailable(fs: FileStore, filePath: string) returns (b: bool)
    ensures b <==> filePath in fs.files
  {
    b := fs.Exists(filePath);
  }
}
