/**
 * The Java `DownloadBBExample.MBB_Playback_Fragment`: the same download
 * lifecycle as the Kotlin fragment, written inline in `onCreateView`. It looks
 * for a resumable download in `dlDirectory1` first, then sets the constraints,
 * offers the prompt, registers its listener (which also has the 20 % milestone
 * toast) and, when nothing is resumable, cleans up both download directories
 * before it starts a fresh download.
 */
module DownloadBBExample {
  import opened Text
  import opened Vendor
  import opened Storage
  import opened PlaybackHandOff
  import H = OfflineFileHelper
  import VF = VideoFragment
  import CT = ContentTypes

  /** `downloadDir1`: the name that marks a path as the primary download directory. */
  const DownloadDir1 := "dlDirectory1"

  /** `dlDirPath1`; `root` is the platform's public Downloads directory. */
  function DlDirPath1(root: string): (r: string)
    ensures Contains(r, DownloadDir1)
  {
    JoinedPathContains(root, DownloadDir1);
    root + "/" + DownloadDir1
  }

  const DashUrl := "http://content-access.intertrust-dev.com/content/onDemandprofile/Frozen-OnDemand/stream.mpd"

  /** The `content` the fragment downloads and plays. */
  const AppContent := DashContent(DashUrl, "mydownload-media.m4f", "mydownload-subtitles.vtt",
                                  ["video-avc1", "audio-und-mp4a", "subtitles/fr"])

  const MaxBandwidthBps := 20 * 1024 * 1024
  const MaxConnections := 2

  /**
   * The Java `ContentTypes` enum's `getMediaSourceParamsContentType()`: it gives
   * every content type the Kotlin enum's MIME string.
   */
  function MediaSourceParamsContentType(ct: CT.ContentType): (r: string)
    ensures r == CT.Mime(ct)
  {
    match ct
    case DASH => "application/dash+xml"
    case HLS => "application/vnd.apple.mpegurl"
    case PDCF => "video/mp4"
    case M4F => "video/mp4"
    case DCF => "application/vnd.oma.drm.dcf"
    case BBTS => "video/mp2t"
  }

  // ---------------------------------------------------------------------------
  // Resume detection

  /**
   * The outcome of the inline detection loop: the flag, or the
   * `NullPointerException` that iterating over a null path array throws (only
   * `ErrorCodeException` is caught, so it ends `onCreateView`).
   */
  datatype Detection = Flag(found: bool) | NullPathCrash

  /** What the Java loop decides for the manager `m` and directory name `dir`. */
  function Detect(m: Manager, dir: string): (d: Detection)
    ensures d.NullPathCrash? <==> !m.faults.queryStatus && m.tracked.None?
  {
    if !m.faults.queryStatus && m.tracked.None? then NullPathCrash else Flag(H.Resumable(m, dir))
  }

  /**
   * The Java outcome, judged against the Kotlin answer: where it does not crash
   * it is that answer (which `ScanWithBreak` and `DetectResumable` prove the Java
   * loop computes); where the path array is null the Kotlin helper returns false;
   * and the flag is set exactly when a match is reached before any query throws.
   */
  lemma DetectionMatchesKotlin(m: Manager, dir: string)
    ensures Detect(m, dir).Flag? ==> Detect(m, dir).found == H.Resumable(m, dir)
    ensures Detect(m, dir).NullPathCrash? ==> !H.Resumable(m, dir)
    ensures Detect(m, dir) == Flag(true) <==>
      !m.faults.queryStatus && m.tracked.Some? && exists i :: H.ReachedMatch(m, dir, i)
  {
    H.ResumableExactly(m, dir);
  }

  /** The inline loop of `onCreateView` that sets `resumableDownloadFound`, with its `break`. */
  method DetectResumable(md: MediaDownload, dir: string) returns (d: Detection)
    requires md.Valid()
    modifies md`calls
    ensures md.Snapshot() == old(md.Snapshot())
    ensures d == Detect(old(md.Snapshot()), dir)
    ensures md.calls == old(md.calls) + H.DetectCalls(old(md.Snapshot()), dir)
  {
    var status := md.QueryStatus();
    if status.Err? {
      return Flag(false);
    }
    if status.value.path.None? {
      return NullPathCrash;
    }
    var resumableDownloadFound := ScanWithBreak(md, status.value.state, status.value.path.value, dir);
    d := Flag(resumableDownloadFound);
  }

  /** The `for` loop itself: it sets the flag and leaves at the first matching entry. */
  method ScanWithBreak(md: MediaDownload, state: State, path: seq<string>, dir: string)
    returns (resumableDownloadFound: bool)
    requires md.Valid() && !md.faults.queryStatus && md.tracked.Some?
    requires state == md.state && path == Paths(md.tracked.value)
    modifies md`calls
    ensures md.Snapshot() == old(md.Snapshot())
    ensures resumableDownloadFound == H.Resumable(old(md.Snapshot()), dir)
    ensures md.calls == old(md.calls) + H.ScanCalls(old(md.Snapshot()), dir)
  {
    resumableDownloadFound := false;
    ghost var m := md.Snapshot();
    ghost var es := m.tracked.value;
    ghost var c0 := md.calls;
    ghost var failing := m.faults.queryContentStatus;
    var i := 0;
    while i < |path|
      invariant 0 <= i <= |path| == |es|
      invariant md.Snapshot() == m
      invariant md.calls == c0 + H.QueriesOf(path[..i])
      invariant forall j :: 0 <= j < i ==> !H.StopsScan(state, es[j], failing, dir)
      invariant !resumableDownloadFound
    {
      var contentStatus := md.QueryContentStatus(path[i]);
      H.QueriesOfNext(path, i);
      AppendAssoc(c0, H.QueriesOf(path[..i]), [ContentStatusQueried(path[i])]);
      LookupAt(es, i);
      if contentStatus.Err? {
        H.ScanStopsAt(m, dir, i);
        return false;
      }
      if state == Paused && contentStatus.value.contentState == Pending && Contains(path[i], dir) {
        H.ScanStopsAt(m, dir, i);
        resumableDownloadFound := true;
        break;
      }
      i := i + 1;
    }
    if !resumableDownloadFound {
      H.ScanStopsAt(m, dir, i);
    }
  }

  // ---------------------------------------------------------------------------
  // Cleanup of several directories

  /** The manager side of the cleanup passes over `dirs`, one after the other. */
  function CleanupAllStep(m: Manager, dirs: seq<string>): Step
    decreases |dirs|
  {
    if dirs == [] then Step(m, [])
    else
      var s := CleanupAllStep(m, dirs[..|dirs| - 1]);
      var t := H.CleanupStep(s.m);
      Step(t.m, s.calls + t.calls)
  }

  /** The file set after the cleanup passes over `dirs`. */
  function CleanAllFiles(files: set<string>, dirs: seq<string>, c: DashContent): set<string>
    decreases |dirs|
  {
    if dirs == [] then files
    else H.CleanFiles(CleanAllFiles(files, dirs[..|dirs| - 1], c), dirs[|dirs| - 1], c)
  }

  /**
   * `cleanup(mediaDownload, content, dlDirPath1, dlDirPath2)`: one pass per
   * directory; each pass catches its own errors.
   */
  method Cleanup(md: MediaDownload, fs: FileStore, content: DashContent, dlDirPath1: string, dlDirPath2: string)
    requires md.Valid()
    modifies md`calls, md`tracked, fs
    ensures md.Valid()
    ensures fs.files == CleanAllFiles(old(fs.files), [dlDirPath1, dlDirPath2], content)
    ensures md.Snapshot() == CleanupAllStep(old(md.Snapshot()), [dlDirPath1, dlDirPath2]).m
    ensures md.calls == old(md.calls) + CleanupAllStep(old(md.Snapshot()), [dlDirPath1, dlDirPath2]).calls
  {
    var pathItems := [dlDirPath1, dlDirPath2];
    ghost var m0 := md.Snapshot();
    ghost var c0 := md.calls;
    ghost var f0 := fs.files;
    var i := 0;
    while i < |pathItems|
      invariant 0 <= i <= |pathItems|
      invariant md.Valid()
      invariant fs.files == CleanAllFiles(f0, pathItems[..i], content)
      invariant md.Snapshot() == CleanupAllStep(m0, pathItems[..i]).m
      invariant md.calls == c0 + CleanupAllStep(m0, pathItems[..i]).calls
    {
      ghost var before := CleanupAllStep(m0, pathItems[..i]);
      H.Cleanup(md, fs, content, pathItems[i]);
      assert pathItems[..i + 1][..i] == pathItems[..i];
      assert md.calls == c0 + (before.calls + H.CleanupStep(before.m).calls);
      i := i + 1;
    }
    assert pathItems[..i] == pathItems;
  }

  /**
   * Both passes always run: the calls are the first pass's followed by the
   * second pass's, which starts with its own status query whatever failed in
   * the first; and both directories' files are gone.
   */
  lemma EveryPassRuns(m: Manager, files: set<string>, d1: string, d2: string, c: DashContent)
    ensures var first := H.CleanupStep(m);
      var all := CleanupAllStep(m, [d1, d2]).calls;
      all == first.calls + H.CleanupStep(first.m).calls && |first.calls| < |all| &&
      all[|first.calls|] == StatusQueried
    ensures CleanupAllStep(m, [d1, d2]).m == H.CleanupStep(H.CleanupStep(m).m).m
    ensures CleanAllFiles(files, [d1, d2], c) ==
      files - {H.MediaFilePath(d1, c), H.SubtitleFilePath(d1, c), H.MediaFilePath(d2, c), H.SubtitleFilePath(d2, c)}
  {
    assert [d1, d2][..1] == [d1];
    assert [d1][..0] == [];
    assert CleanupAllStep(m, [d1]) == Step(H.CleanupStep(m).m, [] + H.CleanupStep(m).calls);
    assert CleanAllFiles(files, [d1], c) == H.CleanFiles(files, d1, c);
  }

  /** The calls a cleanup pass can make. */
  predicate CleanupCall(x: Call) {
    x.StatusQueried? || x.ContentStatusQueried? || x.ContentCancelled?
  }

  /** A cleanup pass makes only cleanup calls and changes only what is tracked. */
  lemma {:induction false} CancelEachCalls(m: Manager, ps: seq<string>)
    ensures forall x :: x in H.CancelEachStep(m, ps).calls ==> CleanupCall(x)
    ensures H.CancelEachStep(m, ps).m.state == m.state && H.CancelEachStep(m, ps).m.faults == m.faults
    decreases |ps|
  {
    if ps != [] && ContentStatusOf(m, ps[0]).Ok? && ps[0] !in m.faults.cancelContent {
      CancelEachCalls(AfterCancel(m, ps[0]), ps[1..]);
    }
  }

  lemma {:induction false} CleanupAllCalls(m: Manager, dirs: seq<string>)
    ensures forall x :: x in CleanupAllStep(m, dirs).calls ==> CleanupCall(x)
    ensures CleanupAllStep(m, dirs).m.state == m.state && CleanupAllStep(m, dirs).m.faults == m.faults
    decreases |dirs|
  {
    if dirs != [] {
      var s := CleanupAllStep(m, dirs[..|dirs| - 1]);
      CleanupAllCalls(m, dirs[..|dirs| - 1]);
      if !s.m.faults.queryStatus && s.m.tracked.Some? {
        CancelEachCalls(s.m, Paths(s.m.tracked.value));
      }
    }
  }

  /**
   * Cleaning the same directory twice without errors cancels every tracked path
   * once, in order, during the first pass; the second pass only queries the
   * status, and the manager is left tracking nothing.
   */
  lemma CleanupSameDirTwice(m: Manager, d: string)
    requires WellFormed(m)
    requires !m.faults.queryStatus && m.faults.queryContentStatus == {} && m.faults.cancelContent == {}
    ensures CleanupAllStep(m, [d, d]).calls == H.CleanupStep(m).calls + [StatusQueried]
    ensures CleanupAllStep(m, [d, d]).m == if m.tracked.None? then m else m.(tracked := Some([]))
    ensures Cancels(CleanupAllStep(m, [d, d]).calls) == if m.tracked.None? then [] else Paths(m.tracked.value)
  {
    EveryPassRuns(m, {}, d, d, AppContent);
    H.CleanupIdempotent(m, {}, d, AppContent);
    H.CleanupCancelsEveryTrackedPath(m);
    CancelsAppend(H.CleanupStep(m).calls, [StatusQueried]);
    assert Cancels([StatusQueried]) == [];
  }

  // ---------------------------------------------------------------------------
  // The fresh start

  /**
   * The fresh-start sequence: `cleanup(mediaDownload, content, dlDirPath1,
   * dlDirPath1)`, then `resume`, then `addContent(dlDirPath1, content)`.
   */
  function FreshStartStep(m: Manager, dlDirPath1: string, c: DashContent): Step {
    var cl := CleanupAllStep(m, [dlDirPath1, dlDirPath1]);
    var st := VF.StartDownloadStep(cl.m, dlDirPath1, c);
    Step(st.m, cl.calls + st.calls)
  }

  /**
   * The fresh start issues every cancel before the `resume`, and ends with
   * `resume` followed by `addContent(dlDirPath1, content)` unless `resume` throws.
   */
  lemma FreshStartOrder(m: Manager, dlDirPath1: string, c: DashContent)
    ensures var calls := FreshStartStep(m, dlDirPath1, c).calls;
      forall i, j :: 0 <= i < |calls| && 0 <= j < |calls| && calls[i].ContentCancelled? && calls[j] == Resumed ==> i < j
    ensures var calls := FreshStartStep(m, dlDirPath1, c).calls;
      |calls| >= 1 && (m.faults.resume ==> calls[|calls| - 1] == Resumed)
    ensures var calls := FreshStartStep(m, dlDirPath1, c).calls;
      !m.faults.resume ==> |calls| >= 2 && calls[|calls| - 2..] == [Resumed, ContentAdded(dlDirPath1, c)]
  {
    var cl := CleanupAllStep(m, [dlDirPath1, dlDirPath1]);
    CleanupAllCalls(m, [dlDirPath1, dlDirPath1]);
    var st := VF.StartDownloadStep(cl.m, dlDirPath1, c);
    var calls := cl.calls + st.calls;
    forall k | 0 <= k < |cl.calls| ensures CleanupCall(calls[k]) {
      assert calls[k] == cl.calls[k] && cl.calls[k] in cl.calls;
    }
    forall k | |cl.calls| <= k < |calls| ensures !calls[k].ContentCancelled? {
      assert calls[k] == st.calls[k - |cl.calls|];
    }
  }

  /** The `try` block around `setListener`: the fresh start runs only without a resumable download. */
  function ListenerBlockStep(m: Manager, found: bool, dlDirPath1: string, c: DashContent): Step {
    if m.faults.setListener || found then Step(m, [ListenerSet])
    else
      var s := FreshStartStep(m, dlDirPath1, c);
      Step(s.m, [ListenerSet] + s.calls)
  }

  /** The manager side of `onCreateView`, from the detection on. */
  function CreateViewStep(m: Manager, dlDirPath1: string, c: DashContent): Step {
    match Detect(m, DownloadDir1)
    case NullPathCrash => Step(m, [StatusQueried])
    case Flag(found) =>
      var pre := H.DetectCalls(m, DownloadDir1) + [ConstraintsSet(MaxBandwidthBps, MaxConnections)];
      var s := ListenerBlockStep(m, found, dlDirPath1, c);
      Step(s.m, pre + s.calls)
  }

  /**
   * A fresh start without errors replaces whatever the manager tracked by the
   * one PENDING entry at `dlDirPath1`, and leaves the manager RUNNING.
   */
  lemma FreshStartReplacesTracking(m: Manager, dlDirPath1: string, c: DashContent)
    requires WellFormed(m)
    requires !m.faults.queryStatus && m.faults.queryContentStatus == {} && m.faults.cancelContent == {}
    requires !m.faults.resume && !m.faults.addContent
    ensures FreshStartStep(m, dlDirPath1, c).m ==
      m.(state := Running, tracked := Some([ContentStatus(dlDirPath1, Pending, 0, Dash(c))]))
  {
    CleanupSameDirTwice(m, dlDirPath1);
    CleanupAllCalls(m, [dlDirPath1, dlDirPath1]);
    var m1 := CleanupAllStep(m, [dlDirPath1, dlDirPath1]).m;
    assert m1.tracked == None || m1.tracked == Some([]);
    var e := ContentStatus(dlDirPath1, Pending, 0, Dash(c));
    var es: seq<ContentStatus> := [];
    assert RemovePath(es, dlDirPath1) == [];
    assert RemovePath(es, dlDirPath1) + [e] == [e];
    assert AfterAdd(AfterResume(m1), dlDirPath1, c) == m1.(state := Running, tracked := Some([e]));
  }

  /**
   * `onCreateView` starts a download exactly when the path array is not null, no
   * resumable download is found and neither `setListener` nor `resume` throws;
   * a resumable download leaves the manager as it was.
   */
  lemma DownloadStartsOnlyWithoutResumable(m: Manager, dlDirPath1: string, c: DashContent)
    ensures Detect(m, DownloadDir1) == Flag(true) ==> CreateViewStep(m, dlDirPath1, c).m == m
    ensures ContentAdded(dlDirPath1, c) in CreateViewStep(m, dlDirPath1, c).calls <==>
      Detect(m, DownloadDir1) == Flag(false) && !m.faults.setListener && !m.faults.resume
  {
    var pre := H.DetectCalls(m, DownloadDir1) + [ConstraintsSet(MaxBandwidthBps, MaxConnections)];
    if m.tracked.Some? {
      var ps := Paths(m.tracked.value)[..H.Scanned(m, DownloadDir1)];
      assert forall x :: x in H.QueriesOf(ps) ==> x.ContentStatusQueried?;
    }
    assert ContentAdded(dlDirPath1, c) !in pre;
    var cl := CleanupAllStep(m, [dlDirPath1, dlDirPath1]);
    CleanupAllCalls(m, [dlDirPath1, dlDirPath1]);
    assert ContentAdded(dlDirPath1, c) !in cl.calls;
  }

  /** The Java playback run's source: the application's file names under the notified path. */
  function PlaySource(cs: ContentStatus, c: DashContent): (r: VideoSource)
    ensures H.PathOfFileUri(r.uri, c.mediaFileName) == Some(cs.path)
    ensures r.subtitleUrl.Some? && H.PathOfFileUri(r.subtitleUrl.value, c.subtitlesFileName) == Some(cs.path)
    ensures r.sourceType == SINGLE_FILE && r.sourceContentType == "video/mp4"
  {
    H.FileUriRoundTrip(cs.path, c.mediaFileName);
    H.FileUriRoundTrip(cs.path, c.subtitlesFileName);
    VideoSource(H.FileUri(cs.path, c.mediaFileName), MediaSourceTypeFor(CT.M4F), MediaSourceParamsContentType(CT.M4F),
                Some(H.FileUri(cs.path, c.subtitlesFileName)))
  }

  /**
   * For content the manager reports as the application's own DASH content, the
   * Java playback source is the Kotlin one.
   */
  lemma PlaySourceMatchesKotlin(cs: ContentStatus, c: DashContent)
    requires cs.content == Dash(c)
    ensures PlaySource(cs, c) == VF.OnlineSource(cs)
  {
  }

  // ---------------------------------------------------------------------------
  // The fragment

  class PlaybackFragment {
    const mediaDownload: MediaDownload
    const files: FileStore
    const dlDirPath1: string
    /** Whether the resume-or-cleanup prompt has been shown. */
    var promptShown: bool
    /** Whether the download listener is registered. */
    var listening: bool
    var isPlaying: bool
    /** The progress bar's value. */
    var progress: int
    var posted: seq<Runnable>
    var shown: seq<Runnable>

    function ListenerState(): Listener
      reads this
    {
      Listener(isPlaying, progress, posted, shown)
    }

    ghost predicate Valid()
      reads this, mediaDownload
    {
      mediaDownload.Valid()
    }

    /** `root` is the platform's public Downloads directory. */
    constructor (md: MediaDownload, fs: FileStore, root: string)
      ensures mediaDownload == md && files == fs && dlDirPath1 == DlDirPath1(root)
      ensures !promptShown && !listening
      ensures ListenerState() == Listener(false, 0, [], [])
    {
      mediaDownload, files, dlDirPath1 := md, fs, DlDirPath1(root);
      promptShown, listening := false, false;
      isPlaying, progress, posted, shown := false, 0, [], [];
    }

    /**
     * `onCreateView`, from the creation of the manager on; `crashed` reports the
     * uncaught `NullPointerException` of the detection loop.
     */
    method OnCreateView() returns (crashed: bool)
      requires Valid()
      modifies this, mediaDownload`calls, mediaDownload`state, mediaDownload`tracked, files
      ensures Valid()
      ensures var d := Detect(old(mediaDownload.Snapshot()), DownloadDir1);
        crashed == d.NullPathCrash? &&
        promptShown == (old(promptShown) || d == Flag(true)) &&
        listening == (old(listening) || (!crashed && !mediaDownload.faults.setListener)) &&
        files.files == if d == Flag(false) && !mediaDownload.faults.setListener
          then CleanAllFiles(old(files.files), [dlDirPath1, dlDirPath1], AppContent) else old(files.files)
      ensures var s := CreateViewStep(old(mediaDownload.Snapshot()), dlDirPath1, AppContent);
        mediaDownload.Snapshot() == s.m && mediaDownload.calls == old(mediaDownload.calls) + s.calls
      ensures ListenerState() == old(ListenerState())
    {
      ghost var m := mediaDownload.Snapshot();
      ghost var c0 := mediaDownload.calls;
      var detection := DetectResumable(mediaDownload, DownloadDir1);
      if detection.NullPathCrash? {
        return true;
      }
      crashed := false;
      var resumableDownloadFound := detection.found;
      var _ := mediaDownload.SetConstraints(MaxBandwidthBps, MaxConnections);
      if resumableDownloadFound {
        promptShown := true;
      }
      ghost var pre := H.DetectCalls(m, DownloadDir1) + [ConstraintsSet(MaxBandwidthBps, MaxConnections)];
      AppendAssoc(c0, H.DetectCalls(m, DownloadDir1), [ConstraintsSet(MaxBandwidthBps, MaxConnections)]);
      AppendAssoc(c0, pre, ListenerBlockStep(m, resumableDownloadFound, dlDirPath1, AppContent).calls);
      ListenerBlock(resumableDownloadFound);
    }

    /** `setDownloadListener`, then the fresh start when no resumable download was found. */
    method ListenerBlock(resumableDownloadFound: bool)
      requires Valid()
      modifies this`listening, mediaDownload`calls, mediaDownload`state, mediaDownload`tracked, files
      ensures Valid()
      ensures listening == (old(listening) || !mediaDownload.faults.setListener)
      ensures files.files == if !resumableDownloadFound && !mediaDownload.faults.setListener
        then CleanAllFiles(old(files.files), [dlDirPath1, dlDirPath1], AppContent) else old(files.files)
      ensures var s := ListenerBlockStep(old(mediaDownload.Snapshot()), resumableDownloadFound, dlDirPath1, AppContent);
        mediaDownload.Snapshot() == s.m && mediaDownload.calls == old(mediaDownload.calls) + s.calls
    {
      var ok := mediaDownload.SetListener();
      if !ok {
        return;
      }
      listening := true;
      if !resumableDownloadFound {
        FreshStart();
      }
    }

    /** The fresh start: clean up `dlDirPath1` twice, `resume`, then `addContent`. */
    method FreshStart()
      requires Valid()
      modifies mediaDownload`calls, mediaDownload`state, mediaDownload`tracked, files
      ensures Valid()
      ensures files.files == CleanAllFiles(old(files.files), [dlDirPath1, dlDirPath1], AppContent)
      ensures var s := FreshStartStep(old(mediaDownload.Snapshot()), dlDirPath1, AppContent);
        mediaDownload.Snapshot() == s.m && mediaDownload.calls == old(mediaDownload.calls) + s.calls
    {
      ghost var m := mediaDownload.Snapshot();
      ghost var c0 := mediaDownload.calls;
      ghost var cl := CleanupAllStep(m, [dlDirPath1, dlDirPath1]);
      Cleanup(mediaDownload, files, AppContent, dlDirPath1, dlDirPath1);
      ghost var st := VF.StartDownloadStep(cl.m, dlDirPath1, AppContent);
      AppendAssoc(c0, cl.calls, st.calls);
      var ok := mediaDownload.Resume();
      if ok {
        ok := mediaDownload.AddContent(dlDirPath1, AppContent);
      }
    }

    /** The listener's `progress(contentStatus)`, with the milestone toast. */
    method Progress(cs: ContentStatus)
      requires listening
      modifies this`progress, this`posted
      ensures ListenerState() == Notify(old(ListenerState()), cs, DownloadDir1, true, PlaySource(cs, AppContent))
    {
      var reactions: seq<Runnable> := [];
      if cs.contentState == Failing {
        reactions := reactions + [ShowFailing(cs.path)];
      }
      if Contains(cs.path, DownloadDir1) {
        progress := cs.downloadedPercentage;
      }
      if cs.downloadedPercentage % 20 == 0 && cs.downloadedPercentage < 100 {
        reactions := reactions + [ShowMilestone(cs.path, cs.downloadedPercentage)];
      }
      if cs.contentState == Completed {
        reactions := reactions + [ShowCompleted(cs.path)];
      }
      if cs.downloadedPercentage == PercentageStartPlay && Contains(cs.path, DownloadDir1) && !isPlaying {
        reactions := reactions + [PlayVideo(PlaySource(cs, AppContent))];
      }
      assert reactions == Reactions(cs, isPlaying, DownloadDir1, true, PlaySource(cs, AppContent));
      posted := posted + reactions;
    }

    /**
     * The main looper runs the oldest posted run; for a playback run, `setupOk`
     * says whether `makeUrl` and the player setup completed without an exception.
     */
    method RunPosted(setupOk: bool)
      requires posted != []
      modifies this`isPlaying, this`posted, this`shown
      ensures ListenerState() == RunNext(old(ListenerState()), setupOk)
    {
      var run := posted[0];
      posted := posted[1..];
      if run.PlayVideo? {
        if setupOk {
          shown := shown + [run];
          isPlaying := true;
        }
      } else {
        shown := shown + [run];
      }
    }

    /** The prompt's OK button: resume the pending downloads. */
    method OnResumeConfirmed()
      requires promptShown
      modifies mediaDownload`calls, mediaDownload`state
      ensures mediaDownload.calls == old(mediaDownload.calls) + [Resumed]
      ensures mediaDownload.Snapshot() ==
        if mediaDownload.faults.resume then old(mediaDownload.Snapshot()) else AfterResume(old(mediaDownload.Snapshot()))
    {
      var _ := mediaDownload.Resume();
    }

    /** The prompt's Cancel button: `cleanup(mediaDownload, content, dlDirPath1, dlDirPath1)`. */
    method OnCleanupConfirmed()
      requires promptShown && Valid()
      modifies mediaDownload`calls, mediaDownload`tracked, files
      ensures Valid()
      ensures files.files == CleanAllFiles(old(files.files), [dlDirPath1, dlDirPath1], AppContent)
      ensures mediaDownload.Snapshot() == CleanupAllStep(old(mediaDownload.Snapshot()), [dlDirPath1, dlDirPath1]).m
      ensures mediaDownload.calls ==
        old(mediaDownload.calls) + CleanupAllStep(old(mediaDownload.Snapshot()), [dlDirPath1, dlDirPath1]).calls
    {
      Cleanup(mediaDownload, files, AppContent, dlDirPath1, dlDirPath1);
    }
  }
}
