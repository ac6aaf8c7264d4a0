/**
 * The Kotlin `VideoFragment`: on creation it sets the download constraints,
 * looks for a resumable download, offers the resume-or-cleanup prompt when it
 * finds one, and then either plays the already downloaded file or registers
 * its download listener and, when nothing is resumable, starts a new download.
 */
module VideoFragment {
  import opened Text
  import opened Vendor
  import opened Storage
  import opened PlaybackHandOff
  import H = OfflineFileHelper
  import CT = ContentTypes

  const FileName := "mydownload-media.m4f"
  const Subtitle := "mydownload-subtitles.vtt"
  const SampleDashUrl := "http://content-access.intertrust-dev.com/content/onDemandprofile/Frozen-OnDemand/stream.mpd"
  const Tracks := ["video-avc1", "audio-und-mp4a", "subtitles/fr"]

  /** `getDashContent()`. */
  const AppContent := DashContent(SampleDashUrl, FileName, Subtitle, Tracks)

  /** 20 MiB/s and two connections, as `setMediaDownloadConstraints` sets them. */
  const MaxBandwidthBps := 20 * 1024 * 1024
  const MaxConnections := 2

  /** The file whose presence selects offline playback. */
  function OfflineFilePath(dirPath: string): string {
    dirPath + "/" + FileName
  }

  /** `getOnlineVideoSource(contentStatus)`: the downloaded M4F file, with its subtitles. */
  function OnlineSource(cs: ContentStatus): (r: VideoSource)
    ensures r.sourceType == SINGLE_FILE && r.sourceContentType == "video/mp4" && r.subtitleUrl.Some?
    ensures cs.content.Dash? ==>
      H.PathOfFileUri(r.uri, cs.content.dash.mediaFileName) == Some(cs.path) &&
      H.PathOfFileUri(r.subtitleUrl.value, cs.content.dash.subtitlesFileName) == Some(cs.path)
    ensures cs.content.OtherContent? ==> r.uri == "" && r.subtitleUrl == Some("")
  {
    VideoSource(H.DownloadedFileUri(cs), MediaSourceTypeFor(CT.M4F), CT.Mime(CT.M4F), Some(H.DownloadedSubtitleUri(cs)))
  }

  /** `getOfflineVideoSource()`: the file offline playback was chosen for, without subtitles. */
  function OfflineSource(dirPath: string): (r: VideoSource)
    ensures r.uri == OfflineFilePath(dirPath)
    ensures r.sourceType == SINGLE_FILE && r.sourceContentType == "video/mp4" && r.subtitleUrl.None?
  {
    VideoSource(dirPath + "/" + FileName, MediaSourceTypeFor(CT.M4F), CT.Mime(CT.M4F), None)
  }

  // ---------------------------------------------------------------------------
  // The manager side of the fragment, as functions of the manager's state

  /** `startDownload`: `resume`, then `addContent(downloadDirPath, content)`; a throw ends it. */
  function StartDownloadStep(m: Manager, dirPath: string, c: DashContent): (s: Step)
    ensures s.calls == [Resumed] || s.calls == [Resumed, ContentAdded(dirPath, c)]
    ensures s.calls == [Resumed, ContentAdded(dirPath, c)] <==> !m.faults.resume
    ensures !m.faults.resume && !m.faults.addContent ==> s.m == AfterAdd(AfterResume(m), dirPath, c)
    ensures m.faults.resume || m.faults.addContent ==> s.m.tracked == m.tracked
  {
    if m.faults.resume then Step(m, [Resumed])
    else
      var m1 := AfterResume(m);
      Step(if m.faults.addContent then m1 else AfterAdd(m1, dirPath, c), [Resumed, ContentAdded(dirPath, c)])
  }

  /** `doDownload`: register the listener, then start a download unless one is resumable. */
  function DoDownloadStep(m: Manager, found: bool, dirPath: string, c: DashContent): Step {
    if m.faults.setListener || found then Step(m, [ListenerSet])
    else
      var s := StartDownloadStep(m, dirPath, c);
      Step(s.m, [ListenerSet] + s.calls)
  }

  /** The calls `onCreateView` makes before its offline-or-download choice. */
  function PreludeCalls(m: Manager): seq<Call> {
    [ConstraintsSet(MaxBandwidthBps, MaxConnections)] + H.DetectCalls(m, H.DownloadDir)
  }

  /** The manager side of `onCreateView`; `offline` says whether the offline file exists. */
  function CreateViewStep(m: Manager, offline: bool, dirPath: string, c: DashContent): Step {
    if offline then Step(m, PreludeCalls(m))
    else
      var s := DoDownloadStep(m, H.Resumable(m, H.DownloadDir), dirPath, c);
      Step(s.m, PreludeCalls(m) + s.calls)
  }

  lemma NoAddBeforeChoice(m: Manager, c: DashContent, dirPath: string)
    ensures ContentAdded(dirPath, c) !in PreludeCalls(m)
    ensures Resumed !in PreludeCalls(m)
  {
    var d := H.DetectCalls(m, H.DownloadDir);
    if m.tracked.Some? {
      var ps := Paths(m.tracked.value)[..H.Scanned(m, H.DownloadDir)];
      assert forall x :: x in H.QueriesOf(ps) ==> x.ContentStatusQueried?;
    }
    assert forall x :: x in d ==> x == StatusQueried || x.ContentStatusQueried?;
  }

  /**
   * `onCreateView` adds content exactly when the offline file is missing, no
   * resumable download was found and neither `setListener` nor `resume` threw;
   * and when it does, `resume` comes right before `addContent`, after the
   * listener was registered.
   */
  lemma DownloadStartsOnlyWithoutResumable(m: Manager, offline: bool, dirPath: string, c: DashContent)
    ensures var calls := CreateViewStep(m, offline, dirPath, c).calls;
      ContentAdded(dirPath, c) in calls <==>
        !offline && !H.Resumable(m, H.DownloadDir) && !m.faults.setListener && !m.faults.resume
    ensures var calls := CreateViewStep(m, offline, dirPath, c).calls;
      ContentAdded(dirPath, c) in calls ==>
        calls == PreludeCalls(m) + [ListenerSet, Resumed, ContentAdded(dirPath, c)]
  {
    NoAddBeforeChoice(m, c, dirPath);
  }

  /**
   * A resumable download, or an offline file, leaves the manager's state as it
   * was: nothing is resumed, added or cancelled until the user answers the prompt.
   */
  lemma ResumableOrOfflineLeavesManager(m: Manager, offline: bool, dirPath: string, c: DashContent)
    requires offline || H.Resumable(m, H.DownloadDir)
    ensures CreateViewStep(m, offline, dirPath, c).m == m
    ensures Resumed !in CreateViewStep(m, offline, dirPath, c).calls
  {
    NoAddBeforeChoice(m, c, dirPath);
    if !offline {
      assert CreateViewStep(m, offline, dirPath, c).calls == PreludeCalls(m) + [ListenerSet];
    }
  }

  /**
   * A fresh start without errors leaves the manager RUNNING with the content
   * PENDING at the download directory; while the manager stays RUNNING,
   * detection does not report it.
   */
  lemma FreshStartTracksPendingContent(m: Manager, dirPath: string, c: DashContent)
    requires !H.Resumable(m, H.DownloadDir)
    requires !m.faults.setListener && !m.faults.resume && !m.faults.addContent
    ensures var m1 := CreateViewStep(m, false, dirPath, c).m;
      m1.state == Running && m1.tracked.Some? &&
      Lookup(m1.tracked.value, dirPath) == Some(ContentStatus(dirPath, Pending, 0, Dash(c))) &&
      !H.Resumable(m1, H.DownloadDir)
  {
    LookupAfterAdd(AfterResume(m), dirPath, c);
  }

  /**
   * If the app is killed during the fresh start's download, the manager is
   * PAUSED with the content still PENDING, and the detection at the next
   * start reports a resumable download.
   */
  lemma KilledDownloadIsResumable(m: Manager, root: string)
    requires !H.Resumable(m, H.DownloadDir)
    requires !m.faults.setListener && !m.faults.resume && !m.faults.addContent
    requires !m.faults.queryStatus && m.faults.queryContentStatus == {}
    ensures var m1 := CreateViewStep(m, false, H.DownloadDirPath(root), AppContent).m;
      H.Resumable(m1.(state := Paused), H.DownloadDir)
  {
    var dirPath := H.DownloadDirPath(root);
    var m1 := CreateViewStep(m, false, dirPath, AppContent).m;
    assert m1 == AfterAdd(AfterResume(m), dirPath, AppContent);
    var killed := m1.(state := Paused);
    var es := killed.tracked.value;
    assert es[|es| - 1] == ContentStatus(dirPath, Pending, 0, Dash(AppContent));
    H.ResumableWithoutFaults(killed, H.DownloadDir);
  }

  // ---------------------------------------------------------------------------
  // The fragment

  class Fragment {
    const mediaDownload: MediaDownload
    const files: FileStore
    const downloadDirPath: string
    var resumableDownloadFound: bool
    /** Whether the resume-or-cleanup prompt has been shown. */
    var promptShown: bool
    /** Whether the download listener is registered. */
    var listening: bool
    var isPlaying: bool
    /** The progress bar's value. */
    var progress: int
    var posted: seq<Runnable>
    var shown: seq<Runnable>

    function ListenerState(): Listener
      reads this
    {
      Listener(isPlaying, progress, posted, shown)
    }

    ghost predicate Valid()
      reads this, mediaDownload
    {
      mediaDownload.Valid()
    }

    /** `root` is the platform's public Downloads directory. */
    constructor (md: MediaDownload, fs: FileStore, root: string)
      ensures mediaDownload == md && files == fs && downloadDirPath == H.DownloadDirPath(root)
      ensures !resumableDownloadFound && !promptShown && !listening
      ensures ListenerState() == Listener(false, 0, [], [])
    {
      mediaDownload, files, downloadDirPath := md, fs, H.DownloadDirPath(root);
      resumableDownloadFound, promptShown, listening := false, false, false;
      isPlaying, progress, posted, shown := false, 0, [], [];
    }

    /** `onCreateView`, from the constraints on; prompt answers come later. */
    method OnCreateView()
      requires Valid()
      modifies this, mediaDownload`calls, mediaDownload`state, mediaDownload`tracked
      ensures Valid()
      ensures resumableDownloadFound == H.Resumable(old(mediaDownload.Snapshot()), H.DownloadDir)
      ensures promptShown == (old(promptShown) || resumableDownloadFound)
      ensures var offline := OfflineFilePath(downloadDirPath) in files.files;
        var s := CreateViewStep(old(mediaDownload.Snapshot()), offline, downloadDirPath, AppContent);
        mediaDownload.Snapshot() == s.m && mediaDownload.calls == old(mediaDownload.calls) + s.calls
      ensures var offline := OfflineFilePath(downloadDirPath) in files.files;
        listening == (old(listening) || (!offline && !mediaDownload.faults.setListener)) &&
        posted == old(posted) + (if offline then [PlayVideo(OfflineSource(downloadDirPath))] else [])
      ensures isPlaying == old(isPlaying) && progress == old(progress) && shown == old(shown)
    {
      ghost var m := mediaDownload.Snapshot();
      Prelude();
      var available := H.IsOfflineFileAvailable(files, downloadDirPath + "/" + FileName);
      if available {
        PlayOffline();
      } else {
        AppendAssoc(old(mediaDownload.calls), PreludeCalls(m), DoDownloadStep(m, resumableDownloadFound, downloadDirPath, AppContent).calls);
        DoDownload();
      }
    }

    /** The start of `onCreateView`: set the constraints, then look for a resumable download. */
    method Prelude()
      requires Valid()
      modifies this`resumableDownloadFound, this`promptShown, mediaDownload`calls
      ensures Valid()
      ensures mediaDownload.Snapshot() == old(mediaDownload.Snapshot())
      ensures resumableDownloadFound == H.Resumable(old(mediaDownload.Snapshot()), H.DownloadDir)
      ensures promptShown == (old(promptShown) || resumableDownloadFound)
      ensures mediaDownload.calls == old(mediaDownload.calls) + PreludeCalls(old(mediaDownload.Snapshot()))
    {
      var _ := mediaDownload.SetConstraints(MaxBandwidthBps, MaxConnections);
      AppendAssoc(old(mediaDownload.calls), [ConstraintsSet(MaxBandwidthBps, MaxConnections)], H.DetectCalls(mediaDownload.Snapshot(), H.DownloadDir));
      resumableDownloadFound := H.IsThereAnyResumableDownload(mediaDownload);
      if resumableDownloadFound {
        promptShown := true;
      }
    }

    /** `playOffline`: post the playback of the offline file. */
    method PlayOffline()
      modifies this`posted
      ensures posted == old(posted) + [PlayVideo(OfflineSource(downloadDirPath))]
    {
      posted := posted + [PlayVideo(OfflineSource(downloadDirPath))];
    }

    /** `doDownload`. */
    method DoDownload()
      requires Valid()
      modifies this`listening, mediaDownload`calls, mediaDownload`state, mediaDownload`tracked
      ensures Valid()
      ensures var s := DoDownloadStep(old(mediaDownload.Snapshot()), resumableDownloadFound, downloadDirPath, AppContent);
        mediaDownload.Snapshot() == s.m && mediaDownload.calls == old(mediaDownload.calls) + s.calls
      ensures listening == (old(listening) || !mediaDownload.faults.setListener)
    {
      var ok := mediaDownload.SetListener();
      if !ok {
        return;
      }
      listening := true;
      if !resumableDownloadFound {
        StartDownload(AppContent, downloadDirPath);
      }
    }

    /** `startDownload(content, downloadDirPath)`. */
    method StartDownload(content: DashContent, dirPath: string)
      requires Valid()
      modifies mediaDownload`calls, mediaDownload`state, mediaDownload`tracked
      ensures Valid()
      ensures var s := StartDownloadStep(old(mediaDownload.Snapshot()), dirPath, content);
        mediaDownload.Snapshot() == s.m && mediaDownload.calls == old(mediaDownload.calls) + s.calls
    {
      var ok := mediaDownload.Resume();
      if !ok {
        return;
      }
      ok := mediaDownload.AddContent(dirPath, content);
    }

    /** The listener's `progress(contentStatus)`. */
    method Progress(cs: ContentStatus)
      requires listening
      modifies this`progress, this`posted
      ensures ListenerState() == Notify(old(ListenerState()), cs, H.DownloadDir, false, OnlineSource(cs))
    {
      if Contains(cs.path, H.DownloadDir) {
        progress := cs.downloadedPercentage;
      }
      var source := OnlineSource(cs);
      var reactions: seq<Runnable> := [];
      if cs.contentState == Failing {
        reactions := reactions + [ShowFailing(cs.path)];
      }
      if cs.contentState == Completed {
        reactions := reactions + [ShowCompleted(cs.path)];
      }
      if cs.downloadedPercentage == PercentageStartPlay && Contains(cs.path, H.DownloadDir) && !isPlaying {
        reactions := reactions + [PlayVideo(source)];
      }
      posted := posted + reactions;
    }

    /**
     * The main looper runs the oldest posted run; for a playback run, `setupOk`
     * says whether `playVideo`'s setup completed without an exception.
     */
    method RunPosted(setupOk: bool)
      requires posted != []
      modifies this`isPlaying, this`posted, this`shown
      ensures ListenerState() == RunNext(old(ListenerState()), setupOk)
    {
      var run := posted[0];
      posted := posted[1..];
      if run.PlayVideo? {
        if setupOk {
          shown := shown + [run];
          isPlaying := true;
        }
      } else {
        shown := shown + [run];
      }
    }

    /** The prompt's OK button: resume the pending downloads. */
    method OnResumeConfirmed()
      requires promptShown
      modifies mediaDownload`calls, mediaDownload`state
      ensures mediaDownload.calls == old(mediaDownload.calls) + [Resumed]
      ensures mediaDownload.Snapshot() ==
        if mediaDownload.faults.resume then old(mediaDownload.Snapshot()) else AfterResume(old(mediaDownload.Snapshot()))
    {
      var _ := mediaDownload.Resume();
    }

    /** The prompt's Cancel button: clean up the download directory. */
    method OnCleanupConfirmed()
      requires promptShown && Valid()
      modifies mediaDownload`calls, mediaDownload`tracked, files
      ensures Valid()
      ensures files.files == H.CleanFiles(old(files.files), downloadDirPath, AppContent)
      ensures mediaDownload.Snapshot() == H.CleanupStep(old(mediaDownload.Snapshot())).m
      ensures mediaDownload.calls == old(mediaDownload.calls) + H.CleanupStep(old(mediaDownload.Snapshot())).calls
    {
      H.Cleanup(mediaDownload, files, AppContent, downloadDirPath);
    }
  }
}
