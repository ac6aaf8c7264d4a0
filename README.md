# ExpressPlay download lifecycle, in Dafny

This project models the download lifecycle of the ExpressPlay Marlin Broadband
sample application. Two fragments share that lifecycle: the Kotlin
`VideoFragment` with its `OfflineFileHelper` helpers, and the Java
`DownloadBBExample.MBB_Playback_Fragment`. The model covers:

- **Resume detection.** The application asks whether the vendor download
  manager (`MediaDownload`) is PAUSED and tracks a PENDING entry whose path
  contains the primary directory name (`rg_offline`, or `dlDirectory1` in Java).
  The scan stops at the first match and answers false on every error.
- **Cleanup.** The application deletes the media and subtitle files of one
  directory, if they exist. It then queries and cancels every tracked path, in
  the order the manager reports them. The first call that throws ends the pass.
  The Java version runs this pass over a list of two directories.
- **The listener's decision rules.** For each `progress(contentStatus)`
  notification the listener decides four things:
  - whether to post a failing notice, a 20 % milestone toast (Java only), a
    completed notice and a playback run;
  - how the progress bar moves.

  The main looper runs the posted work in order. A playback run sets
  `isPlaying` only when its setup succeeds.
- **The start-up choice.** `onCreateView` sets the constraints and detects a
  resumable download; if it finds one, it shows the prompt. It then either posts
  offline playback (when the media file exists) or registers the listener.
  Without a resumable download it also starts a download: `resume`, then
  `addContent`. Java first cleans up `dlDirPath1` twice.
- **String and enum helpers.** The model covers the `file://` URI builders, the
  `ContentTypes` → MIME table (Kotlin and Java) and the media-source-type rule
  (`HLS`/`DASH` keep their name, everything else is `SINGLE_FILE`).

## Modules

- `Vendor` is an abstract model of the vendor manager. Its state is:
  - the aggregate state;
  - the tracked entries, or `None` for a null path array;
  - a fixed `Faults` record that says which calls throw `ErrorCodeException`.

  The class `MediaDownload` wraps that state and records every call in
  `calls`. The effects of `cancelContent`, `resume` and `addContent` are
  assumptions of the model, because the vendor library is not part of it:
  - cancel removes the path;
  - resume makes the manager RUNNING;
  - add replaces any entry at the directory by a fresh PENDING one.

  Querying a path that is not tracked throws.
- `Storage.FileStore` is the filesystem: a set of existing paths.
- In `OfflineFileHelper`, each helper is a method proved against a
  specification function on the manager's state: `Resumable`, `CleanupStep` or
  `CancelEachStep`. Lemmas then state what the source promises about those
  functions.
- `PlaybackHandOff` holds the listener rules that both fragments share, as
  functions on a `Listener` value. It also holds the lemmas about sequential
  and deferred handling.
- In `VideoFragment` and `DownloadBBExample`, each fragment is a class. Its
  methods are proved against `Notify`, `RunNext` and the manager-side step
  functions.

The Java and Kotlin sources differ in these ways:

- The Java detection loop iterates over `status.path` without a null check
  (`DownloadBBExample.java:288-289`). A null path array throws a
  `NullPointerException`. Nothing catches it: only `ErrorCodeException` is
  caught. The model therefore gives that case its own outcome, `NullPathCrash`,
  and `onCreateView` ends there. The Kotlin helper returns false in that case.
- The Java playback run builds its URIs from the application's own `content`.
  The Kotlin run builds them from the content the manager reports.
  `PlaySourceMatchesKotlin` proves that the two agree for the application's
  own content.

Behaviour a reader might not expect:

- A failing query or cancel during cleanup is caught, and the pass stops
  silently. It is not reported to the caller.
- Detection stops at the first match. It does not query every tracked path.
- Declining the prompt only cleans up and asks the user to restart. No fresh
  download follows.
- Only the Java fresh start cleans up first. Kotlin `startDownload` does not.

## Model

| member | source | states |
|---|---|---|
| `OfflineFileHelper.DownloadDirPath` | app/src/main/java/com/intertrust/expressplay/modules/offlinevideo/helpers/OfflineFileHelper.kt:20-22 | the download directory path contains `rg_offline`, so its own entries match the detection rule |
| `OfflineFileHelper.IsThereAnyResumableDownload` | app/src/main/java/com/intertrust/expressplay/modules/offlinevideo/helpers/OfflineFileHelper.kt:93-118 | the answer is `Resumable` of the manager's state; the manager is unchanged; the calls are one status query, then one content query per scanned entry, in order |
| `OfflineFileHelper.ScanEntries` | app/src/main/java/com/intertrust/expressplay/modules/offlinevideo/helpers/OfflineFileHelper.kt:100-112 | the `for` loop over the reported paths stops at the first entry that matches or whose query throws; its answer is `Resumable`, its calls are one content query per scanned entry, and the manager is unchanged |
| `OfflineFileHelper.ResumableExactly` | app/src/main/java/com/intertrust/expressplay/modules/offlinevideo/helpers/OfflineFileHelper.kt:94-117 | true iff the status query succeeds, the path array is not null, and a PAUSED/PENDING/contains-dir entry is reached before any content query throws; all errors give false |
| `OfflineFileHelper.ResumableWithoutFaults` | app/src/main/java/com/intertrust/expressplay/modules/offlinevideo/helpers/OfflineFileHelper.kt:100-111 | without errors: true iff PAUSED and some tracked entry is PENDING at a path containing the directory name (substring, not prefix) |
| `OfflineFileHelper.RunningNeverResumable` | app/src/main/java/com/intertrust/expressplay/modules/offlinevideo/helpers/OfflineFileHelper.kt:105-107 | a RUNNING manager never has a resumable download |
| `OfflineFileHelper.UnscannedPathsNeverQueried` | app/src/main/java/com/intertrust/expressplay/modules/offlinevideo/helpers/OfflineFileHelper.kt:100-111 | entries after the one where the scan stops are never queried |
| `OfflineFileHelper.Cleanup` | app/src/main/java/com/intertrust/expressplay/modules/offlinevideo/helpers/OfflineFileHelper.kt:56-88 | the two files under the directory are gone and nothing else is; the manager and the calls are those of `CleanupStep`; tracked paths stay distinct |
| `OfflineFileHelper.CancelEach` | app/src/main/java/com/intertrust/expressplay/modules/offlinevideo/helpers/OfflineFileHelper.kt:77-84 | the loop's effect on the manager and its calls are those of `CancelEachStep`: query, then cancel, per path, stopping at the first throw |
| `OfflineFileHelper.CancelOne` | app/src/main/java/com/intertrust/expressplay/modules/offlinevideo/helpers/OfflineFileHelper.kt:80-81 | one pass: the content query, then the cancel unless the query threw; it goes on exactly when neither call threw, and then exactly that path is no longer tracked |
| `OfflineFileHelper.CancelsArePrefix` | app/src/main/java/com/intertrust/expressplay/modules/offlinevideo/helpers/OfflineFileHelper.kt:77-86 | whatever throws, the cancelled paths are a prefix of the reported paths, in order |
| `OfflineFileHelper.CleanupCancelsPrefix` | app/src/main/java/com/intertrust/expressplay/modules/offlinevideo/helpers/OfflineFileHelper.kt:74-87 | cleanup cancels nothing when the path array is null, and otherwise a prefix of the reported paths |
| `OfflineFileHelper.CancelEachCutAtFirstThrow` | app/src/main/java/com/intertrust/expressplay/modules/offlinevideo/helpers/OfflineFileHelper.kt:79-85 | with distinct tracked paths and `es[k]` the first path whose query or cancel throws: every path before it is cancelled and no longer tracked, `es[k]` is cancelled only when its query succeeded, no later path is touched, and the manager tracks exactly `es[k..]` |
| `OfflineFileHelper.CleanupCutAtFirstThrow` | app/src/main/java/com/intertrust/expressplay/modules/offlinevideo/helpers/OfflineFileHelper.kt:74-87 | the same cut for the whole `cleanup`, after a successful status query |
| `OfflineFileHelper.CleanupCancelsEveryTrackedPath` | app/src/main/java/com/intertrust/expressplay/modules/offlinevideo/helpers/OfflineFileHelper.kt:74-84 | without errors: exactly one cancel per reported path, in the reported order, after which nothing is tracked |
| `OfflineFileHelper.CleanupIdempotent` | app/src/main/java/com/intertrust/expressplay/modules/offlinevideo/helpers/OfflineFileHelper.kt:62-84 | the files are gone after one cleanup; a second cleanup deletes nothing, changes nothing and only queries the status |
| `OfflineFileHelper.FileUriRoundTrip` | app/src/main/java/com/intertrust/expressplay/modules/offlinevideo/helpers/OfflineFileHelper.kt:126 | the directory can be recovered from a `file://` URI built for a given file name |
| `OfflineFileHelper.DownloadedFileUri` | app/src/main/java/com/intertrust/expressplay/modules/offlinevideo/helpers/OfflineFileHelper.kt:124-129 | `""` iff the content is not DASH; for DASH, the media file's URI under the entry's path |
| `OfflineFileHelper.DownloadedSubtitleUri` | app/src/main/java/com/intertrust/expressplay/modules/offlinevideo/helpers/OfflineFileHelper.kt:135-140 | `""` iff the content is not DASH; for DASH, the subtitle file's URI under the entry's path |
| `OfflineFileHelper.IsOfflineFileAvailable` | app/src/main/java/com/intertrust/expressplay/modules/offlinevideo/helpers/OfflineFileHelper.kt:143-146 | true iff the file exists |
| `ContentTypes.MimeCollisions` | app/src/main/java/com/intertrust/expressplay/modules/offlinevideo/helpers/ContentTypes.kt:7-12 | two types share a MIME string iff they are equal or both are PDCF/M4F (`video/mp4`) |
| `ContentTypes.Name` | app/src/main/java/com/intertrust/expressplay/modules/offlinevideo/helpers/ContentTypes.kt:6-12 | the constant named "HLS" is HLS and the one named "DASH" is DASH; no constant is named "SINGLE_FILE" |
| `ContentTypes.Mime` | app/src/main/java/com/intertrust/expressplay/modules/offlinevideo/helpers/ContentTypes.kt:6-12 | "application/dash+xml" belongs to DASH alone and "application/vnd.apple.mpegurl" to HLS alone |
| `PlaybackHandOff.MediaSourceTypeFor` | app/src/main/java/com/intertrust/expressplay/VideoFragment.kt:348-353 | HLS iff the type is HLS, DASH iff DASH, SINGLE_FILE for every other type (M4F included); `valueOf` only gets names it knows |
| `PlaybackHandOff.ValueOf` | app/src/main/java/com/intertrust/expressplay/VideoFragment.kt:353 | each of the three names gives the constant of that name |
| `PlaybackHandOff.MilestonePercentages` | app/src/main/java/com/intertrust/expressplay/DownloadBBExample.java:406-407 | within 0..100 the milestone toast fires at 0, 20, 40, 60 and 80 only |
| `PlaybackHandOff.Reactions` | app/src/main/java/com/intertrust/expressplay/VideoFragment.kt:293-321 | failing notice iff FAILING; completed notice iff COMPLETED; milestone iff enabled and the percentage is a multiple of 20 below 100; playback iff 100 %, path contains the directory and not playing; nothing else is posted |
| `PlaybackHandOff.ReactionsOrdered` | app/src/main/java/com/intertrust/expressplay/VideoFragment.kt:293-321 | one notification posts its runs in the order failing, milestone, completed, playback, each kind at most once |
| `PlaybackHandOff.ReactionsPlays` | app/src/main/java/com/intertrust/expressplay/VideoFragment.kt:311-321 | one notification posts at most one playback run, and none while `isPlaying` |
| `PlaybackHandOff.Notify` | app/src/main/java/com/intertrust/expressplay/VideoFragment.kt:289-322 | the progress bar takes the percentage only for paths containing the directory; others leave it unchanged; the reactions are appended in order; `isPlaying` is untouched |
| `PlaybackHandOff.RunNext` | app/src/main/java/com/intertrust/expressplay/VideoFragment.kt:387-433 | `isPlaying` becomes true only by a playback run whose setup succeeded; a failed setup changes nothing |
| `PlaybackHandOff.DrainEffect` | app/src/main/java/com/intertrust/expressplay/VideoFragment.kt:318-320 | running the posted work starts as many playbacks as there were playback runs with a good setup |
| `PlaybackHandOff.AtMostOnePlaybackStart` | app/src/main/java/com/intertrust/expressplay/VideoFragment.kt:311-321 | under sequential handling playback starts at most once, and never once something plays; `isPlaying` is never reset |
| `PlaybackHandOff.FullDownloadStartsPlayback` | app/src/main/java/com/intertrust/expressplay/VideoFragment.kt:311-321 | a 100 % notification for the directory, with a good setup, does start playback |
| `PlaybackHandOff.DeferredRunsMayStartTwice` | app/src/main/java/com/intertrust/expressplay/VideoFragment.kt:311-321 | two 100 % notifications that both arrive before the looper runs start playback twice: `isPlaying` is read on notification and set in the posted run |
| `VideoFragment.OnlineSource` | app/src/main/java/com/intertrust/expressplay/VideoFragment.kt:344-365 | SINGLE_FILE with `video/mp4`; the media and subtitle URIs point into the notified path |
| `VideoFragment.OfflineSource` | app/src/main/java/com/intertrust/expressplay/VideoFragment.kt:367-385 | plays exactly the file whose existence chose offline playback; SINGLE_FILE, `video/mp4`, no subtitles |
| `VideoFragment.StartDownloadStep` | app/src/main/java/com/intertrust/expressplay/VideoFragment.kt:336-342 | `resume` comes before `addContent`; `addContent` is called iff `resume` did not throw; its effect only when neither threw |
| `VideoFragment.DownloadStartsOnlyWithoutResumable` | app/src/main/java/com/intertrust/expressplay/VideoFragment.kt:109-118 | content is added iff the offline file is missing, nothing is resumable and neither `setListener` nor `resume` threw; the calls then end with listener, resume, add |
| `VideoFragment.ResumableOrOfflineLeavesManager` | app/src/main/java/com/intertrust/expressplay/VideoFragment.kt:111-118 | a resumable download or an offline file leaves the manager's state untouched and issues no `resume` |
| `VideoFragment.FreshStartTracksPendingContent` | app/src/main/java/com/intertrust/expressplay/VideoFragment.kt:328-338 | a fresh start without errors leaves the manager RUNNING with the content PENDING at the directory; while the manager stays RUNNING, detection does not report it |
| `VideoFragment.KilledDownloadIsResumable` | app/src/main/java/com/intertrust/expressplay/VideoFragment.kt:56-59 | if the app is killed during that download, so that the manager is PAUSED with the content PENDING, the next start's detection reports a resumable download |
| `VideoFragment.Fragment.constructor` | app/src/main/java/com/intertrust/expressplay/VideoFragment.kt:86-91 | nothing found, not playing, nothing posted |
| `VideoFragment.Fragment.OnCreateView` | app/src/main/java/com/intertrust/expressplay/VideoFragment.kt:100-121 | the flag is the detection's answer; the prompt is shown iff found; offline playback is posted iff the file exists; the manager and calls are those of `CreateViewStep` |
| `VideoFragment.Fragment.Prelude` | app/src/main/java/com/intertrust/expressplay/VideoFragment.kt:109-113 | the constraints call comes before the scan; the flag is the scan's answer; the prompt is shown iff the flag is set; the manager is unchanged |
| `VideoFragment.Fragment.PlayOffline` | app/src/main/java/com/intertrust/expressplay/VideoFragment.kt:269-273 | posts the offline playback run |
| `VideoFragment.Fragment.DoDownload` | app/src/main/java/com/intertrust/expressplay/VideoFragment.kt:275-334 | listener registered unless `setListener` throws; a download started only without a resumable one |
| `VideoFragment.Fragment.StartDownload` | app/src/main/java/com/intertrust/expressplay/VideoFragment.kt:336-342 | the manager and calls are those of `StartDownloadStep` |
| `VideoFragment.Fragment.Progress` | app/src/main/java/com/intertrust/expressplay/VideoFragment.kt:289-322 | the listener state becomes `Notify` of the old one, without milestones, with the online source |
| `VideoFragment.Fragment.RunPosted` | app/src/main/java/com/intertrust/expressplay/VideoFragment.kt:387-433 | the listener state becomes `RunNext` of the old one |
| `VideoFragment.Fragment.OnResumeConfirmed` | app/src/main/java/com/intertrust/expressplay/VideoFragment.kt:252-260 | one `resume` call; RUNNING unless it throws |
| `VideoFragment.Fragment.OnCleanupConfirmed` | app/src/main/java/com/intertrust/expressplay/VideoFragment.kt:261-265 | the cleanup of the download directory |
| `DownloadBBExample.DlDirPath1` | app/src/main/java/com/intertrust/expressplay/DownloadBBExample.java:264-265 | the path contains `dlDirectory1` |
| `DownloadBBExample.MediaSourceParamsContentType` | app/src/main/java/com/intertrust/expressplay/DownloadBBExample.java:63-76 | the Java enum gives every content type the Kotlin enum's MIME string |
| `DownloadBBExample.Detect` | app/src/main/java/com/intertrust/expressplay/DownloadBBExample.java:284-304 | a crash iff the status query succeeds with a null path array |
| `DownloadBBExample.DetectionMatchesKotlin` | app/src/main/java/com/intertrust/expressplay/DownloadBBExample.java:284-304 | the Java flag is the Kotlin answer whenever it does not crash; true iff a match is reached before any query throws |
| `DownloadBBExample.DetectResumable` | app/src/main/java/com/intertrust/expressplay/DownloadBBExample.java:284-304 | the loop with `break` yields `Detect` of the manager, leaves it unchanged and makes the Kotlin scan's calls |
| `DownloadBBExample.ScanWithBreak` | app/src/main/java/com/intertrust/expressplay/DownloadBBExample.java:289-301 | the `for` loop with `break` sets the flag exactly when the Kotlin scan answers true, and makes the same calls |
| `DownloadBBExample.Cleanup` | app/src/main/java/com/intertrust/expressplay/DownloadBBExample.java:550-580 | one pass per directory in order; files and manager as `CleanAllFiles` / `CleanupAllStep` |
| `DownloadBBExample.EveryPassRuns` | app/src/main/java/com/intertrust/expressplay/DownloadBBExample.java:553-579 | the second pass always runs and starts with its own status query, whatever failed in the first; all four files are gone |
| `DownloadBBExample.CleanupSameDirTwice` | app/src/main/java/com/intertrust/expressplay/DownloadBBExample.java:531 | cleaning `dlDirPath1` twice without errors cancels every tracked path once, in order; the second pass only queries the status |
| `DownloadBBExample.FreshStartOrder` | app/src/main/java/com/intertrust/expressplay/DownloadBBExample.java:529-538 | every cancel precedes `resume`; the sequence ends with `resume`, then `addContent(dlDirPath1, content)`, unless `resume` throws |
| `DownloadBBExample.FreshStartReplacesTracking` | app/src/main/java/com/intertrust/expressplay/DownloadBBExample.java:529-535 | without errors the manager ends RUNNING, tracking only the new PENDING entry, whatever it tracked before |
| `DownloadBBExample.DownloadStartsOnlyWithoutResumable` | app/src/main/java/com/intertrust/expressplay/DownloadBBExample.java:526-538 | content is added iff detection says false and neither `setListener` nor `resume` throws; a resumable download leaves the manager as it was |
| `DownloadBBExample.PlaySource` | app/src/main/java/com/intertrust/expressplay/DownloadBBExample.java:438-452 | media and subtitle URIs under the notified path; SINGLE_FILE with `video/mp4` |
| `DownloadBBExample.PlaySourceMatchesKotlin` | app/src/main/java/com/intertrust/expressplay/DownloadBBExample.java:438-452 | for the application's own content the Java source equals the Kotlin one |
| `DownloadBBExample.PlaybackFragment.constructor` | app/src/main/java/com/intertrust/expressplay/DownloadBBExample.java:147-149 | not playing, nothing posted |
| `DownloadBBExample.PlaybackFragment.OnCreateView` | app/src/main/java/com/intertrust/expressplay/DownloadBBExample.java:284-543 | crash iff null path array; prompt iff found; the two-directory cleanup runs iff nothing was found and the listener registered; manager and calls as `CreateViewStep` |
| `DownloadBBExample.PlaybackFragment.ListenerBlock` | app/src/main/java/com/intertrust/expressplay/DownloadBBExample.java:377-540 | the listener is registered unless `setListener` throws; the fresh start follows iff nothing was found and the listener registered; manager and calls as `ListenerBlockStep` |
| `DownloadBBExample.PlaybackFragment.FreshStart` | app/src/main/java/com/intertrust/expressplay/DownloadBBExample.java:529-536 | the two cleanup passes of `dlDirPath1`, then `resume` and `addContent`: files as `CleanAllFiles`, manager and calls as `FreshStartStep` |
| `DownloadBBExample.PlaybackFragment.Progress` | app/src/main/java/com/intertrust/expressplay/DownloadBBExample.java:386-523 | the listener state becomes `Notify` of the old one, with milestones and the Java source |
| `DownloadBBExample.PlaybackFragment.RunPosted` | app/src/main/java/com/intertrust/expressplay/DownloadBBExample.java:432-521 | the listener state becomes `RunNext` of the old one |
| `DownloadBBExample.PlaybackFragment.OnResumeConfirmed` | app/src/main/java/com/intertrust/expressplay/DownloadBBExample.java:348-359 | one `resume` call; RUNNING unless it throws |
| `DownloadBBExample.PlaybackFragment.OnCleanupConfirmed` | app/src/main/java/com/intertrust/expressplay/DownloadBBExample.java:360-367 | the two-pass cleanup of `dlDirPath1` |

## Left out

- The Wasabi runtime is left out: initialisation, personalisation, license acquisition and the Java early returns when these fail. These are opaque vendor calls.
- `PlaylistProxy` is left out (`start`, `makeUrl`). A playback run is modelled by the arguments it would pass to `makeUrl`.
- ExoPlayer is left out: source construction, the player listeners and the error-retry loop. Whether the setup throws is the `setupOk` parameter of `RunPosted`.
- A throw while building a Kotlin playback source is not modelled. In Kotlin this happens before or outside the guarded setup, so `setupOk` does not cover it: `progress` builds the online source, `makeUrl` included, before `handler.post` and outside any `try` (`VideoFragment.kt:315`, `:361`), and the offline source is built inside the posted run but outside `playVideo`'s `try` (`VideoFragment.kt:271`, `:381`).
- Two vendor assumptions sit under `MediaDownload.Valid()` and the fault record: the manager tracks at most one entry per path (`WellFormed`), and faults are fixed per manager and per path (`Faults`), so a call that threw throws again when it is retried.
- Dialogs, toasts and the progress dialog are left out, including its messages, `show` and `cancel`. The model records only which reaction fires and the progress value.
- `readTextFromAssets` and `getActionTokenFromAssets` are left out: they are asset-stream I/O.
- `FileHelper.kt`, `ViewExtensions.kt` and `VideoActivity.kt` are not part of this model. They hold UI and activity plumbing.
- Threading is left out. `Handler.post` is a FIFO of posted runs, and the looper runs them only when `RunPosted` is called. The at-most-once playback property is proved only for sequential handling.
- The real vendor semantics are left out: what `cancelContent`, `resume` and `addContent` do to the vendor's bookkeeping. These effects are assumptions, stated in `Vendor`. The `state(...)` listener callback only logs, so it is not modelled.
- `File.delete` is assumed to succeed. Its result is ignored by the source.
- Kotlin's `lateinit mediaDownload`, and the `!!` in `cleanup`, are assumed to be initialised. A failing `MediaDownload()` constructor is not modelled.
- Logging (`Log.*`, `printStackTrace`) is left out.
- `VideoFragment.Fragment.Progress` and `DownloadBBExample.PlaybackFragment.Progress` require the listener to be registered, because the manager only calls a registered listener.
- `PlaybackHandOff.AtMostOnePlaybackStart`: one setup outcome per notification. One notification posts at most one playback run, so this loses nothing.
