/**
 * The rules both fragments' download listeners follow: which reactions one
 * progress notification posts to the main looper, how the progress bar moves,
 * and how a posted playback run sets `isPlaying`. Also the choice of the
 * playlist proxy's media source type.
 *
 * Posted runs wait in `posted`, a FIFO, until the looper runs them (`RunNext`);
 * the runs that have completed are recorded in `shown`.
 */
module PlaybackHandOff {
  import opened Text
  import opened Vendor
  import CT = ContentTypes

  /** `PlaylistProxy.MediaSourceType`, as far as the application names it. */
  datatype MediaSourceType = HLS | DASH | SINGLE_FILE

  /** `MediaSourceType.valueOf`, for the names the application passes to it. */
  function ValueOf(name: string): (r: MediaSourceType)
    requires name == "HLS" || name == "DASH" || name == "SINGLE_FILE"
    ensures r == HLS <==> name == "HLS"
    ensures r == DASH <==> name == "DASH"
    ensures r == SINGLE_FILE <==> name == "SINGLE_FILE"
  {
    if name == "HLS" then HLS else if name == "DASH" then DASH else SINGLE_FILE
  }

  /**
   * The media source type for a content type: the type of the same name for HLS
   * and DASH, SINGLE_FILE for every other content type. `valueOf` is only ever
   * given a name it knows.
   */
  function MediaSourceTypeFor(ct: CT.ContentType): (r: MediaSourceType)
    ensures r == HLS <==> ct == CT.HLS
    ensures r == DASH <==> ct == CT.DASH
    ensures r == SINGLE_FILE <==> ct != CT.HLS && ct != CT.DASH
  {
    var value := CT.Name(ct);
    ValueOf(if value == "HLS" || value == "DASH" then value else "SINGLE_FILE")
  }

  /** What a playback run hands to `playerProxy.makeUrl`: the URI, the source type and the parameters. */
  datatype VideoSource = VideoSource(uri: string, sourceType: MediaSourceType, sourceContentType: string, subtitleUrl: Option<string>)

  /** A run posted to the main looper. */
  datatype Runnable =
    | ShowFailing(path: string)
    | ShowMilestone(path: string, percentage: int)
    | ShowCompleted(path: string)
    | PlayVideo(source: VideoSource)

  /** The place of a run's kind in the order `progress` posts them. */
  function Rank(x: Runnable): nat {
    match x
    case ShowFailing(_) => 0
    case ShowMilestone(_, _) => 1
    case ShowCompleted(_) => 2
    case PlayVideo(_) => 3
  }

  /** `percentageStartPlay`. */
  const PercentageStartPlay := 100

  /**
   * The milestone toast's condition. Java's `%` truncates and Dafny's is
   * Euclidean, but both leave remainder 0 for exactly the multiples of 20.
   */
  predicate Milestone(percentage: int) {
    percentage % 20 == 0 && percentage < 100
  }

  /** Within 0..100 the milestone toast fires at 0, 20, 40, 60 and 80 only. */
  lemma MilestonePercentages(percentage: int)
    requires 0 <= percentage <= 100
    ensures Milestone(percentage) <==> percentage in {0, 20, 40, 60, 80}
  {
  }

  /** The playback trigger: a full download in the primary directory while nothing plays. */
  predicate StartsPlayback(cs: ContentStatus, isPlaying: bool, dir: string) {
    cs.downloadedPercentage == PercentageStartPlay && Contains(cs.path, dir) && !isPlaying
  }

  /**
   * The runs one `progress(contentStatus)` notification posts, in the order the
   * listener posts them. `milestones` says whether the listener has the
   * milestone toast; `source` is what its playback run would play.
   */
  function Reactions(cs: ContentStatus, isPlaying: bool, dir: string, milestones: bool, source: VideoSource): (r: seq<Runnable>)
    ensures ShowFailing(cs.path) in r <==> cs.contentState == Failing
    ensures ShowCompleted(cs.path) in r <==> cs.contentState == Completed
    ensures ShowMilestone(cs.path, cs.downloadedPercentage) in r <==> milestones && Milestone(cs.downloadedPercentage)
    ensures PlayVideo(source) in r <==> StartsPlayback(cs, isPlaying, dir)
    ensures forall x :: x in r ==> x in {ShowFailing(cs.path), ShowMilestone(cs.path, cs.downloadedPercentage), ShowCompleted(cs.path), PlayVideo(source)}
    ensures |r| <= 4
  {
    (if cs.contentState == Failing then [ShowFailing(cs.path)] else [])
    + (if milestones && cs.downloadedPercentage % 20 == 0 && cs.downloadedPercentage < 100
       then [ShowMilestone(cs.path, cs.downloadedPercentage)] else [])
    + (if cs.contentState == Completed then [ShowCompleted(cs.path)] else [])
    + (if cs.downloadedPercentage == PercentageStartPlay && Contains(cs.path, dir) && !isPlaying
       then [PlayVideo(source)] else [])
  }

  /**
   * One notification posts its runs in the order failing, milestone, completed,
   * playback, and each kind at most once.
   */
  lemma ReactionsOrdered(cs: ContentStatus, isPlaying: bool, dir: string, milestones: bool, source: VideoSource)
    ensures var r := Reactions(cs, isPlaying, dir, milestones, source);
      forall i, j :: 0 <= i < j < |r| ==> Rank(r[i]) < Rank(r[j])
  {
    var a := if cs.contentState == Failing then [ShowFailing(cs.path)] else [];
    var b := if milestones && cs.downloadedPercentage % 20 == 0 && cs.downloadedPercentage < 100
      then [ShowMilestone(cs.path, cs.downloadedPercentage)] else [];
    var c := if cs.contentState == Completed then [ShowCompleted(cs.path)] else [];
    var d := if StartsPlayback(cs, isPlaying, dir) then [PlayVideo(source)] else [];
    RanksIncrease(a, b, c, d);
    assert Reactions(cs, isPlaying, dir, milestones, source) == a + b + c + d;
  }

  lemma RanksIncrease(a: seq<Runnable>, b: seq<Runnable>, c: seq<Runnable>, d: seq<Runnable>)
    requires |a| <= 1 && |b| <= 1 && |c| <= 1 && |d| <= 1
    requires forall i :: 0 <= i < |a| ==> Rank(a[i]) == 0
    requires forall i :: 0 <= i < |b| ==> Rank(b[i]) == 1
    requires forall i :: 0 <= i < |c| ==> Rank(c[i]) == 2
    requires forall i :: 0 <= i < |d| ==> Rank(d[i]) == 3
    ensures var r := a + b + c + d; forall i, j :: 0 <= i < j < |r| ==> Rank(r[i]) < Rank(r[j])
  {
    var r := a + b + c + d;
    forall k | 0 <= k < |r| ensures Rank(r[k]) == PartRank(|a|, |b|, |c|, k) {
      if k < |a| { assert r[k] == a[k]; }
      else if k < |a| + |b| { assert r[k] == b[k - |a|]; }
      else if k < |a| + |b| + |c| { assert r[k] == c[k - |a| - |b|]; }
      else { assert r[k] == d[k - |a| - |b| - |c|]; }
    }
  }

  /** The rank of position `k` in four concatenated parts of lengths `la`, `lb`, `lc` and at most 1. */
  function PartRank(la: nat, lb: nat, lc: nat, k: int): nat {
    if k < la then 0 else if k < la + lb then 1 else if k < la + lb + lc then 2 else 3
  }

  /** How many playback runs a sequence of runs holds. */
  function Plays(rs: seq<Runnable>): nat {
    if rs == [] then 0 else (if rs[0].PlayVideo? then 1 else 0) + Plays(rs[1..])
  }

  lemma {:induction false} PlaysAppend(a: seq<Runnable>, b: seq<Runnable>)
    ensures Plays(a + b) == Plays(a) + Plays(b)
  {
    if a == [] {
      assert a + b == b;
    } else {
      assert (a + b)[0] == a[0];
      assert (a + b)[1..] == a[1..] + b;
      PlaysAppend(a[1..], b);
    }
  }

  lemma PlaysOfOne(x: Runnable)
    ensures Plays([x]) == if x.PlayVideo? then 1 else 0
  {
    assert [x][1..] == [];
  }

  /** One notification posts at most one playback run, and none while something plays. */
  lemma ReactionsPlays(cs: ContentStatus, isPlaying: bool, dir: string, milestones: bool, source: VideoSource)
    ensures Plays(Reactions(cs, isPlaying, dir, milestones, source)) == if StartsPlayback(cs, isPlaying, dir) then 1 else 0
  {
    var a: seq<Runnable> := if cs.contentState == Failing then [ShowFailing(cs.path)] else [];
    var b: seq<Runnable> := if milestones && Milestone(cs.downloadedPercentage) then [ShowMilestone(cs.path, cs.downloadedPercentage)] else [];
    var c: seq<Runnable> := if cs.contentState == Completed then [ShowCompleted(cs.path)] else [];
    var d: seq<Runnable> := if StartsPlayback(cs, isPlaying, dir) then [PlayVideo(source)] else [];
    assert Reactions(cs, isPlaying, dir, milestones, source) == a + b + c + d;
    PlaysAppend(a, b);
    PlaysAppend(a + b, c);
    PlaysAppend(a + b + c, d);
    PlaysOfOne(ShowFailing(cs.path));
    PlaysOfOne(ShowMilestone(cs.path, cs.downloadedPercentage));
    PlaysOfOne(ShowCompleted(cs.path));
    PlaysOfOne(PlayVideo(source));
  }

  // ---------------------------------------------------------------------------
  // The listener's state

  /**
   * What the listener side of a fragment keeps: `isPlaying`, the progress bar's
   * value, the runs posted and not yet run, and the runs that took effect
   * (a toast shown, a playback started).
   */
  datatype Listener = Listener(isPlaying: bool, progress: int, posted: seq<Runnable>, shown: seq<Runnable>)

  /** `progress(contentStatus)`: move the progress bar, post the reactions. */
  function Notify(l: Listener, cs: ContentStatus, dir: string, milestones: bool, source: VideoSource): (r: Listener)
    ensures r.isPlaying == l.isPlaying && r.shown == l.shown
    ensures Contains(cs.path, dir) ==> r.progress == cs.downloadedPercentage
    ensures !Contains(cs.path, dir) ==> r.progress == l.progress
    ensures r.posted == l.posted + Reactions(cs, l.isPlaying, dir, milestones, source)
  {
    l.(progress := if Contains(cs.path, dir) then cs.downloadedPercentage else l.progress,
       posted := l.posted + Reactions(cs, l.isPlaying, dir, milestones, source))
  }

  /**
   * The main looper runs the oldest posted run. A playback run whose setup
   * throws (`setupOk` false) changes nothing; one whose setup succeeds sets
   * `isPlaying`.
   */
  function RunNext(l: Listener, setupOk: bool): (r: Listener)
    requires l.posted != []
    ensures r.posted == l.posted[1..] && r.progress == l.progress
    ensures r.isPlaying <==> l.isPlaying || (l.posted[0].PlayVideo? && setupOk)
    ensures r.shown == l.shown + (if l.posted[0].PlayVideo? && !setupOk then [] else [l.posted[0]])
  {
    var run := l.posted[0];
    var rest := l.(posted := l.posted[1..]);
    if run.PlayVideo? then
      if setupOk then rest.(isPlaying := true, shown := l.shown + [run]) else rest
    else rest.(shown := l.shown + [run])
  }

  /** The looper runs every posted run, in order. */
  function Drain(l: Listener, setupOk: bool): (r: Listener)
    ensures r.posted == [] && r.progress == l.progress
    decreases |l.posted|
  {
    if l.posted == [] then l else Drain(RunNext(l, setupOk), setupOk)
  }

  /** What the looper's runs add up to: each playback run with a good setup starts playback. */
  lemma {:induction false} DrainEffect(l: Listener, setupOk: bool)
    ensures Plays(Drain(l, setupOk).shown) == Plays(l.shown) + (if setupOk then Plays(l.posted) else 0)
    ensures Drain(l, setupOk).isPlaying <==> l.isPlaying || (setupOk && Plays(l.posted) > 0)
    decreases |l.posted|
  {
    if l.posted != [] {
      var n := RunNext(l, setupOk);
      DrainEffect(n, setupOk);
      assert l.posted == [l.posted[0]] + l.posted[1..];
      PlaysAppend([l.posted[0]], l.posted[1..]);
      PlaysOfOne(l.posted[0]);
      PlaysAppend(l.shown, [l.posted[0]]);
    }
  }

  /** One notification and the setup outcome of the playback it may trigger. */
  datatype Notice = Notice(status: ContentStatus, source: VideoSource, setupOk: bool)

  /** Sequential handling: the looper runs everything a notification posts before the next one. */
  function Sequential(l: Listener, ns: seq<Notice>, dir: string, milestones: bool): Listener
    decreases |ns|
  {
    if ns == [] then l
    else Sequential(Drain(Notify(l, ns[0].status, dir, milestones, ns[0].source), ns[0].setupOk), ns[1..], dir, milestones)
  }

  /**
   * Under sequential handling, however many 100 % notifications arrive,
   * playback starts at most once, and not at all once something plays;
   * `isPlaying` is never reset.
   */
  lemma {:induction false} AtMostOnePlaybackStart(l: Listener, ns: seq<Notice>, dir: string, milestones: bool)
    requires l.posted == []
    ensures Plays(Sequential(l, ns, dir, milestones).shown) <= Plays(l.shown) + (if l.isPlaying then 0 else 1)
    ensures l.isPlaying ==> Sequential(l, ns, dir, milestones).isPlaying
    decreases |ns|
  {
    if ns != [] {
      var n := ns[0];
      var t := Notify(l, n.status, dir, milestones, n.source);
      ReactionsPlays(n.status, l.isPlaying, dir, milestones, n.source);
      assert t.posted == Reactions(n.status, l.isPlaying, dir, milestones, n.source);
      DrainEffect(t, n.setupOk);
      AtMostOnePlaybackStart(Drain(t, n.setupOk), ns[1..], dir, milestones);
    }
  }

  /** A 100 % notification for the primary directory, with a good setup, does start playback. */
  lemma FullDownloadStartsPlayback(l: Listener, cs: ContentStatus, dir: string, milestones: bool, source: VideoSource)
    requires l.posted == [] && !l.isPlaying
    requires cs.downloadedPercentage == 100 && Contains(cs.path, dir)
    ensures Drain(Notify(l, cs, dir, milestones, source), true).isPlaying
    ensures Plays(Drain(Notify(l, cs, dir, milestones, source), true).shown) == Plays(l.shown) + 1
  {
    ReactionsPlays(cs, l.isPlaying, dir, milestones, source);
    var t := Notify(l, cs, dir, milestones, source);
    assert t.posted == Reactions(cs, l.isPlaying, dir, milestones, source);
    DrainEffect(t, true);
  }

  /**
   * Without sequential handling the guarantee is gone: `isPlaying` is read when
   * a notification arrives but set by the posted run, so two 100 % notifications
   * that arrive before the looper runs anything start playback twice.
   */
  lemma DeferredRunsMayStartTwice(source: VideoSource)
    ensures
      var l := Listener(false, 0, [], []);
      var cs := ContentStatus("downloads/rg_offline", Downloading, 100, OtherContent);
      var twice := Notify(Notify(l, cs, "rg_offline", false, source), cs, "rg_offline", false, source);
      Plays(Drain(twice, true).shown) == 2
  {
    var l := Listener(false, 0, [], []);
    var cs := ContentStatus("downloads/rg_offline", Downloading, 100, OtherContent);
    ContainsInside("downloads/", "rg_offline", "");
    assert cs.path == "downloads/" + "rg_offline" + "";
    ReactionsPlays(cs, false, "rg_offline", false, source);
    var once := Notify(l, cs, "rg_offline", false, source);
    var twice := Notify(once, cs, "rg_offline", false, source);
    PlaysAppend(once.posted, Reactions(cs, false, "rg_offline", false, source));
    DrainEffect(twice, true);
  }
}
