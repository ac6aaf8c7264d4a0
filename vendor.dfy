/**
 * An abstract model of the vendor download manager (`MediaDownload`), whose
 * implementation is not part of this model. It keeps an aggregate state, the
 * tracked content entries and a trace of every call the application makes on it.
 * Which calls throw an `ErrorCodeException` is fixed by a `Faults` record, so the
 * application's error paths can be reached. What `cancelContent`, `resume` and
 * `addContent` do to the vendor's bookkeeping is an assumption of this model:
 * see `AfterCancel`, `AfterResume` and `AfterAdd`.
 */
module Vendor {

  datatype Option<T> = None | Some(value: T)

  /** A vendor call either returns a value or throws an `ErrorCodeException`. */
  datatype Result<T> = Ok(value: T) | Err

  /** `MediaDownload.State`: the aggregate state of the manager. */
  datatype State = Paused | Running

  /** `MediaDownload.ContentState`: the state of one tracked content item. */
  datatype ContentState = Pending | Downloading | PausedContent | Completed | Failing

  /** `MediaDownload.DashContent`: what to download and under which file names. */
  datatype DashContent = DashContent(url: string, mediaFileName: string, subtitlesFileName: string, tracks: seq<string>)

  /** The `content` field of a content status: DASH content or some other kind. */
  datatype Content = Dash(dash: DashContent) | OtherContent

  /** `MediaDownload.ContentStatus`. */
  datatype ContentStatus = ContentStatus(path: string, contentState: ContentState, downloadedPercentage: int, content: Content)

  /** `MediaDownload.Status`: the aggregate state and the tracked paths (`None` for a null array). */
  datatype Status = Status(state: State, path: Option<seq<string>>)

  /** Which vendor calls throw: for the two per-path calls, the paths on which they do. */
  datatype Faults = Faults(
    queryStatus: bool,
    queryContentStatus: set<string>,
    cancelContent: set<string>,
    resume: bool,
    addContent: bool,
    setListener: bool,
    setConstraints: bool)


  /** Everything the application can observe of the manager. */
  datatype Manager = Manager(state: State, tracked: Option<seq<ContentStatus>>, faults: Faults)

  /** One call made on the manager, successful or not. */
  datatype Call =
    | StatusQueried
    | ContentStatusQueried(path: string)
    | ContentCancelled(path: string)
    | Resumed
    | ContentAdded(dir: string, content: DashContent)
    | ListenerSet
    | ConstraintsSet(maxBandwidthBps: int, maxConnections: int)

  /** The effect of a sequence of calls: the manager afterwards and the calls made. */
  datatype Step = Step(m: Manager, calls: seq<Call>)

  /** Regrouping a trace of calls; a hint the loops over call traces use. */
  lemma AppendAssoc(a: seq<Call>, b: seq<Call>, c: seq<Call>)
    ensures (a + b) + c == a + (b + c)
  {
  }

  predicate DistinctPaths(es: seq<ContentStatus>) {
    forall i, j :: 0 <= i < j < |es| ==> es[i].path != es[j].path
  }

  /** The manager keeps at most one content status per path. */
  predicate WellFormed(m: Manager) {
    m.tracked.Some? ==> DistinctPaths(m.tracked.value)
  }

  function Paths(es: seq<ContentStatus>): seq<string> {
    seq(|es|, i requires 0 <= i < |es| => es[i].path)
  }

  function Lookup(es: seq<ContentStatus>, p: string): (r: Option<ContentStatus>)
    ensures r.Some? ==> r.value in es && r.value.path == p
    ensures r.None? <==> p !in Paths(es)
  {
    if es == [] then None
    else if es[0].path == p then assert Paths(es)[0] == p; Some(es[0])
    else
      assert Paths(es) == [es[0].path] + Paths(es[1..]);
      Lookup(es[1..], p)
  }

  /** `queryStatus()`. */
  function StatusOf(m: Manager): Result<Status> {
    if m.faults.queryStatus then Err
    else Ok(Status(m.state, if m.tracked.None? then None else Some(Paths(m.tracked.value))))
  }

  /** `queryContentStatus(p)`; asking about a path that is not tracked throws. */
  function ContentStatusOf(m: Manager, p: string): Result<ContentStatus> {
    if p in m.faults.queryContentStatus || m.tracked.None? then Err
    else match Lookup(m.tracked.value, p)
      case None => Err
      case Some(cs) => Ok(cs)
  }

  /** The tracked entries without the one at path `p`. */
  function RemovePath(es: seq<ContentStatus>, p: string): seq<ContentStatus> {
    if es == [] then []
    else (if es[0].path == p then [] else [es[0]]) + RemovePath(es[1..], p)
  }

  lemma RemovePathMembers(es: seq<ContentStatus>, p: string)
    ensures forall c :: c in RemovePath(es, p) ==> c in es && c.path != p
  {
    if es != [] {
      RemovePathMembers(es[1..], p);
    }
  }

  /** Model assumption: a successful `cancelContent(p)` stops tracking `p`. */
  function AfterCancel(m: Manager, p: string): Manager {
    if m.tracked.None? then m else m.(tracked := Some(RemovePath(m.tracked.value, p)))
  }

  /** Model assumption: a successful `resume()` makes the manager RUNNING. */
  function AfterResume(m: Manager): Manager {
    m.(state := Running)
  }

  /** Model assumption: a successful `addContent(dir, c)` tracks a fresh PENDING entry at `dir`. */
  function AfterAdd(m: Manager, dir: string, c: DashContent): Manager {
    var es := if m.tracked.None? then [] else m.tracked.value;
    m.(tracked := Some(RemovePath(es, dir) + [ContentStatus(dir, Pending, 0, Dash(c))]))
  }

  /** The paths that the calls cancel, in the order they were cancelled. */
  function Cancels(calls: seq<Call>): seq<string> {
    if calls == [] then []
    else (if calls[0].ContentCancelled? then [calls[0].path] else []) + Cancels(calls[1..])
  }

  lemma CancelsAppend(a: seq<Call>, b: seq<Call>)
    ensures Cancels(a + b) == Cancels(a) + Cancels(b)
  {
    if a == [] {
      assert a + b == b;
    } else {
      assert (a + b)[0] == a[0];
      assert (a + b)[1..] == a[1..] + b;
      CancelsAppend(a[1..], b);
    }
  }

  lemma LookupAt(es: seq<ContentStatus>, i: int)
    requires DistinctPaths(es) && 0 <= i < |es|
    ensures Lookup(es, es[i].path) == Some(es[i])
  {
    if i > 0 {
      assert es[0].path != es[i].path;
      assert es[1..][i - 1] == es[i];
      LookupAt(es[1..], i - 1);
    }
  }

  lemma RemoveAbsent(es: seq<ContentStatus>, p: string)
    requires forall c :: c in es ==> c.path != p
    ensures RemovePath(es, p) == es
  {
    if es != [] {
      RemoveAbsent(es[1..], p);
    }
  }

  /** Cancelling the first tracked path leaves exactly the others. */
  lemma RemoveHead(es: seq<ContentStatus>)
    requires DistinctPaths(es) && es != []
    ensures RemovePath(es, es[0].path) == es[1..]
  {
    forall c | c in es[1..] ensures c.path != es[0].path {
      var k :| 0 <= k < |es[1..]| && es[1..][k] == c;
      assert es[k + 1] == c;
    }
    RemoveAbsent(es[1..], es[0].path);
  }

  lemma RemoveKeepsDistinct(es: seq<ContentStatus>, p: string)
    requires DistinctPaths(es)
    ensures DistinctPaths(RemovePath(es, p))
  {
    if es != [] {
      RemoveKeepsDistinct(es[1..], p);
      RemovePathMembers(es[1..], p);
      var rest := RemovePath(es[1..], p);
      forall c | c in rest ensures c.path != es[0].path {
        var k :| 0 <= k < |es[1..]| && es[1..][k] == c;
        assert es[k + 1] == c;
      }
    }
  }

  lemma CancelKeepsWellFormed(m: Manager, p: string)
    requires WellFormed(m)
    ensures WellFormed(AfterCancel(m, p))
  {
    if m.tracked.Some? {
      RemoveKeepsDistinct(m.tracked.value, p);
    }
  }

  lemma AddKeepsWellFormed(m: Manager, dir: string, c: DashContent)
    requires WellFormed(m)
    ensures WellFormed(AfterAdd(m, dir, c))
  {
    var es := if m.tracked.None? then [] else m.tracked.value;
    RemoveKeepsDistinct(es, dir);
    RemovePathMembers(es, dir);
    var r := RemovePath(es, dir);
    var t := r + [ContentStatus(dir, Pending, 0, Dash(c))];
    forall i, j | 0 <= i < j < |t| ensures t[i].path != t[j].path {
      if j == |r| {
        assert t[i] in r;
      }
    }
  }

  lemma {:induction false} LookupAppendAbsent(r: seq<ContentStatus>, e: ContentStatus)
    requires forall x :: x in r ==> x.path != e.path
    ensures Lookup(r + [e], e.path) == Some(e)
  {
    if r == [] {
      assert r + [e] == [e];
    } else {
      assert (r + [e])[0] == r[0];
      assert (r + [e])[1..] == r[1..] + [e];
      LookupAppendAbsent(r[1..], e);
    }
  }

  /** After `addContent(dir, c)` the entry at `dir` is the fresh PENDING one, whatever was there before. */
  lemma LookupAfterAdd(m: Manager, dir: string, c: DashContent)
    ensures Lookup(AfterAdd(m, dir, c).tracked.value, dir) == Some(ContentStatus(dir, Pending, 0, Dash(c)))
  {
    var es := if m.tracked.None? then [] else m.tracked.value;
    RemovePathMembers(es, dir);
    LookupAppendAbsent(RemovePath(es, dir), ContentStatus(dir, Pending, 0, Dash(c)));
  }

  /**
   * The application's handle on the vendor manager. The methods are the vendor
   * operations the application calls; each appends itself to `calls`.
   */
  class MediaDownload {
    var state: State
    var tracked: Option<seq<ContentStatus>>
    const faults: Faults
    var calls: seq<Call>

    function Snapshot(): Manager
      reads this
    {
      Manager(state, tracked, faults)
    }

    ghost predicate Valid()
      reads this
    {
      WellFormed(Snapshot())
    }

    constructor (m: Manager)
      requires WellFormed(m)
      ensures Snapshot() == m && calls == [] && Valid()
    {
      state, tracked, faults, calls := m.state, m.tracked, m.faults, [];
    }

    method QueryStatus() returns (r: Result<Status>)
      modifies this`calls
      ensures calls == old(calls) + [StatusQueried]
      ensures r == StatusOf(Snapshot())
    {
      calls := calls + [StatusQueried];
      r := StatusOf(Snapshot());
    }

    method QueryContentStatus(p: string) returns (r: Result<ContentStatus>)
      modifies this`calls
      ensures calls == old(calls) + [ContentStatusQueried(p)]
      ensures r == ContentStatusOf(Snapshot(), p)
    {
      calls := calls + [ContentStatusQueried(p)];
      r := ContentStatusOf(Snapshot(), p);
    }

    method CancelContent(p: string) returns (ok: bool)
      modifies this`calls, this`tracked
      ensures old(Valid()) ==> Valid()
      ensures calls == old(calls) + [ContentCancelled(p)]
      ensures ok == (p !in faults.cancelContent)
      ensures Snapshot() == if ok then AfterCancel(old(Snapshot()), p) else old(Snapshot())
    {
      calls := calls + [ContentCancelled(p)];
      ok := p !in faults.cancelContent;
      if ok {
        if Valid() {
          CancelKeepsWellFormed(Snapshot(), p);
        }
        tracked := AfterCancel(Snapshot(), p).tracked;
      }
    }

    method Resume() returns (ok: bool)
      modifies this`calls, this`state
      ensures calls == old(calls) + [Resumed]
      ensures ok == !faults.resume
      ensures Snapshot() == if ok then AfterResume(old(Snapshot())) else old(Snapshot())
    {
      calls := calls + [Resumed];
      ok := !faults.resume;
      if ok {
        state := Running;
      }
    }

    method AddContent(dir: string, c: DashContent) returns (ok: bool)
      requires Valid()
      modifies this`calls, this`tracked
      ensures Valid()
      ensures calls == old(calls) + [ContentAdded(dir, c)]
      ensures ok == !faults.addContent
      ensures Snapshot() == if ok then AfterAdd(old(Snapshot()), dir, c) else old(Snapshot())
    {
      calls := calls + [ContentAdded(dir, c)];
      ok := !faults.addContent;
      if ok {
        AddKeepsWellFormed(Snapshot(), dir, c);
        tracked := AfterAdd(Snapshot(), dir, c).tracked;
      }
    }

    /** `setListener`: the listener itself is modelled by the fragments' `Progress` methods. */
    method SetListener() returns (ok: bool)
      modifies this`calls
      ensures calls == old(calls) + [ListenerSet]
      ensures ok == !faults.setListener
    {
      calls := calls + [ListenerSet];
      ok := !faults.setListener;
    }

    method SetConstraints(maxBandwidthBps: int, maxConnections: int) returns (ok: bool)
      modifies this`calls
      ensures calls == old(calls) + [ConstraintsSet(maxBandwidthBps, maxConnections)]
      ensures ok == !faults.setConstraints
    {
      calls := calls + [ConstraintsSet(maxBandwidthBps, maxConnections)];
      ok := !faults.setConstraints;
    }
  }
}
