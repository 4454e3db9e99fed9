/**
 * Properties of the window pager `get_objects`, stated on the run function
 * `Pager.Run` that the method is proved to compute: what one page does to
 * the records, the bookmarks and the checkpoints; how the requests follow
 * one another; the high-water mark; the final bookmark; and where a run
 * that did not finish leaves the state for the next run.
 */
module PagerFacts {
  import opened Common
  import opened Bookmarks
  import opened Settings
  import opened Pager

  function Last<T>(s: seq<T>): T
    requires |s| > 0
  {
    s[|s| - 1]
  }

  // ---------------------------------------------------------------------------
  // One page.

  /**
   * A record below the cursor stops the run at that record: the records
   * before it have been yielded, those after it have not, and the page
   * writes no checkpoint.
   */
  lemma BelowCursorStopsPage(s: Stream, max: Timestamp, since: int, p: Progress, objs: seq<Record>, k: nat)
    requires k < |objs| && objs[k].id < since
    requires forall j :: 0 <= j < k ==> objs[j].id >= since
    ensures var r := ConsumePage(s, max, since, p, objs);
      && r.end == Stop(OutOfOrderIds(BelowSinceId(objs[k].id, since)))
      && r.next.emitted == p.emitted + objs[..k]
      && r.next.state == p.state && r.next.persisted == p.persisted
  {
  }

  /**
   * A short page whose records all respect the cursor closes the window:
   * all its records are yielded, the cursor and the interrupted-window bound
   * leave the stream's bookmarks, the window's upper bound becomes the
   * replication-key bookmark, and exactly that state is persisted once.
   */
  lemma ShortPageClosesWindow(s: Stream, max: Timestamp, since: int, p: Progress, objs: seq<Record>, startDate: Timestamp)
    requires ValidStream(s)
    requires forall j :: 0 <= j < |objs| ==> objs[j].id >= since
    requires |objs| < s.resultsPerPage
    ensures var r := ConsumePage(s, max, since, p, objs);
      && r.end == WindowClosed
      && r.next.emitted == p.emitted + objs
      && GetSinceId(r.next.state, s).None? && GetUpdatedAtMax(r.next.state, s).None?
      && GetBookmark(r.next.state, s, startDate) == max
      && r.next.persisted == p.persisted + [r.next.state]
  {
    assert objs[..|objs|] == objs;
  }

  /**
   * A full page whose records all respect the cursor moves the cursor to its
   * last id exactly when that id is the largest of the page; the cursor and
   * the window's upper bound are then persisted, one write each, and the
   * replication-key bookmark stays. Otherwise the run stops without a
   * checkpoint, after all the page's records have been yielded.
   */
  lemma FullPageMovesCursor(s: Stream, max: Timestamp, since: int, p: Progress, objs: seq<Record>, startDate: Timestamp)
    requires ValidStream(s)
    requires forall j :: 0 <= j < |objs| ==> objs[j].id >= since
    requires |objs| >= s.resultsPerPage && |objs| > 0
    ensures var r := ConsumePage(s, max, since, p, objs);
      var last := objs[|objs| - 1].id;
      && r.next.emitted == p.emitted + objs
      && (r.end == NextPage(last) <==> forall j :: 0 <= j < |objs| ==> objs[j].id <= last)
      && (r.end.NextPage? ==>
            && r.end == NextPage(last)
            && GetSinceId(r.next.state, s) == Some(last)
            && GetUpdatedAtMax(r.next.state, s) == Some(max)
            && GetBookmark(r.next.state, s, startDate) == GetBookmark(p.state, s, startDate)
            && |r.next.persisted| == |p.persisted| + 2
            && r.next.persisted[..|p.persisted|] == p.persisted
            && GetSinceId(r.next.persisted[|p.persisted|], s) == Some(last)
            && r.next.persisted[|p.persisted| + 1] == r.next.state)
      && (!r.end.NextPage? ==>
            && r.end == Stop(OutOfOrderIds(NotPageMax(last, MaxId(objs))))
            && r.next.state == p.state && r.next.persisted == p.persisted)
  {
    assert objs[..|objs|] == objs;
    var last := objs[|objs| - 1].id;
    if forall j :: 0 <= j < |objs| ==> objs[j].id <= last {
      var m := MaxId(objs);
      var i :| 0 <= i < |objs| && objs[i].id == m;
      assert m == last;
    }
  }

  /** A step that stops the run leaves the state as it was and persists nothing. */
  lemma StopKeepsState(env: Env, min: Timestamp, max: Timestamp, since: int, p: Progress)
    requires |p.requests| <= |env.responses|
    requires PageStep(env, min, max, since, p).end.Stop?
    ensures PageStep(env, min, max, since, p).next.state == p.state
    ensures PageStep(env, min, max, since, p).next.persisted == p.persisted
  {
  }

  // ---------------------------------------------------------------------------
  // The high-water mark.

  /** The high-water mark of a concatenation is that of the second part over the mark of the first. */
  lemma {:induction false} HighWaterAppend(a: seq<Record>, b: seq<Record>, base: Timestamp)
    ensures HighWater(a + b, base) == HighWater(b, HighWater(a, base))
    decreases |b|
  {
    if b == [] {
      assert a + b == a;
    } else {
      var front := b[..|b| - 1];
      assert (a + b)[..|a + b| - 1] == a + front;
      HighWaterAppend(a, front, base);
    }
  }

  /** One step raises the mark over exactly the records it yields. */
  lemma StepHighWater(env: Env, min: Timestamp, max: Timestamp, since: int, p: Progress)
    requires |p.requests| <= |env.responses|
    ensures var n := PageStep(env, min, max, since, p).next;
      p.emitted <= n.emitted && n.maxBookmark == HighWater(n.emitted[|p.emitted|..], p.maxBookmark)
  {
    var n := PageStep(env, min, max, since, p).next;
    if |p.requests| < |env.responses| && env.responses[|p.requests|].Page? {
      var objs := env.responses[|p.requests|].records;
      var k := FirstBelow(objs, since);
      assert (p.emitted + objs[..k])[|p.emitted|..] == objs[..k];
    } else {
      assert n.emitted[|p.emitted|..] == [];
    }
  }

  lemma {:induction false} WindowsHighWater(env: Env, min: Timestamp, interrupted: Option<Timestamp>, p: Progress, t: Trace)
    requires |p.requests| <= |env.responses|
    requires t == Windows(env, min, interrupted, p)
    ensures p.emitted <= t.emitted && t.maxBookmark == HighWater(t.emitted[|p.emitted|..], p.maxBookmark)
    decreases |env.responses| - |p.requests|, 1
  {
    if min < env.stopTime {
      var since := SinceIdOr1(GetSinceId(p.state, env.stream));
      var max := Min(interrupted.GetOr(min + WindowSize(env.config)), env.stopTime);
      PagesHighWater(env, min, max, since, p, t);
    } else {
      assert t.emitted[|p.emitted|..] == [];
    }
  }

  lemma {:induction false} PagesHighWater(env: Env, min: Timestamp, max: Timestamp, since: int, p: Progress, t: Trace)
    requires |p.requests| <= |env.responses|
    requires t == Pages(env, min, max, since, p)
    ensures p.emitted <= t.emitted && t.maxBookmark == HighWater(t.emitted[|p.emitted|..], p.maxBookmark)
    decreases |env.responses| - |p.requests|, 0
  {
    var s := PageStep(env, min, max, since, p);
    var n := s.next;
    StepHighWater(env, min, max, since, p);
    match s.end
    case Stop(_) =>
    case WindowClosed =>
      WindowsHighWater(env, max, None, n, t);
      Combine(p.emitted, n.emitted, t.emitted, p.maxBookmark);
    case NextPage(last) =>
      PagesHighWater(env, min, max, last, n, t);
      Combine(p.emitted, n.emitted, t.emitted, p.maxBookmark);
  }

  /** Marks over consecutive stretches of a growing sequence compose. */
  lemma Combine(a: seq<Record>, b: seq<Record>, c: seq<Record>, base: Timestamp)
    requires a <= b <= c
    ensures HighWater(c[|b|..], HighWater(b[|a|..], base)) == HighWater(c[|a|..], base)
  {
    assert c[|a|..] == b[|a|..] + c[|b|..];
    HighWaterAppend(b[|a|..], c[|b|..], base);
  }

  /**
   * `max_bookmark` is the high-water mark of the run: the largest of the
   * starting bookmark and the replication values of all records yielded, so
   * it never decreases during the run.
   */
  lemma RunHighWater(env: Env, s0: State)
    ensures var t := Run(env, s0);
      var start := GetBookmark(s0, env.stream, env.config.startDate);
      && t.maxBookmark == HighWater(t.emitted, start)
      && t.maxBookmark >= start
      && (forall j :: 0 <= j < |t.emitted| ==> t.emitted[j].replicationValue <= t.maxBookmark)
  {
    var t := Run(env, s0);
    var start := GetBookmark(s0, env.stream, env.config.startDate);
    WindowsHighWater(env, start, GetUpdatedAtMax(s0, env.stream), Progress(s0, [], [], [], start), Run(env, s0));
    assert t.emitted[0..] == t.emitted;
    HighWaterIsMax(t.emitted, start);
  }

  // ---------------------------------------------------------------------------
  // The sequence of requests.

  /**
   * The request a run sends after `r` once the API answered it with `resp`,
   * or `None` when it sends no other: after a fault, after a record below the
   * cursor, after a short page that closes the last window, and after a full
   * page that is empty or whose last id is not its largest. A short page
   * starts the next window at `r`'s upper bound from cursor 1; a full page
   * stays in the window with its last id as the cursor.
   */
  function NextRequest(env: Env, r: Request, resp: Response): Option<Request> {
    match resp
    case Failed(_) => None
    case Page(objs) =>
      if exists j :: 0 <= j < |objs| && objs[j].id < r.sinceId then None
      else if |objs| < env.stream.resultsPerPage then
        if r.updatedAtMax < env.stopTime then
          Some(Request(1, r.updatedAtMax, Min(r.updatedAtMax + WindowSize(env.config), env.stopTime)))
        else None
      else if |objs| == 0 then None
      else if forall j :: 0 <= j < |objs| ==> objs[j].id <= objs[|objs| - 1].id then
        Some(Request(objs[|objs| - 1].id, r.updatedAtMin, r.updatedAtMax))
      else None
  }

  /**
   * The first request of a run from the bookmark state `st`: the stored
   * cursor (or 1), the stored bookmark (or the start date), and the stored
   * bound of an interrupted window (or one window further), never past the
   * stop time.
   */
  function ResumeRequest(env: Env, st: State): Request {
    var min := GetBookmark(st, env.stream, env.config.startDate);
    Request(SinceIdOr1(GetSinceId(st, env.stream)), min,
            Min(GetUpdatedAtMax(st, env.stream).GetOr(min + WindowSize(env.config)), env.stopTime))
  }

  /** Request `i + 1` is the one that follows request `i` and its answer. */
  predicate Follows(env: Env, requests: seq<Request>, i: nat) {
    i + 1 < |requests| && i < |env.responses|
    && NextRequest(env, requests[i], env.responses[i]) == Some(requests[i + 1])
  }

  /** The requests from index `from` on follow one another by `NextRequest`, and the last one has no successor. */
  predicate Chained(env: Env, requests: seq<Request>, from: nat, outcome: Pager.Outcome) {
    && (forall i: nat :: from <= i < |requests| - 1 ==> Follows(env, requests, i))
    && (from < |requests| <= |env.responses| ==>
          NextRequest(env, requests[|requests| - 1], env.responses[|requests| - 1]) == None)
    && (outcome == Interrupted <==> |requests| == |env.responses| + 1)
  }

  /** How the page answering a step's request decides what follows it. */
  lemma StepNext(env: Env, min: Timestamp, max: Timestamp, since: int, p: Progress)
    requires ValidStream(env.stream)
    requires |p.requests| <= |env.responses|
    ensures var s := PageStep(env, min, max, since, p);
      var r := Request(since, min, max);
      && (s.end.Stop? ==> (s.end.outcome == Interrupted <==> |p.requests| == |env.responses|))
      && (s.end.Stop? && |p.requests| < |env.responses| ==> NextRequest(env, r, env.responses[|p.requests|]) == None)
      && (s.end == WindowClosed ==>
            && GetSinceId(s.next.state, env.stream).None? && GetUpdatedAtMax(s.next.state, env.stream).None?
            && (max < env.stopTime ==>
                  NextRequest(env, r, env.responses[|p.requests|])
                  == Some(Request(1, max, Min(max + WindowSize(env.config), env.stopTime))))
            && (max >= env.stopTime ==> NextRequest(env, r, env.responses[|p.requests|]) == None))
      && (s.end.NextPage? ==> NextRequest(env, r, env.responses[|p.requests|]) == Some(Request(s.end.lastId, min, max)))
  {
    var s := PageStep(env, min, max, since, p);
    if |p.requests| < |env.responses| && env.responses[|p.requests|].Page? {
      var objs := env.responses[|p.requests|].records;
      var k := FirstBelow(objs, since);
      var q := p.(requests := p.requests + [Request(since, min, max)]);
      var startDate := env.config.startDate;
      if k < |objs| {
        BelowCursorStopsPage(env.stream, max, since, q, objs, k);
      } else if |objs| < env.stream.resultsPerPage {
        ShortPageClosesWindow(env.stream, max, since, q, objs, startDate);
      } else if |objs| > 0 {
        FullPageMovesCursor(env.stream, max, since, q, objs, startDate);
      }
    }
  }

  lemma {:induction false} WindowsRequests(env: Env, min: Timestamp, interrupted: Option<Timestamp>, p: Progress, t: Trace)
    requires ValidStream(env.stream)
    requires |p.requests| <= |env.responses|
    requires t == Windows(env, min, interrupted, p)
    ensures && p.requests <= t.requests
      && (|t.requests| > |p.requests| <==> min < env.stopTime)
      && (min < env.stopTime ==>
            t.requests[|p.requests|]
            == Request(SinceIdOr1(GetSinceId(p.state, env.stream)), min,
                       Min(interrupted.GetOr(min + WindowSize(env.config)), env.stopTime)))
      && Chained(env, t.requests, |p.requests|, t.outcome)
    decreases |env.responses| - |p.requests|, 1
  {
    if min < env.stopTime {
      var since := SinceIdOr1(GetSinceId(p.state, env.stream));
      var max := Min(interrupted.GetOr(min + WindowSize(env.config)), env.stopTime);
      PagesRequests(env, min, max, since, p, t);
    }
  }

  lemma {:induction false} PagesRequests(env: Env, min: Timestamp, max: Timestamp, since: int, p: Progress, t: Trace)
    requires ValidStream(env.stream)
    requires |p.requests| <= |env.responses|
    requires t == Pages(env, min, max, since, p)
    ensures && p.requests < t.requests
      && t.requests[|p.requests|] == Request(since, min, max)
      && Chained(env, t.requests, |p.requests|, t.outcome)
    decreases |env.responses| - |p.requests|, 0
  {
    var s := PageStep(env, min, max, since, p);
    var i := |p.requests|;
    StepNext(env, min, max, since, p);
    match s.end
    case Stop(_) =>
      ChainedEnd(env, t.requests, i, t.outcome);
    case WindowClosed =>
      WindowsRequests(env, max, None, s.next, t);
      if max < env.stopTime {
        ChainedCons(env, t.requests, i, t.outcome);
      } else {
        ChainedEnd(env, t.requests, i, t.outcome);
      }
    case NextPage(last) =>
      PagesRequests(env, min, max, last, s.next, t);
      ChainedCons(env, t.requests, i, t.outcome);
  }

  lemma ChainedCons(env: Env, requests: seq<Request>, from: nat, outcome: Pager.Outcome)
    requires Follows(env, requests, from) && Chained(env, requests, from + 1, outcome)
    ensures Chained(env, requests, from, outcome)
  {
  }

  lemma ChainedEnd(env: Env, requests: seq<Request>, from: nat, outcome: Pager.Outcome)
    requires |requests| == from + 1
    requires from < |env.responses| ==> NextRequest(env, requests[from], env.responses[from]) == None
    requires outcome == Interrupted <==> |requests| == |env.responses| + 1
    ensures Chained(env, requests, from, outcome)
  {
  }

  /**
   * The requests of a run: none when the stored bookmark is already at the
   * stop time; otherwise the first is `ResumeRequest` of the starting state,
   * each further one is the `NextRequest` of its predecessor and the answer
   * to it, the last one has no successor, and the run was cut off exactly
   * when it sent one request more than the API answered.
   */
  lemma RunRequests(env: Env, s0: State)
    requires ValidStream(env.stream)
    ensures var t := Run(env, s0);
      && (t.requests == [] <==> GetBookmark(s0, env.stream, env.config.startDate) >= env.stopTime)
      && (t.requests != [] ==> t.requests[0] == ResumeRequest(env, s0))
      && Chained(env, t.requests, 0, t.outcome)
  {
    var start := GetBookmark(s0, env.stream, env.config.startDate);
    WindowsRequests(env, start, GetUpdatedAtMax(s0, env.stream), Progress(s0, [], [], [], start), Run(env, s0));
  }

  /** A request whose window starts before the stop time and ends no later than it. */
  predicate InRange(env: Env, r: Request) {
    r.updatedAtMin < env.stopTime && r.updatedAtMax <= env.stopTime
  }

  predicate AllInRange(env: Env, rs: seq<Request>) {
    forall i :: 0 <= i < |rs| ==> InRange(env, rs[i])
  }

  /** A step asks for a window in range when it is given one. */
  lemma StepInRange(env: Env, min: Timestamp, max: Timestamp, since: int, p: Progress)
    requires |p.requests| <= |env.responses|
    requires min < env.stopTime && max <= env.stopTime
    requires AllInRange(env, p.requests)
    ensures AllInRange(env, PageStep(env, min, max, since, p).next.requests)
  {
    var rs := PageStep(env, min, max, since, p).next.requests;
    forall i | 0 <= i < |rs|
      ensures InRange(env, rs[i])
    {
      if i < |p.requests| {
        assert rs[i] == p.requests[i];
      }
    }
  }

  lemma {:induction false} WindowsInRange(env: Env, min: Timestamp, interrupted: Option<Timestamp>, p: Progress, t: Trace)
    requires |p.requests| <= |env.responses|
    requires AllInRange(env, p.requests)
    requires t == Windows(env, min, interrupted, p)
    ensures AllInRange(env, t.requests)
    decreases |env.responses| - |p.requests|, 1
  {
    if min < env.stopTime {
      var since := SinceIdOr1(GetSinceId(p.state, env.stream));
      var max := Min(interrupted.GetOr(min + WindowSize(env.config)), env.stopTime);
      PagesInRange(env, min, max, since, p, t);
    }
  }

  lemma {:induction false} PagesInRange(env: Env, min: Timestamp, max: Timestamp, since: int, p: Progress, t: Trace)
    requires |p.requests| <= |env.responses|
    requires min < env.stopTime && max <= env.stopTime
    requires AllInRange(env, p.requests)
    requires t == Pages(env, min, max, since, p)
    ensures AllInRange(env, t.requests)
    decreases |env.responses| - |p.requests|, 0
  {
    var s := PageStep(env, min, max, since, p);
    StepInRange(env, min, max, since, p);
    match s.end
    case Stop(_) =>
    case WindowClosed =>
      WindowsInRange(env, max, None, s.next, t);
    case NextPage(last) =>
      PagesInRange(env, min, max, last, s.next, t);
  }

  /**
   * Every window a run asks for starts before the stop time and ends no
   * later than it: the carried-over bound of an interrupted window and the
   * next window end are both clamped to the stop time.
   */
  lemma RunInRange(env: Env, s0: State)
    ensures var t := Run(env, s0);
      forall i :: 0 <= i < |t.requests| ==> InRange(env, t.requests[i])
  {
    var start := GetBookmark(s0, env.stream, env.config.startDate);
    WindowsInRange(env, start, GetUpdatedAtMax(s0, env.stream), Progress(s0, [], [], [], start), Run(env, s0));
  }

  // ---------------------------------------------------------------------------
  // Checkpoints.

  /** The state in memory is the last persisted snapshot, or the starting state while nothing was persisted. */
  predicate InStep(st: State, persisted: seq<State>, s0: State) {
    if persisted == [] then st == s0 else persisted[|persisted| - 1] == st
  }

  lemma {:induction false} WindowsInStep(env: Env, min: Timestamp, interrupted: Option<Timestamp>, p: Progress, s0: State, t: Trace)
    requires |p.requests| <= |env.responses|
    requires InStep(p.state, p.persisted, s0)
    requires t == Windows(env, min, interrupted, p)
    ensures InStep(t.state, t.persisted, s0) && (t.outcome == Finished ==> t.persisted != [])
    decreases |env.responses| - |p.requests|, 1
  {
    if min < env.stopTime {
      var since := SinceIdOr1(GetSinceId(p.state, env.stream));
      var max := Min(interrupted.GetOr(min + WindowSize(env.config)), env.stopTime);
      PagesInStep(env, min, max, since, p, s0, t);
    }
  }

  lemma {:induction false} PagesInStep(env: Env, min: Timestamp, max: Timestamp, since: int, p: Progress, s0: State, t: Trace)
    requires |p.requests| <= |env.responses|
    requires InStep(p.state, p.persisted, s0)
    requires t == Pages(env, min, max, since, p)
    ensures InStep(t.state, t.persisted, s0) && (t.outcome == Finished ==> t.persisted != [])
    decreases |env.responses| - |p.requests|, 0
  {
    var s := PageStep(env, min, max, since, p);
    match s.end
    case Stop(_) =>
      StopKeepsState(env, min, max, since, p);
    case WindowClosed =>
      WindowsInStep(env, max, None, s.next, s0, t);
    case NextPage(last) =>
      PagesInStep(env, min, max, last, s.next, s0, t);
  }

  /**
   * Every bookmark change reaches the state writer: at the end of a run the
   * state equals the last snapshot persisted, or the starting state when the
   * run persisted nothing; a finished run has persisted at least once.
   */
  lemma RunInStep(env: Env, s0: State)
    ensures var t := Run(env, s0);
      && (t.persisted == [] ==> t.state == s0)
      && (t.persisted != [] ==> Last(t.persisted) == t.state)
      && (t.outcome == Finished ==> t.persisted != [])
  {
    var start := GetBookmark(s0, env.stream, env.config.startDate);
    WindowsInStep(env, start, GetUpdatedAtMax(s0, env.stream), Progress(s0, [], [], [], start), s0, Run(env, s0));
  }

  // ---------------------------------------------------------------------------
  // The final bookmark.

  lemma {:induction false} WindowsFinal(env: Env, min: Timestamp, interrupted: Option<Timestamp>, p: Progress, t: Trace)
    requires |p.requests| <= |env.responses|
    requires t == Windows(env, min, interrupted, p)
    ensures t.outcome == Finished ==>
        GetBookmark(t.state, env.stream, env.config.startDate)
        == FinalBookmark(env.stopTime, t.maxBookmark, WindowSize(env.config))
    decreases |env.responses| - |p.requests|, 1
  {
    if min < env.stopTime {
      var since := SinceIdOr1(GetSinceId(p.state, env.stream));
      var max := Min(interrupted.GetOr(min + WindowSize(env.config)), env.stopTime);
      PagesFinal(env, min, max, since, p, t);
    }
  }

  lemma {:induction false} PagesFinal(env: Env, min: Timestamp, max: Timestamp, since: int, p: Progress, t: Trace)
    requires |p.requests| <= |env.responses|
    requires t == Pages(env, min, max, since, p)
    ensures t.outcome == Finished ==>
        GetBookmark(t.state, env.stream, env.config.startDate)
        == FinalBookmark(env.stopTime, t.maxBookmark, WindowSize(env.config))
    decreases |env.responses| - |p.requests|, 0
  {
    var s := PageStep(env, min, max, since, p);
    match s.end
    case Stop(_) =>
    case WindowClosed =>
      WindowsFinal(env, max, None, s.next, t);
    case NextPage(last) =>
      PagesFinal(env, min, max, last, s.next, t);
  }

  /**
   * A finished run bookmarks `max(min(stop, max_bookmark), stop - window)`:
   * never past the stop time, at most one window before it, and never below
   * the bookmark the run started from when that was not past the stop time.
   */
  lemma RunFinalBookmark(env: Env, s0: State)
    requires Run(env, s0).outcome == Finished
    ensures var t := Run(env, s0);
      var b := GetBookmark(t.state, env.stream, env.config.startDate);
      var w := WindowSize(env.config);
      var start := GetBookmark(s0, env.stream, env.config.startDate);
      && b == FinalBookmark(env.stopTime, t.maxBookmark, w)
      && (w >= 0 ==> env.stopTime - w <= b <= env.stopTime)
      && (start <= env.stopTime ==> b >= start)
  {
    var start := GetBookmark(s0, env.stream, env.config.startDate);
    WindowsFinal(env, start, GetUpdatedAtMax(s0, env.stream), Progress(s0, [], [], [], start), Run(env, s0));
    RunHighWater(env, s0);
  }

  // ---------------------------------------------------------------------------
  // Where a run that did not finish leaves the next one.

  /** A stored cursor that `get_since_id() or 1` turns into a positive cursor. */
  predicate CursorOk(st: State, s: Stream) {
    GetSinceId(st, s).None? || GetSinceId(st, s).value >= 0
  }

  lemma {:induction false} WindowsResume(env: Env, min: Timestamp, interrupted: Option<Timestamp>, p: Progress, t: Trace)
    requires ValidStream(env.stream)
    requires |p.requests| <= |env.responses|
    requires GetBookmark(p.state, env.stream, env.config.startDate) == min
    requires interrupted == GetUpdatedAtMax(p.state, env.stream)
    requires CursorOk(p.state, env.stream)
    requires t == Windows(env, min, interrupted, p)
    ensures t.outcome != Finished ==>
        && |t.requests| > 0 && Last(t.requests) == ResumeRequest(env, t.state)
        && Last(t.requests).updatedAtMin < env.stopTime
    decreases |env.responses| - |p.requests|, 1
  {
    if min < env.stopTime {
      var since := SinceIdOr1(GetSinceId(p.state, env.stream));
      var max := Min(interrupted.GetOr(min + WindowSize(env.config)), env.stopTime);
      PagesResume(env, min, max, since, p, t);
    }
  }

  lemma {:induction false} PagesResume(env: Env, min: Timestamp, max: Timestamp, since: int, p: Progress, t: Trace)
    requires ValidStream(env.stream)
    requires |p.requests| <= |env.responses|
    requires min < env.stopTime && max <= env.stopTime && since >= 1
    requires ResumeRequest(env, p.state) == Request(since, min, max)
    requires t == Pages(env, min, max, since, p)
    ensures t.outcome != Finished ==>
        && |t.requests| > 0 && Last(t.requests) == ResumeRequest(env, t.state)
        && Last(t.requests).updatedAtMin < env.stopTime
    decreases |env.responses| - |p.requests|, 0
  {
    var s := PageStep(env, min, max, since, p);
    var startDate := env.config.startDate;
    StepNext(env, min, max, since, p);
    match s.end
    case Stop(_) =>
      StopKeepsState(env, min, max, since, p);
    case WindowClosed =>
      ReadAfterWrite(ClearWindow(p.state, env.stream), env.stream, env.stream.replicationKey, max, startDate);
      WindowsResume(env, max, None, s.next, t);
    case NextPage(last) =>
      var objs := env.responses[|p.requests|].records;
      var q := p.(requests := p.requests + [Request(since, min, max)]);
      FullPageMovesCursor(env.stream, max, since, q, objs, startDate);
      assert objs[|objs| - 1].id >= since;
      PagesResume(env, min, max, last, s.next, t);
  }

  /**
   * A run that did not finish leaves in the state exactly the request it
   * failed on (or was cut off in): its cursor, its window start, and its
   * window end as long as the stop time is the same. Requires a valid
   * stream and a stored cursor that is absent or not negative.
   */
  lemma RunResume(env: Env, s0: State)
    requires ValidStream(env.stream) && CursorOk(s0, env.stream)
    requires Run(env, s0).outcome != Finished
    ensures var t := Run(env, s0);
      |t.requests| > 0 && Last(t.requests) == ResumeRequest(env, t.state)
      && Last(t.requests).updatedAtMin < env.stopTime
  {
    var start := GetBookmark(s0, env.stream, env.config.startDate);
    WindowsResume(env, start, GetUpdatedAtMax(s0, env.stream), Progress(s0, [], [], [], start), Run(env, s0));
  }

  /**
   * The next run, started later from the state a failed run left, first
   * repeats the failed request: the same cursor and window start, a window
   * end no earlier, and the very same request when the stop time is the same.
   */
  lemma ResumedRunRepeatsRequest(env: Env, s0: State, env2: Env)
    requires ValidStream(env.stream) && CursorOk(s0, env.stream)
    requires Run(env, s0).outcome != Finished
    requires env2.stream == env.stream && env2.config == env.config && env2.stopTime >= env.stopTime
    ensures var t := Run(env, s0);
      var t2 := Run(env2, t.state);
      && |t.requests| > 0 && |t2.requests| > 0
      && t2.requests[0].sinceId == Last(t.requests).sinceId
      && t2.requests[0].updatedAtMin == Last(t.requests).updatedAtMin
      && t2.requests[0].updatedAtMax >= Last(t.requests).updatedAtMax
      && (env2.stopTime == env.stopTime ==> t2.requests[0] == Last(t.requests))
  {
    var t := Run(env, s0);
    RunResume(env, s0);
    RunRequests(env2, t.state);
  }
}
