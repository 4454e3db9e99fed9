/**
 * The window pager `Stream.get_objects`: date windows on the outside,
 * `since_id` pages on the inside, with the ordering checks on every page and
 * a checkpoint of the bookmark state after every page.
 *
 * The remote API is an oracle: `responses[i]` is what the API answered to
 * the i-th request of the run (a page of records, or a fault that the retry
 * layers let through). When the run issues a request beyond the end of
 * `responses`, the run was cut off while that call was outstanding
 * (`Interrupted`): the process died, and the bookmark state is whatever was
 * persisted last.
 */
module Pager {
  import opened Common
  import opened Bookmarks
  import opened Settings
  import Retry

  /** A record as far as the engine looks at it: its id and its replication-key value. */
  datatype Record = Record(id: int, replicationValue: Timestamp)

  datatype Response = Page(records: seq<Record>) | Failed(fault: Retry.Fault)

  /** The two ways a page can break the API's ordering promise. */
  datatype Disorder = BelowSinceId(id: int, sinceId: int) | NotPageMax(lastId: int, maxId: int)

  /**
   * How a run ends: normally; with `OutOfOrderIdsError`; with a fault from the
   * API call; with an `IndexError` (a "full" empty page, possible only when the
   * page size is not positive); or cut off while a call was outstanding.
   */
  datatype Outcome = Finished | OutOfOrderIds(disorder: Disorder) | ApiFault(fault: Retry.Fault) | IndexError | Interrupted

  /** The values a page request is built from. */
  datatype Request = Request(sinceId: int, updatedAtMin: Timestamp, updatedAtMax: Timestamp)

  // ---------------------------------------------------------------------------
  // The query.

  datatype Param = IntParam(n: int) | TextParam(text: string)

  /** The status filter parameter: the stream's own, else `status`. */
  function StatusKey(s: Stream): (k: string)
    ensures s.statusKey.Some? && s.statusKey.value != "" ==> k == s.statusKey.value
    ensures s.statusKey.None? || s.statusKey.value == "" ==> k == "status"
  {
    if s.statusKey.Some? && s.statusKey.value != "" then s.statusKey.value else "status"
  }

  /**
   * `get_query_params`: the cursor, the window and the page size, plus the
   * status filter set to "any". The status entry is written last, so it
   * wins if its name collides with another parameter.
   */
  function GetQueryParams(s: Stream, sinceId: int, statusKey: string, min: Timestamp, max: Timestamp)
    : (q: map<string, Param>)
    ensures q.Keys == {"since_id", "updated_at_min", "updated_at_max", "limit", statusKey}
    ensures q[statusKey] == TextParam("any")
    ensures statusKey != "since_id" ==> q["since_id"] == IntParam(sinceId)
    ensures statusKey != "updated_at_min" ==> q["updated_at_min"] == IntParam(min)
    ensures statusKey != "updated_at_max" ==> q["updated_at_max"] == IntParam(max)
    ensures statusKey != "limit" ==> q["limit"] == IntParam(s.resultsPerPage)
  {
    map["since_id" := IntParam(sinceId),
        "updated_at_min" := IntParam(min),
        "updated_at_max" := IntParam(max),
        "limit" := IntParam(s.resultsPerPage),
        statusKey := TextParam("any")]
  }

  // ---------------------------------------------------------------------------
  // Page checks.

  /** How many records of the page are yielded before one below the cursor stops the page. */
  function FirstBelow(objs: seq<Record>, since: int): (k: nat)
    ensures k <= |objs|
    ensures forall j :: 0 <= j < k ==> objs[j].id >= since
    ensures k < |objs| ==> objs[k].id < since
  {
    if objs == [] then 0
    else if objs[0].id < since then 0
    else 1 + FirstBelow(objs[1..], since)
  }

  /** The high-water mark: the largest of `base` and the replication values of `rs`. */
  function HighWater(rs: seq<Record>, base: Timestamp): (h: Timestamp)
    ensures h >= base
    ensures forall j :: 0 <= j < |rs| ==> rs[j].replicationValue <= h
  {
    if rs == [] then base
    else
      var front := rs[..|rs| - 1];
      assert forall j :: 0 <= j < |front| ==> front[j] == rs[j];
      Max(HighWater(front, base), rs[|rs| - 1].replicationValue)
  }

  /** The high-water mark is attained: it is `base` or the value of one of the records. */
  lemma {:induction false} HighWaterIsMax(rs: seq<Record>, base: Timestamp)
    ensures HighWater(rs, base) == base || exists j :: 0 <= j < |rs| && rs[j].replicationValue == HighWater(rs, base)
    decreases |rs|
  {
    if rs != [] {
      var front := rs[..|rs| - 1];
      HighWaterIsMax(front, base);
      assert forall j :: 0 <= j < |front| ==> front[j] == rs[j];
    }
  }

  /** `max([o.id for o in objects])`. */
  function MaxId(objs: seq<Record>): (m: int)
    requires |objs| > 0
    ensures exists j :: 0 <= j < |objs| && objs[j].id == m
    ensures forall j :: 0 <= j < |objs| ==> objs[j].id <= m
  {
    if |objs| == 1 then objs[0].id else Max(objs[0].id, MaxId(objs[1..]))
  }

  /** The bookmark written at the end: never past the stop time, never more than a window before it. */
  function FinalBookmark(stopTime: Timestamp, maxBookmark: Timestamp, window: int): (b: Timestamp)
    ensures window >= 0 ==> stopTime - window <= b <= stopTime
    ensures window >= 0 && stopTime - window <= maxBookmark <= stopTime ==> b == maxBookmark
  {
    Max(Min(stopTime, maxBookmark), stopTime - window)
  }

  // ---------------------------------------------------------------------------
  // The run, as a function of its inputs.

  /** What a run sees: the stream, the configuration, the API's answers and the stop time. */
  datatype Env = Env(stream: Stream, config: Config, responses: seq<Response>, stopTime: Timestamp)

  /** What a run has done so far. */
  datatype Progress = Progress(
    state: State, persisted: seq<State>, emitted: seq<Record>, requests: seq<Request>, maxBookmark: Timestamp)

  /** What a run did: final state, persisted snapshots, yielded records, requests, high-water mark and how it ended. */
  datatype Trace = Trace(
    state: State, persisted: seq<State>, emitted: seq<Record>, requests: seq<Request>,
    maxBookmark: Timestamp, outcome: Outcome)

  /** How one page leaves the inner loop: the run stops, the window closes, or the next page follows the cursor `lastId`. */
  datatype PageEnd = Stop(outcome: Outcome) | WindowClosed | NextPage(lastId: int)

  /** One iteration of the inner loop: the progress after it and how it ends. */
  datatype Step = Step(next: Progress, end: PageEnd)

  function Halt(p: Progress, outcome: Outcome): Trace {
    Trace(p.state, p.persisted, p.emitted, p.requests, p.maxBookmark, outcome)
  }

  /** The progress after yielding the first `k` records of a page. */
  function AfterYield(p: Progress, objs: seq<Record>, k: nat): Progress
    requires k <= |objs|
  {
    p.(emitted := p.emitted + objs[..k], maxBookmark := HighWater(objs[..k], p.maxBookmark))
  }

  /** The run of `get_objects` from the bookmark state `s0`. */
  function Run(env: Env, s0: State): (t: Trace)
    ensures |t.requests| <= |env.responses| + 1
    ensures t.outcome == Interrupted <==> |t.requests| == |env.responses| + 1
  {
    var min := GetBookmark(s0, env.stream, env.config.startDate);
    Windows(env, min, GetUpdatedAtMax(s0, env.stream), Progress(s0, [], [], [], min))
  }

  /** The outer loop from a window starting at `min`; `interrupted` is the carried-over upper bound, if any. */
  function Windows(env: Env, min: Timestamp, interrupted: Option<Timestamp>, p: Progress): (t: Trace)
    requires |p.requests| <= |env.responses|
    ensures p.emitted <= t.emitted && p.requests <= t.requests && p.persisted <= t.persisted
    ensures |t.requests| <= |env.responses| + 1
    ensures t.outcome == Interrupted <==> |t.requests| == |env.responses| + 1
    decreases |env.responses| - |p.requests|, 1
  {
    if min < env.stopTime then
      var since := SinceIdOr1(GetSinceId(p.state, env.stream));
      var max := Min(interrupted.GetOr(min + WindowSize(env.config)), env.stopTime);
      Pages(env, min, max, since, p)
    else
      var bookmark := FinalBookmark(env.stopTime, p.maxBookmark, WindowSize(env.config));
      var st := WriteBookmark(p.state, env.stream.name, env.stream.replicationKey, bookmark);
      Trace(st, p.persisted + [st], p.emitted, p.requests, p.maxBookmark, Finished)
  }

  /**
   * What a page of records does once it has arrived: its records are yielded
   * while they respect the cursor `since`; then a short page closes the
   * window [.., `max`], and a full one moves the cursor to its last id,
   * provided that id is the page's largest. Checkpoints go to `persisted`.
   */
  function ConsumePage(s: Stream, max: Timestamp, since: int, p: Progress, objs: seq<Record>): (r: Step)
    ensures r.next.requests == p.requests
    ensures r.end.Stop? ==> r.next.state == p.state && r.next.persisted == p.persisted
    ensures r.end.NextPage? ==> r.end.lastId >= since
  {
    var k := FirstBelow(objs, since);
    var p' := AfterYield(p, objs, k);
    if k < |objs| then Step(p', Stop(OutOfOrderIds(BelowSinceId(objs[k].id, since))))
    else if |objs| < s.resultsPerPage then
      var st := WriteBookmark(ClearWindow(p.state, s), s.name, s.replicationKey, max);
      Step(p'.(state := st, persisted := p.persisted + [st]), WindowClosed)
    else if |objs| == 0 then Step(p', Stop(IndexError))
    else if objs[|objs| - 1].id != MaxId(objs) then
      Step(p', Stop(OutOfOrderIds(NotPageMax(objs[|objs| - 1].id, MaxId(objs)))))
    else
      var last := objs[|objs| - 1].id;
      var st1 := WriteBookmark(p.state, s.name, SINCE_ID, last);
      var st2 := WriteBookmark(st1, s.name, UPDATED_AT_MAX, max);
      Step(p'.(state := st2, persisted := p.persisted + [st1, st2]), NextPage(last))
  }

  /**
   * One iteration of the inner loop: request the page of [`min`, `max`]
   * after the cursor `since`; a fault or a cut-off stops the run, a page is
   * consumed.
   */
  function PageStep(env: Env, min: Timestamp, max: Timestamp, since: int, p: Progress): (s: Step)
    requires |p.requests| <= |env.responses|
    ensures s.next.requests == p.requests + [Request(since, min, max)]
    ensures s.end.Stop? || |s.next.requests| <= |env.responses|
  {
    var p1 := p.(requests := p.requests + [Request(since, min, max)]);
    if |p.requests| == |env.responses| then Step(p1, Stop(Interrupted))
    else match env.responses[|p.requests|]
      case Failed(f) => Step(p1, Stop(ApiFault(f)))
      case Page(objs) => ConsumePage(env.stream, max, since, p1, objs)
  }

  /** The inner loop of the window [`min`, `max`] from the cursor `since`. */
  function Pages(env: Env, min: Timestamp, max: Timestamp, since: int, p: Progress): (t: Trace)
    requires |p.requests| <= |env.responses|
    ensures p.emitted <= t.emitted && p.requests < t.requests && p.persisted <= t.persisted
    ensures |t.requests| <= |env.responses| + 1
    ensures t.outcome == Interrupted <==> |t.requests| == |env.responses| + 1
    decreases |env.responses| - |p.requests|, 0
  {
    var s := PageStep(env, min, max, since, p);
    match s.end
    case Stop(outcome) => Halt(s.next, outcome)
    case WindowClosed => Windows(env, max, None, s.next)
    case NextPage(last) => Pages(env, min, max, last, s.next)
  }

  // ---------------------------------------------------------------------------
  // The methods.

  /**
   * The loop over one page's records: each record is yielded and raises the
   * high-water mark, until one falls below the cursor. Returns how many were
   * yielded.
   */
  method YieldPage(objects: seq<Record>, sinceId: int, emitted0: seq<Record>, maxBookmark0: Timestamp)
    returns (k: nat, emitted: seq<Record>, maxBookmark: Timestamp)
    ensures k == FirstBelow(objects, sinceId)
    ensures emitted == emitted0 + objects[..k]
    ensures maxBookmark == HighWater(objects[..k], maxBookmark0)
  {
    emitted, maxBookmark := emitted0, maxBookmark0;
    k := 0;
    while k < |objects|
      invariant k <= |objects|
      invariant FirstBelow(objects, sinceId) >= k
      invariant emitted == emitted0 + objects[..k]
      invariant maxBookmark == HighWater(objects[..k], maxBookmark0)
    {
      var obj := objects[k];
      if obj.id < sinceId {
        return;
      }
      if obj.replicationValue > maxBookmark {
        maxBookmark := obj.replicationValue;
      }
      assert objects[..k + 1][..k] == objects[..k];
      emitted := emitted + [obj];
      k := k + 1;
    }
  }

  /**
   * The handling of one arrived page in `get_objects`: yields its records,
   * checks the ordering and checkpoints the state.
   */
  method ProcessPage(stream: Stream, store: StateStore, max: Timestamp, since: int, objects: seq<Record>,
                     emitted0: seq<Record>, maxBookmark0: Timestamp, ghost requests: seq<Request>,
                     ghost log0: seq<State>, ghost persisted0: seq<State>)
    returns (emitted: seq<Record>, maxBookmark: Timestamp, end: PageEnd, ghost persisted: seq<State>)
    requires store.log == log0 + persisted0
    modifies store
    ensures store.log == log0 + persisted
    ensures ConsumePage(stream, max, since, Progress(old(store.state), persisted0, emitted0, requests, maxBookmark0), objects)
         == Step(Progress(store.state, persisted, emitted, requests, maxBookmark), end)
  {
    persisted := persisted0;
    var k;
    k, emitted, maxBookmark := YieldPage(objects, since, emitted0, maxBookmark0);
    if k < |objects| {
      return emitted, maxBookmark, Stop(OutOfOrderIds(BelowSinceId(objects[k].id, since))), persisted;
    }
    if |objects| < stream.resultsPerPage {
      // end of the window: drop the cursor, bookmark the window's upper bound
      store.state := ClearWindow(store.state, stream);
      store.UpdateBookmark(stream, max, None);
      persisted := persisted + [store.state];
      return emitted, maxBookmark, WindowClosed, persisted;
    }
    if |objects| == 0 {
      return emitted, maxBookmark, Stop(IndexError), persisted;
    }
    var lastId := objects[|objects| - 1].id;
    if lastId != MaxId(objects) {
      return emitted, maxBookmark, Stop(OutOfOrderIds(NotPageMax(lastId, MaxId(objects)))), persisted;
    }
    store.UpdateBookmark(stream, lastId, Some(SINCE_ID));
    persisted := persisted + [store.state];
    store.UpdateBookmark(stream, max, Some(UPDATED_AT_MAX));
    persisted := persisted + [store.state];
    end := NextPage(lastId);
  }

  /**
   * One iteration of the inner loop of `get_objects`: builds the query and
   * calls the API; a page that arrives is processed.
   */
  method FetchPage(ghost env: Env, stream: Stream, store: StateStore, responses: seq<Response>,
                   min: Timestamp, max: Timestamp, since: int,
                   emitted0: seq<Record>, requests0: seq<Request>, maxBookmark0: Timestamp,
                   ghost log0: seq<State>, ghost persisted0: seq<State>)
    returns (emitted: seq<Record>, requests: seq<Request>, maxBookmark: Timestamp, end: PageEnd,
             ghost persisted: seq<State>)
    requires env.stream == stream && env.responses == responses
    requires |requests0| <= |responses|
    requires store.log == log0 + persisted0
    modifies store
    ensures store.log == log0 + persisted
    ensures PageStep(env, min, max, since, Progress(old(store.state), persisted0, emitted0, requests0, maxBookmark0))
         == Step(Progress(store.state, persisted, emitted, requests, maxBookmark), end)
  {
    emitted, maxBookmark, persisted := emitted0, maxBookmark0, persisted0;
    requests := requests0 + [Request(since, min, max)];
    if |requests| > |responses| {
      // the call never returned: the run is cut off here
      return emitted, requests, maxBookmark, Stop(Interrupted), persisted;
    }
    var response := responses[|requests| - 1];
    if response.Failed? {
      return emitted, requests, maxBookmark, Stop(ApiFault(response.fault)), persisted;
    }
    emitted, maxBookmark, end, persisted :=
      ProcessPage(stream, store, max, since, response.records, emitted, maxBookmark, requests, log0, persisted);
  }

  /**
   * The inner loop of `get_objects`: requests the pages of the window
   * [`min`, `max`] from the cursor `sinceId` on. `stopped` is `None` when a
   * short page closed the window, else how the run ended.
   */
  method PageWindow(ghost env: Env, stream: Stream, store: StateStore, responses: seq<Response>,
                    min: Timestamp, max: Timestamp, sinceId: int, ghost interrupted: Option<Timestamp>,
                    emitted0: seq<Record>, requests0: seq<Request>, maxBookmark0: Timestamp,
                    ghost log0: seq<State>, ghost persisted0: seq<State>)
    returns (emitted: seq<Record>, requests: seq<Request>, maxBookmark: Timestamp, stopped: Option<Outcome>,
             ghost persisted: seq<State>)
    requires env.stream == stream && env.responses == responses
    requires min < env.stopTime
    requires max == Min(interrupted.GetOr(min + WindowSize(env.config)), env.stopTime)
    requires sinceId == SinceIdOr1(GetSinceId(store.state, stream))
    requires |requests0| <= |responses|
    requires store.log == log0 + persisted0
    modifies store
    ensures store.log == log0 + persisted
    ensures var t := Windows(env, min, interrupted, Progress(old(store.state), persisted0, emitted0, requests0, maxBookmark0));
      match stopped
      case Some(outcome) => t == Halt(Progress(store.state, persisted, emitted, requests, maxBookmark), outcome)
      case None =>
        |requests0| < |requests| <= |responses|
        && t == Windows(env, max, None, Progress(store.state, persisted, emitted, requests, maxBookmark))
  {
    ghost var trace := Windows(env, min, interrupted, Progress(store.state, persisted0, emitted0, requests0, maxBookmark0));
    emitted, requests, maxBookmark, persisted := emitted0, requests0, maxBookmark0, persisted0;
    var since := sinceId;
    while true
      invariant |requests0| <= |requests| <= |responses|
      invariant store.log == log0 + persisted
      invariant Pages(env, min, max, since, Progress(store.state, persisted, emitted, requests, maxBookmark)) == trace
      decreases |responses| - |requests|
    {
      var end;
      emitted, requests, maxBookmark, end, persisted :=
        FetchPage(env, stream, store, responses, min, max, since, emitted, requests, maxBookmark, log0, persisted);
      match end
      case Stop(outcome) =>
        return emitted, requests, maxBookmark, Some(outcome), persisted;
      case WindowClosed =>
        return emitted, requests, maxBookmark, None, persisted;
      case NextPage(lastId) =>
        since := lastId;
    }
  }

  /**
   * `get_objects`: pages through every window from the stored bookmark up to
   * `stopTime` (the clock reading taken once at the start), yielding records
   * and checkpointing into `store` as it goes. Returns the records yielded,
   * the requests issued and how the run ended.
   */
  method GetObjects(stream: Stream, config: Config, store: StateStore, responses: seq<Response>, stopTime: Timestamp)
    returns (emitted: seq<Record>, requests: seq<Request>, outcome: Outcome)
    modifies store
    ensures var t := Run(Env(stream, config, responses, stopTime), old(store.state));
      && emitted == t.emitted && requests == t.requests && outcome == t.outcome
      && store.state == t.state && store.log == old(store.log) + t.persisted
  {
    ghost var env := Env(stream, config, responses, stopTime);
    ghost var trace := Run(env, store.state);
    ghost var log0 := store.log;
    ghost var persisted: seq<State> := [];

    var lastSyncInterruptedAt := GetUpdatedAtMax(store.state, stream);
    var updatedAtMin := GetBookmark(store.state, stream, config.startDate);
    var maxBookmark := updatedAtMin;
    var dateWindowSize := WindowSize(config);
    emitted, requests := [], [];

    while updatedAtMin < stopTime
      invariant |requests| <= |responses|
      invariant store.log == log0 + persisted
      invariant Windows(env, updatedAtMin, lastSyncInterruptedAt,
                        Progress(store.state, persisted, emitted, requests, maxBookmark)) == trace
      decreases |responses| - |requests|
    {
      var sinceId := SinceIdOr1(GetSinceId(store.state, stream));
      var updatedAtMax := lastSyncInterruptedAt.GetOr(updatedAtMin + dateWindowSize);
      ghost var interrupted := lastSyncInterruptedAt;
      lastSyncInterruptedAt := None;
      updatedAtMax := Min(updatedAtMax, stopTime);
      var stopped;
      emitted, requests, maxBookmark, stopped, persisted :=
        PageWindow(env, stream, store, responses, updatedAtMin, updatedAtMax, sinceId, interrupted,
                   emitted, requests, maxBookmark, log0, persisted);
      if stopped.Some? {
        return emitted, requests, stopped.value;
      }
      updatedAtMin := updatedAtMax;
    }

    var bookmark := FinalBookmark(stopTime, maxBookmark, dateWindowSize);
    store.UpdateBookmark(stream, bookmark, None);
    persisted := persisted + [store.state];
    outcome := Finished;
  }
}
