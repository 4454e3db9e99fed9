/**
 * Worked runs of `get_objects` on small transcripts: the stream `orders`
 * (replication key `updated_at`, two records per page), a one-day window
 * and a start date of 2020-01-01T00:00:00Z.
 */
module Scenarios {
  import opened Common
  import opened Bookmarks
  import opened Settings
  import opened Pager

  /** 2020-01-01T00:00:00Z in seconds since the epoch. */
  const JAN_1_2020: int := 1577836800
  const ONE_DAY_LATER: int := JAN_1_2020 + 86400

  const ORDERS: Stream := Stream("orders", "updated_at", 2, None)
  const CONFIG: Config := Config(JAN_1_2020, None, None)

  /** Record `id`, last updated `id` times ten seconds after the start date. */
  function R(id: int): Record {
    Record(id, JAN_1_2020 + 10 * id)
  }

  function OrdersEnv(responses: seq<Response>): Env {
    Env(ORDERS, CONFIG, responses, ONE_DAY_LATER)
  }

  /** The API answers pages [1, 2], [3, 4] and [5]. */
  const THREE_PAGES: Env := OrdersEnv([Page([R(1), R(2)]), Page([R(3), R(4)]), Page([R(5)])])

  /** Nothing stored yet: the run starts at the start date. */
  const FRESH: Progress := Progress(map[], [], [], [], JAN_1_2020)

  lemma FirstFullPage()
    ensures var s := PageStep(THREE_PAGES, JAN_1_2020, ONE_DAY_LATER, 1, FRESH);
      && s.end == NextPage(2) && s.next.emitted == [R(1), R(2)]
      && s.next.requests == [Request(1, JAN_1_2020, ONE_DAY_LATER)]
      && s.next.maxBookmark == JAN_1_2020 + 20 && |s.next.persisted| == 2
  {
    assert FirstBelow([R(1), R(2)], 1) == 2;
    assert MaxId([R(1), R(2)]) == 2;
    assert [R(1), R(2)][..2] == [R(1), R(2)];
    assert [R(1), R(2)][..1] == [R(1)];
    assert HighWater([R(1)], JAN_1_2020) == JAN_1_2020 + 10;
  }

  lemma SecondFullPage(p: Progress)
    requires p.requests == [Request(1, JAN_1_2020, ONE_DAY_LATER)] && p.emitted == [R(1), R(2)]
    requires p.maxBookmark == JAN_1_2020 + 20 && |p.persisted| == 2
    ensures var s := PageStep(THREE_PAGES, JAN_1_2020, ONE_DAY_LATER, 2, p);
      && s.end == NextPage(4) && s.next.emitted == [R(1), R(2), R(3), R(4)]
      && s.next.requests == [Request(1, JAN_1_2020, ONE_DAY_LATER), Request(2, JAN_1_2020, ONE_DAY_LATER)]
      && s.next.maxBookmark == JAN_1_2020 + 40 && |s.next.persisted| == 4
  {
    assert FirstBelow([R(3), R(4)], 2) == 2;
    assert MaxId([R(3), R(4)]) == 4;
    assert [R(3), R(4)][..2] == [R(3), R(4)];
    assert [R(3), R(4)][..1] == [R(3)];
    assert HighWater([R(3)], JAN_1_2020 + 20) == JAN_1_2020 + 30;
  }

  lemma ShortLastPage(p: Progress)
    requires p.requests == [Request(1, JAN_1_2020, ONE_DAY_LATER), Request(2, JAN_1_2020, ONE_DAY_LATER)]
    requires p.emitted == [R(1), R(2), R(3), R(4)]
    requires p.maxBookmark == JAN_1_2020 + 40 && |p.persisted| == 4
    ensures var s := PageStep(THREE_PAGES, JAN_1_2020, ONE_DAY_LATER, 4, p);
      && s.end == WindowClosed && s.next.emitted == [R(1), R(2), R(3), R(4), R(5)]
      && s.next.requests == [Request(1, JAN_1_2020, ONE_DAY_LATER), Request(2, JAN_1_2020, ONE_DAY_LATER),
                             Request(4, JAN_1_2020, ONE_DAY_LATER)]
      && s.next.maxBookmark == JAN_1_2020 + 50 && |s.next.persisted| == 5
      && s.next.persisted[4] == s.next.state
      && GetBookmark(s.next.state, ORDERS, JAN_1_2020) == ONE_DAY_LATER
  {
    assert FirstBelow([R(5)], 4) == 1;
    assert [R(5)][..1] == [R(5)];
    assert HighWater([R(5)], JAN_1_2020 + 40) == JAN_1_2020 + 50;
  }

  /** What the run over `THREE_PAGES` ends with. */
  predicate ThreePagesResult(t: Trace) {
    && t.outcome == Finished
    && t.emitted == [R(1), R(2), R(3), R(4), R(5)]
    && t.requests == [Request(1, JAN_1_2020, ONE_DAY_LATER), Request(2, JAN_1_2020, ONE_DAY_LATER),
                      Request(4, JAN_1_2020, ONE_DAY_LATER)]
    && |t.persisted| == 6
    && GetBookmark(t.persisted[4], ORDERS, JAN_1_2020) == ONE_DAY_LATER
    && GetBookmark(t.state, ORDERS, JAN_1_2020) == JAN_1_2020 + 50
  }

  /**
   * Pages [1, 2], [3, 4], [5]: two full pages move the cursor to 2 and 4,
   * the short page closes the only window and bookmarks its end, and the
   * final bookmark then moves back to the newest record seen.
   */
  lemma ThreePages(t: Trace)
    requires t == Run(THREE_PAGES, map[])
    ensures t.outcome == Finished
    ensures t.emitted == [R(1), R(2), R(3), R(4), R(5)]
    ensures t.requests == [Request(1, JAN_1_2020, ONE_DAY_LATER), Request(2, JAN_1_2020, ONE_DAY_LATER),
                           Request(4, JAN_1_2020, ONE_DAY_LATER)]
    ensures |t.persisted| == 6
    ensures GetBookmark(t.persisted[4], ORDERS, JAN_1_2020) == ONE_DAY_LATER
    ensures GetBookmark(t.state, ORDERS, JAN_1_2020) == JAN_1_2020 + 50
  {
    assert t == Pages(THREE_PAGES, JAN_1_2020, ONE_DAY_LATER, 1, FRESH);
    FirstFullPage();
    ThreePagesFromSecond(PageStep(THREE_PAGES, JAN_1_2020, ONE_DAY_LATER, 1, FRESH).next, t);
  }

  /** The same run, from the request with cursor 2 on. */
  lemma ThreePagesFromSecond(p: Progress, t: Trace)
    requires p.requests == [Request(1, JAN_1_2020, ONE_DAY_LATER)] && p.emitted == [R(1), R(2)]
    requires p.maxBookmark == JAN_1_2020 + 20 && |p.persisted| == 2
    requires t == Pages(THREE_PAGES, JAN_1_2020, ONE_DAY_LATER, 2, p)
    ensures ThreePagesResult(t)
  {
    SecondFullPage(p);
    ThreePagesFromThird(PageStep(THREE_PAGES, JAN_1_2020, ONE_DAY_LATER, 2, p).next, t);
  }

  /** The same run, from the request with cursor 4 on. */
  lemma ThreePagesFromThird(p: Progress, t: Trace)
    requires p.requests == [Request(1, JAN_1_2020, ONE_DAY_LATER), Request(2, JAN_1_2020, ONE_DAY_LATER)]
    requires p.emitted == [R(1), R(2), R(3), R(4)]
    requires p.maxBookmark == JAN_1_2020 + 40 && |p.persisted| == 4
    requires t == Pages(THREE_PAGES, JAN_1_2020, ONE_DAY_LATER, 4, p)
    ensures ThreePagesResult(t)
  {
    ShortLastPage(p);
    assert t == Windows(THREE_PAGES, ONE_DAY_LATER, None, PageStep(THREE_PAGES, JAN_1_2020, ONE_DAY_LATER, 4, p).next);
  }

  /**
   * A full page [3, 2] whose last id is not its largest: both records are
   * yielded, then the run stops without a checkpoint.
   */
  lemma UnsortedFullPage()
    ensures var t := Run(OrdersEnv([Page([R(3), R(2)])]), map[]);
      && t.outcome == OutOfOrderIds(NotPageMax(2, 3))
      && t.emitted == [R(3), R(2)]
      && t.persisted == []
  {
    var env := OrdersEnv([Page([R(3), R(2)])]);
    var p0 := Progress(map[], [], [], [], JAN_1_2020);
    assert FirstBelow([R(3), R(2)], 1) == 2;
    assert MaxId([R(3), R(2)]) == 3;
    assert PageStep(env, JAN_1_2020, ONE_DAY_LATER, 1, p0).end == Stop(OutOfOrderIds(NotPageMax(2, 3)));
  }

  /**
   * Resuming from the stored cursor 10, a page [12, 7, 15]: 12 is yielded,
   * 7 stops the run, 15 is never yielded, and nothing is persisted.
   */
  lemma RecordBelowCursor()
    ensures var s0 := map["orders" := map["since_id" := 10]];
      var t := Run(OrdersEnv([Page([R(12), R(7), R(15)])]), s0);
      && t.requests == [Request(10, JAN_1_2020, ONE_DAY_LATER)]
      && t.outcome == OutOfOrderIds(BelowSinceId(7, 10))
      && t.emitted == [R(12)]
      && t.persisted == [] && t.state == s0
  {
    var s0 := map["orders" := map["since_id" := 10]];
    var env := OrdersEnv([Page([R(12), R(7), R(15)])]);
    assert GetSinceId(s0, ORDERS) == Some(10);
    assert GetBookmark(s0, ORDERS, JAN_1_2020) == JAN_1_2020;
    assert GetUpdatedAtMax(s0, ORDERS) == None;
    var p0 := Progress(s0, [], [], [], JAN_1_2020);
    assert FirstBelow([R(12), R(7), R(15)], 10) == 1;
    assert [R(12), R(7), R(15)][..1] == [R(12)];
  }

  /**
   * Cut off while the second page was requested: the state holds the cursor
   * 2 and the window end, so the next run repeats that request.
   */
  lemma CutOffAfterOnePage()
    ensures var t := Run(OrdersEnv([Page([R(1), R(2)])]), map[]);
      && t.outcome == Interrupted
      && t.requests == [Request(1, JAN_1_2020, ONE_DAY_LATER), Request(2, JAN_1_2020, ONE_DAY_LATER)]
      && GetSinceId(t.state, ORDERS) == Some(2)
      && GetUpdatedAtMax(t.state, ORDERS) == Some(ONE_DAY_LATER)
      && Run(OrdersEnv([]), t.state).requests == [Request(2, JAN_1_2020, ONE_DAY_LATER)]
  {
    var env := OrdersEnv([Page([R(1), R(2)])]);
    var p0 := Progress(map[], [], [], [], JAN_1_2020);
    assert FirstBelow([R(1), R(2)], 1) == 2;
    assert MaxId([R(1), R(2)]) == 2;
    var s1 := PageStep(env, JAN_1_2020, ONE_DAY_LATER, 1, p0);
    assert s1.end == NextPage(2);
    var st := s1.next.state;
    assert GetSinceId(st, ORDERS) == Some(2);
    assert GetUpdatedAtMax(st, ORDERS) == Some(ONE_DAY_LATER);
    assert GetBookmark(st, ORDERS, JAN_1_2020) == JAN_1_2020;
  }

  /**
   * A stored bookmark past the stop time: no request is sent, and the final
   * bookmark is the stop time, earlier than the bookmark the run started from.
   */
  lemma StoredBookmarkPastStop()
    ensures var s0 := map["orders" := map["updated_at" := ONE_DAY_LATER]];
      var t := Run(Env(ORDERS, CONFIG, [], JAN_1_2020 + 100), s0);
      && t.outcome == Finished && t.requests == []
      && GetBookmark(t.state, ORDERS, JAN_1_2020) == JAN_1_2020 + 100
      && GetBookmark(t.state, ORDERS, JAN_1_2020) < GetBookmark(s0, ORDERS, JAN_1_2020)
  {
    var s0 := map["orders" := map["updated_at" := ONE_DAY_LATER]];
    assert GetBookmark(s0, ORDERS, JAN_1_2020) == ONE_DAY_LATER;
  }

  /** One record per page. */
  const SINGLES: Stream := Stream("orders", "updated_at", 1, None)

  /**
   * From the stored cursor -1, a full page whose last id is 0 checkpoints the
   * cursor 0; the run is cut off on the next request, and the next run turns
   * the stored 0 into 1, so it does not repeat the request that failed.
   */
  lemma ZeroCursorResumesFromOne(t: Trace)
    requires t == Run(Env(SINGLES, CONFIG, [Page([R(0)])], ONE_DAY_LATER), map["orders" := map["since_id" := -1]])
    ensures t.outcome == Interrupted
    ensures t.requests == [Request(-1, JAN_1_2020, ONE_DAY_LATER), Request(0, JAN_1_2020, ONE_DAY_LATER)]
    ensures GetSinceId(t.state, SINGLES) == Some(0)
    ensures Run(Env(SINGLES, CONFIG, [], ONE_DAY_LATER), t.state).requests == [Request(1, JAN_1_2020, ONE_DAY_LATER)]
  {
    var s0 := map["orders" := map["since_id" := -1]];
    var env := Env(SINGLES, CONFIG, [Page([R(0)])], ONE_DAY_LATER);
    assert GetSinceId(s0, SINGLES) == Some(-1);
    assert GetBookmark(s0, SINGLES, JAN_1_2020) == JAN_1_2020;
    assert GetUpdatedAtMax(s0, SINGLES) == None;
    var p0 := Progress(s0, [], [], [], JAN_1_2020);
    assert t == Pages(env, JAN_1_2020, ONE_DAY_LATER, -1, p0);
    assert FirstBelow([R(0)], -1) == 1;
    assert MaxId([R(0)]) == 0;
    var s1 := PageStep(env, JAN_1_2020, ONE_DAY_LATER, -1, p0);
    assert s1.end == NextPage(0);
    assert t == Pages(env, JAN_1_2020, ONE_DAY_LATER, 0, s1.next);
    var st := s1.next.state;
    assert t.state == st;
    assert GetSinceId(st, SINGLES) == Some(0);
    assert GetUpdatedAtMax(st, SINGLES) == Some(ONE_DAY_LATER);
    assert GetBookmark(st, SINGLES, JAN_1_2020) == JAN_1_2020;
    var env2 := Env(SINGLES, CONFIG, [], ONE_DAY_LATER);
    assert Run(env2, st) == Pages(env2, JAN_1_2020, ONE_DAY_LATER, 1, Progress(st, [], [], [], JAN_1_2020));
  }
}
