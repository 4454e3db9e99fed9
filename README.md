# tap-shopify incremental sync engine, in Dafny

This project models the incremental sync engine of the Shopify tap
(`tap_shopify/streams/base.py`) and proves properties of that model.

- **`get_objects` is a two-level pager.** The outer loop walks date
  windows `[updated_at_min, updated_at_max]` from the stored bookmark up to
  a stop time taken once at the start. The inner loop walks `since_id`
  pages inside one window.
- **Every page is checked.** Its ids must respect the cursor, and on a
  full page the last id must be the page maximum.
- **Every page is checkpointed.** A full page stores the cursor and the
  window end. A short page clears both and bookmarks the window end. A
  finished run writes a clamped final bookmark.
- **The helpers are modelled too:**
  - the bookmark getters and `update_bookmark`, which persists the whole
    state after each write;
  - `get_query_params`;
  - `get_request_timeout`;
  - the two giveup predicates of the retry layers around the API call,
    and one retry loop per layer;
  - `canonicalize`, which merges `token`/`Token`-style duplicate receipt
    keys in place.

How the model is organised:

- **Module layout.**
  - `common.dfy`: `Option`, `Result`, `Outcome`, `Min`, `Max`.
  - `settings.dfy`: the configuration values and how they are resolved.
  - `retry.dfy`: the retry layers and their giveup predicates.
  - `bookmarks.dfy`: the bookmark state, its getters, and the `StateStore`
    class whose `UpdateBookmark` writes and persists.
  - `receipts.dfy`: `canonicalize` on a `Transaction` object.
  - `pager.dfy`: `get_objects`.
  - `pager_facts.dfy`: the properties of a run.
  - `scenarios.dfy`: worked runs on concrete transcripts.
- **The API is an oracle.** A run is given the sequence of answers the API
  gives, one per request: a page of records, or a fault that the retry
  layers let through. When a run sends a request beyond the end of that
  sequence, it is *cut off* while that call is outstanding. That stands for
  the process dying mid-run.
- **A run has a specification function and an imperative method.**
  - `Pager.Run` gives everything a run does as a function: the final state,
    every persisted snapshot, the records yielded, the requests sent, the
    high-water mark, and how it ended.
  - `Pager.GetObjects` is the imperative loop. It works on a `StateStore`
    object and is proved to compute exactly `Run`.
  - The properties are then proved about `Run`.
- **Timestamps are whole seconds**, and the window size is an integer
  number of seconds.

## Model

| member | source | states |
|---|---|---|
| Receipts.CanonicalReceipt | tap_shopify/streams/base.py:44-68 | A successful result has no truthy upper-case entry and no key beyond the receipt's own and the lower-case one. A failure names the transaction and both spellings. |
| Receipts.CanonicalTransaction | tap_shopify/streams/base.py:39-68 | A missing or empty receipt is left as it is. A successful result keeps the receipt's presence and has no truthy upper-case entry. |
| Receipts.Canonicalize | tap_shopify/streams/base.py:39-68 | When both the key and its capitalised twin hold truthy values, the call raises if they differ and leaves the receipt unchanged. Otherwise the receipt becomes the canonical one (`CanonicalTransaction`). A missing, null or empty receipt is left alone. |
| Receipts.Capitalize | tap_shopify/streams/base.py:40 | `str.capitalize` on ASCII: same length, first character upper-cased, every other character lower-cased. |
| Receipts.EqualDuplicateDropsUpper | tap_shopify/streams/base.py:47-57 | Both spellings present, truthy and equal: the upper-case key is removed, and the lower-case key stays with its value. |
| Receipts.ConflictIffDifferent | tap_shopify/streams/base.py:47-65 | The call raises exactly when both spellings hold truthy values that are not equal under Python `==`. |
| Receipts.LoneUpperIsRenamed | tap_shopify/streams/base.py:66-68 | Only the upper-case spelling truthy: its value moves to the lower-case key, and the upper-case key is gone. |
| Receipts.NoUpperNoChange | tap_shopify/streams/base.py:44-68 | Without a truthy upper-case entry the receipt is unchanged. |
| Receipts.OtherKeysUntouched | tap_shopify/streams/base.py:44-68 | Every key other than the two spellings keeps its presence and its value. |
| Receipts.CanonicalIdempotent | tap_shopify/streams/base.py:39-68 | Canonicalising a canonical receipt changes nothing. |
| Settings.WindowSize | tap_shopify/streams/base.py:236 | The window is the configured size, else one day (86400 s). |
| Settings.RequestTimeout | tap_shopify/streams/base.py:71-80 | A successful result is never zero. The call fails exactly on a non-empty text that does not convert to a number, where `float` raises. |
| Settings.RequestTimeoutFallback | tap_shopify/streams/base.py:73-78 | The result is the converted setting, except that an absent, empty or zero setting gives the default 300. |
| Retry.IsNotStatusCode | tap_shopify/streams/base.py:82-88 | Gives up only on a fault whose code is outside the list. A fault without a code, or with a listed code, is never given up on. |
| Retry.StatusCodeGiveUp | tap_shopify/streams/base.py:82-88 | `is_not_status_code_fn(codes)` gives up exactly on a fault with a truthy code outside `codes`. A fault without a code is never given up on. |
| Retry.Contains | tap_shopify/streams/base.py:105 | A text that contains the piece is at least as long as it, and a text that starts with the piece contains it. |
| Retry.ContainsIff | tap_shopify/streams/base.py:105 | The recursive substring test agrees with "occurs at some position". |
| Retry.IsTimeoutError | tap_shopify/streams/base.py:99-107 | `is_timeout_error` says retry (false) exactly when the fault text contains "timed out" at some position. |
| Retry.ServerErrorCodes | tap_shopify/streams/base.py:119-126 | The server-error layer retries codes 500 to 598 and a falsy code 0. It gives up on every other code, 599 included. |
| Retry.RateLimitUncapped | tap_shopify/streams/base.py:132-137 | The 429 layer has no try limit: a 429 never stops it, whatever the number of tries. |
| Retry.Classes | tap_shopify/streams/base.py:114-137 | The classes a fault is an instance of, as `except` sees them: its own class; the connection `Error` exactly for `Error`, `ServerError`, `ClientError` and `ResourceNotFound`; `ClientError` exactly for `ClientError` and `ResourceNotFound`. |
| Retry.TimedOutServerErrorRetried | tap_shopify/streams/base.py:114-126 | A server error with code 599 gets through the server-error layer, but the timeout layer catches it as a connection `Error` and retries it when its text says "timed out". |
| Retry.NotFoundPassesRateLimitLayer | tap_shopify/streams/base.py:127-137 | A `ResourceNotFound` is a `ClientError`: the 429 layer catches it and, its code being 404, gives up on it at once. |
| Retry.CappedLayersStopAtFive | tap_shopify/streams/base.py:110-131 | The four other layers stop at their fifth call, whatever it does. |
| Retry.CallWithBackoff | tap_shopify/streams/base.py:109-137 | One layer's retry loop returns the first call after which the layer stops (returned, not caught, given up, or tries exhausted). Every earlier call raised a caught fault that was retried. A capped layer makes at most `max_tries` calls. |
| Bookmarks.GetBookmark | tap_shopify/streams/base.py:171-177 | The stored replication-key bookmark of the stream, or the start date when there is none. |
| Bookmarks.GetBookmarkByName | tap_shopify/streams/base.py:179-185 | The stored bookmark under the key, or the start date when there is none. |
| Bookmarks.GetSinceId | tap_shopify/streams/base.py:188-192 | Present exactly when the stream has a stored `since_id`, and then it is that value. |
| Bookmarks.GetUpdatedAtMax | tap_shopify/streams/base.py:194-196 | Present exactly when the stream has a stored `updated_at_max`, and then it is that value. |
| Bookmarks.SinceIdOr1 | tap_shopify/streams/base.py:241 | `get_since_id() or 1`: the stored cursor, or 1 when it is missing or zero. |
| Bookmarks.WriteBookmark | tap_shopify/streams/base.py:202-208 | After a write, the key reads back the value. Every other key of the stream and every other stream are unchanged. |
| Bookmarks.BookmarkKey | tap_shopify/streams/base.py:206 | `bookmark_key or self.replication_key`: the given key unless it is missing or empty, else the replication key. |
| Bookmarks.ClearWindow | tap_shopify/streams/base.py:288-290 | The two pops remove `since_id` and `updated_at_max` from the stream and change nothing else. |
| Bookmarks.StateStore.UpdateBookmark | tap_shopify/streams/base.py:198-209 | The bookmark under the given key (or the replication key when none is given) is written. The whole new state is then appended to the persisted log. |
| Bookmarks.ReadAfterWrite | tap_shopify/streams/base.py:171-209 | The getters read back a written bookmark. A write under another key leaves `get_since_id` and `get_updated_at_max` as they were. |
| Bookmarks.ClearWindowKeepsBookmark | tap_shopify/streams/base.py:288-291 | Closing a window keeps the replication-key bookmark. |
| Pager.StatusKey | tap_shopify/streams/base.py:261 | The stream's status key, or "status" when it has none. |
| Pager.GetQueryParams | tap_shopify/streams/base.py:221-228 | The query has exactly the keys `since_id`, `updated_at_min`, `updated_at_max`, `limit` and the status key. The status key maps to "any", and each other key holds its argument unless the status key collides with it. |
| Pager.FirstBelow | tap_shopify/streams/base.py:270-276 | The number of records yielded before the first one below the cursor: all records before it respect the cursor, and the one at it does not. |
| Pager.HighWater | tap_shopify/streams/base.py:277-279 | The high-water mark is at least its base and every replication value of the batch. |
| Pager.HighWaterIsMax | tap_shopify/streams/base.py:277-279 | The high-water mark is attained: it is its base or one of the replication values. |
| Pager.MaxId | tap_shopify/streams/base.py:294 | `max(ids)` is an id of the page that no id exceeds. |
| Pager.FinalBookmark | tap_shopify/streams/base.py:307-309 | The final bookmark lies in `[stop - window, stop]`, and equals `max_bookmark` when that is already in the range. |
| Pager.Run | tap_shopify/streams/base.py:230-310 | A run sends at most one request more than the API answered, and it is cut off exactly when it sends that extra request. |
| Pager.Windows | tap_shopify/streams/base.py:239-310 | From any pass of the outer loop on, the rest of the run only appends to what was yielded, sent and persisted, and the bounds of `Run` hold. |
| Pager.Pages | tap_shopify/streams/base.py:260-306 | From any pass of the inner loop on, the same holds, and at least one more request is sent. |
| Pager.ConsumePage | tap_shopify/streams/base.py:270-304 | Handling an arrived page sends no request. A page that stops the run writes nothing. A full page's next cursor is no lower than the current one. |
| Pager.PageStep | tap_shopify/streams/base.py:260-268 | Each inner iteration sends exactly one request (cursor, window start, window end). |
| Pager.YieldPage | tap_shopify/streams/base.py:270-280 | The record loop yields exactly the records before the first one below the cursor, and raises `max_bookmark` to their high-water mark. |
| Pager.ProcessPage | tap_shopify/streams/base.py:270-304 | Handling an arrived page changes the store and the outputs exactly as the page step of `Run` does. Every write is persisted in order. |
| Pager.FetchPage | tap_shopify/streams/base.py:260-304 | One inner iteration (query, call, page handling) changes the store and the outputs exactly as the step of `Run` does. |
| Pager.PageWindow | tap_shopify/streams/base.py:255-305 | The inner loop of a window ends the run exactly as `Run` does, or closes the window with the state `Run` has when it moves to the next window. |
| Pager.GetObjects | tap_shopify/streams/base.py:230-310 | The method yields the records of `Run`, sends its requests, ends with its outcome, leaves its final state, and persists exactly its snapshots. |
| PagerFacts.BelowCursorStopsPage | tap_shopify/streams/base.py:270-276 | A record below the cursor raises `OutOfOrderIdsError`. The records before it have been yielded, the later ones have not, and no checkpoint is written. |
| PagerFacts.ShortPageClosesWindow | tap_shopify/streams/base.py:284-292 | A short page yields all its records and ends the window. It clears `since_id` and `updated_at_max`, bookmarks the window end, and persists that state once. |
| PagerFacts.FullPageMovesCursor | tap_shopify/streams/base.py:294-304 | A full page moves the cursor to its last id exactly when that id is the page maximum. It then persists the cursor and then the window end, and keeps the replication-key bookmark. Otherwise it raises `OutOfOrderIdsError` with nothing written. |
| PagerFacts.StopKeepsState | tap_shopify/streams/base.py:268-299 | A page that stops the run (fault, cut-off, disorder) writes and persists nothing. |
| PagerFacts.HighWaterAppend | tap_shopify/streams/base.py:277-279 | Raising the mark over two batches in turn equals raising it over both at once. |
| PagerFacts.RunHighWater | tap_shopify/streams/base.py:277-279 | `max_bookmark` ends as the maximum of the starting bookmark and every yielded replication value. It is never below the start. |
| PagerFacts.RunRequests | tap_shopify/streams/base.py:239-306 | A run sends no request iff the stored bookmark is at or past the stop time. The first request is resumed from the stored state, and each later one follows its predecessor and that predecessor's answer (`NextRequest`). The last request has no successor, and the run was cut off iff it sent one more request than were answered. |
| PagerFacts.RunInRange | tap_shopify/streams/base.py:255-259 | Every requested window starts before the stop time and ends no later than it. |
| PagerFacts.RunInStep | tap_shopify/streams/base.py:198-209 | The final state is the last persisted snapshot (or the starting state if none was persisted), and a finished run has persisted. |
| PagerFacts.RunFinalBookmark | tap_shopify/streams/base.py:307-310 | A finished run bookmarks `max(min(stop, max_bookmark), stop - window)`. That lies in `[stop - window, stop]`, and is never below the starting bookmark when that was not past the stop time. |
| PagerFacts.RunResume | tap_shopify/streams/base.py:231-259 | A run that does not finish leaves a state from which the next run's first request is exactly the request it failed on or was cut off in. |
| PagerFacts.ResumedRunRepeatsRequest | tap_shopify/streams/base.py:231-259 | A later run from that state first repeats the failed request's cursor and window start, with a window end no earlier. With the same stop time it repeats the very same request. |
| Scenarios.ThreePages | tap_shopify/streams/base.py:230-310 | Pages [1,2], [3,4], [5] of a fresh run: all five records, requests with cursors 1, 2 and 4, six snapshots, the window end bookmarked, then the final bookmark moved back to the newest record seen. |
| Scenarios.UnsortedFullPage | tap_shopify/streams/base.py:294-299 | A full page [3,2] yields both records, then stops with "2 is not the max id 3" and no checkpoint. |
| Scenarios.RecordBelowCursor | tap_shopify/streams/base.py:270-276 | From the stored cursor 10, page [12,7,15] yields 12 and stops on 7. 15 is never yielded, and nothing is persisted. |
| Scenarios.CutOffAfterOnePage | tap_shopify/streams/base.py:300-304 | Cut off during the second request: the state holds the cursor 2 and the window end, and the next run sends that same request. |
| Scenarios.StoredBookmarkPastStop | tap_shopify/streams/base.py:230-310 | A stored bookmark past the stop time: no request is sent, and the final bookmark is the stop time, earlier than the stored one. |
| Scenarios.ZeroCursorResumesFromOne | tap_shopify/streams/base.py:241-304 | From the stored cursor -1, a full one-record page with id 0 stores the cursor 0. After a cut-off the next run starts from cursor 1, not from the request that was cut off. |

## Behaviour worth noting

- **"timed out" faults.** `is_timeout_error` returns false, which means
  *retry*, when the error text contains "timed out"; every other caught
  timeout-layer fault is given up on at once. The function's name reads the
  other way round; its docstring (`tap_shopify/streams/base.py:100-103`)
  only says that it decides whether to back off, and the comment at line
  104 says "retry" (`Retry.IsTimeoutError`).
- **Layers catch subclasses.** A backoff layer catches a fault whose class
  derives from one it names. A server error with code 599 gets through the
  server-error layer, but the timeout layer catches it as a connection
  `Error` and retries it when its text says "timed out"
  (`Retry.TimedOutServerErrorRetried`). A `ResourceNotFound` is first
  caught by the innermost 429 layer, which gives up on it at once
  (`Retry.NotFoundPassesRateLimitLayer`).
- **Server-error codes.** The server-error layer retries `range(500, 599)`,
  which excludes 599, and never gives up on a fault without a truthy code
  (`Retry.ServerErrorCodes`).
- **A non-numeric `request_timeout`.** A non-empty text that is not a
  number makes `float` raise. It does not fall back to the default
  (`Settings.RequestTimeout`).
- **The final bookmark can move back.** The final bookmark is computed
  from `max_bookmark`, not from the last window end. It can therefore be
  earlier than the window end that the last short page bookmarked a moment
  before: the newest record's timestamp when that is within one window of
  the stop time (`Scenarios.ThreePages`). It never goes below the bookmark
  the run started from when that bookmark is not past the stop time
  (`PagerFacts.RunFinalBookmark`). A stored bookmark past the stop time is
  rewound to the stop time, with no request sent
  (`Scenarios.StoredBookmarkPastStop`).
- **A cursor of 0 is not resumed.** `get_since_id() or 1` reads a stored
  cursor 0 as no cursor. A full page whose last id is 0, which only a
  negative stored cursor lets through, stores the cursor 0. A run cut off
  after it resumes from cursor 1, not from the request it was cut off in
  (`Scenarios.ZeroCursorResumesFromOne`).

## Left out

- **The network client.** `call_api`, `find` and `set_timeout` are replaced
  by the oracle sequence of answers. `request_timeout` is resolved but not
  used to time anything.
- **The stacked retry decorators.** The model has one layer's retry loop
  (`Retry.CallWithBackoff`) and the table of the five layers. It does not
  model:
  - how the stacked layers nest;
  - the exponential waits, the jitter and the sleeping.

  The pager sees only faults that got through all layers.
- **Telemetry and state I/O.** Logging, metrics timers and the
  `retry_handler`/`leaky_bucket_handler` callbacks are left out.
  `singer.write_state` is modelled as appending the state to a log.
- **Dates and the clock.**
  - Date parsing and formatting are replaced by integer seconds.
  - The clock is not modelled: the stop time is a parameter.
  - Microsecond truncation is not modelled.
- **`date_window_size`** is an integer number of seconds. The float
  conversion and fractional days are not modelled.
- **Text conversion.** Python's `float` on a text is a parameter. `capitalize`
  covers ASCII letters only.
- **Receipt values** are null, booleans, integers and texts. Float,
  list and dictionary values are not modelled.
- **Laziness.** `get_objects` is a generator. The model returns the whole
  sequence of yielded records, so a consumer that stops early is not
  modelled. The prefix clauses of `Pager.Windows` and `Pager.Pages` say
  that nothing yielded is taken back.
- **Other code.** `sync`, `to_dict`, `Stream.__init__`, the `Context`
  global (configuration and state are passed explicitly) and
  `tap_shopify/context.py` are not part of this model.
- **A window size that is zero or negative.** With a zero window the
  source asks for the same window over and over. With a negative one,
  `updated_at_min` moves back by the window size on every pass (lines
  255-259 and 306). Neither ever reaches the stop time. The model's run
  does the same passes, and ends with a cut-off when the answers run out.
- **Exception classes.** Only the classes the layers name, and
  pyactiveresource's subclass relation among them (`Retry.Classes`), are
  modelled; pyactiveresource itself is not part of this model. A fault of
  an unnamed subclass of a builtin or library class (for example
  `urllib.error.HTTPError`, a `URLError`) is modelled as its named base
  class.
- **The query in the request log.** A request record holds the three values
  that vary: the cursor, the window start and the window end. The query
  built from them is `Pager.GetQueryParams`, and is not stored.
- **Unanswered requests.** The model's run stops at the first request that
  has no answer. The source would block on it.
- PagerFacts.RunResume: stated for a stored cursor that is absent or not
  negative, because `get_since_id() or 1` reads a stored 0 as 1. From a
  negative cursor a run can store 0 and then resume from 1
  (`Scenarios.ZeroCursorResumesFromOne`). Also stated for a stream whose
  replication key is neither `since_id` nor `updated_at_max`, so that the
  bookmark writes do not overwrite each other.
- PagerFacts.ResumedRunRepeatsRequest: stated for the same streams and
  stored cursors as `PagerFacts.RunResume`, for the same reasons.
- PagerFacts.RunRequests: stated for a stream whose replication key is
  neither `since_id` nor `updated_at_max`.
- PagerFacts.ShortPageClosesWindow: stated for a stream whose replication
  key is neither `since_id` nor `updated_at_max`.
- PagerFacts.FullPageMovesCursor: stated for a stream whose replication key
  is neither `since_id` nor `updated_at_max`.
- Bookmarks.ClearWindowKeepsBookmark: stated for a stream whose replication
  key is neither `since_id` nor `updated_at_max`.
