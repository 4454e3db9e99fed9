/**
 * The bookmark state of the sync: per stream, a map from bookmark key to
 * value, read through small getters and written through `update_bookmark`,
 * which persists the whole state after every write.
 *
 * Timestamps are whole seconds. A timestamp stored in the state stands for
 * its formatted text, which is never empty, so a stored timestamp is always
 * truthy; a stored `since_id` keeps Python's truthiness (0 is falsy).
 */
module Bookmarks {
  import opened Common

  type Timestamp = int

  /** The bookmarks of one stream: bookmark key to value. */
  type StreamBookmarks = map<string, int>

  /** The `bookmarks` part of the state: stream name to its bookmarks. */
  type State = map<string, StreamBookmarks>

  const SINCE_ID: string := "since_id"
  const UPDATED_AT_MAX: string := "updated_at_max"

  /**
   * A stream: its name (the bookmark namespace), the field used as its
   * replication key, the page size asked of the API, and its optional
   * status filter parameter name.
   */
  datatype Stream = Stream(name: string, replicationKey: string, resultsPerPage: int, statusKey: Option<string>)

  /** The replication key must not collide with the two mid-window bookmark keys. */
  predicate ValidStream(s: Stream) {
    s.replicationKey != SINCE_ID && s.replicationKey != UPDATED_AT_MAX
  }

  function BookmarksOf(st: State, name: string): StreamBookmarks {
    if name in st then st[name] else map[]
  }

  /** `singer.get_bookmark`: the stored value, if any. */
  function Lookup(st: State, name: string, key: string): Option<int> {
    var b := BookmarksOf(st, name);
    if key in b then Some(b[key]) else None
  }

  /** `get_bookmark_by_name`: the stored timestamp under `key`, else the configured start date. */
  function GetBookmarkByName(st: State, s: Stream, key: string, startDate: Timestamp): (t: Timestamp)
    ensures Lookup(st, s.name, key).Some? ==> t == Lookup(st, s.name, key).value
    ensures Lookup(st, s.name, key).None? ==> t == startDate
  {
    Lookup(st, s.name, key).GetOr(startDate)
  }

  /** `get_bookmark`: the replication-key bookmark, else the start date. */
  function GetBookmark(st: State, s: Stream, startDate: Timestamp): (t: Timestamp)
    ensures s.name in st && s.replicationKey in st[s.name] ==> t == st[s.name][s.replicationKey]
    ensures s.name !in st || s.replicationKey !in st[s.name] ==> t == startDate
  {
    GetBookmarkByName(st, s, s.replicationKey, startDate)
  }

  /** `get_since_id`: the stored page cursor, if any. */
  function GetSinceId(st: State, s: Stream): (r: Option<int>)
    ensures r.Some? <==> s.name in st && SINCE_ID in st[s.name]
    ensures r.Some? ==> r.value == st[s.name][SINCE_ID]
  {
    Lookup(st, s.name, SINCE_ID)
  }

  /** `get_updated_at_max`: the stored upper bound of an interrupted window, if any. */
  function GetUpdatedAtMax(st: State, s: Stream): (r: Option<Timestamp>)
    ensures r.Some? <==> s.name in st && UPDATED_AT_MAX in st[s.name]
    ensures r.Some? ==> r.value == st[s.name][UPDATED_AT_MAX]
  {
    Lookup(st, s.name, UPDATED_AT_MAX)
  }

  /** `get_since_id() or 1`: a missing or zero cursor starts the window at 1. */
  function SinceIdOr1(stored: Option<int>): (since: int)
    ensures stored.Some? && stored.value != 0 ==> since == stored.value
    ensures stored.None? || stored.value == 0 ==> since == 1
  {
    if stored.Some? && stored.value != 0 then stored.value else 1
  }

  /** `singer.write_bookmark`: sets one bookmark and nothing else. */
  function WriteBookmark(st: State, name: string, key: string, value: int): (r: State)
    ensures Lookup(r, name, key) == Some(value)
    ensures forall k :: k != key ==> Lookup(r, name, k) == Lookup(st, name, k)
    ensures forall n, k :: n != name ==> Lookup(r, n, k) == Lookup(st, n, k)
    ensures r.Keys == st.Keys + {name}
  {
    st[name := BookmarksOf(st, name)[key := value]]
  }

  /** The key `update_bookmark` writes: the one given, unless it is missing or empty, else the replication key. */
  function BookmarkKey(s: Stream, key: Option<string>): (k: string)
    ensures key.Some? && key.value != "" ==> k == key.value
    ensures key.None? || key.value == "" ==> k == s.replicationKey
  {
    if key.Some? && key.value != "" then key.value else s.replicationKey
  }

  /**
   * The two pops that close a window: `since_id` and `updated_at_max` leave
   * the stream's bookmarks; nothing is persisted by this step.
   */
  function ClearWindow(st: State, s: Stream): (r: State)
    ensures GetSinceId(r, s).None? && GetUpdatedAtMax(r, s).None?
    ensures forall k :: k != SINCE_ID && k != UPDATED_AT_MAX ==> Lookup(r, s.name, k) == Lookup(st, s.name, k)
    ensures forall n, k :: n != s.name ==> Lookup(r, n, k) == Lookup(st, n, k)
    ensures r.Keys == st.Keys
  {
    if s.name in st then st[s.name := st[s.name] - {SINCE_ID, UPDATED_AT_MAX}] else st
  }

  /**
   * The process-wide state together with everything handed to the state
   * writer so far (`log`, oldest first).
   */
  class StateStore {
    var state: State
    var log: seq<State>

    constructor (initial: State)
      ensures state == initial && log == []
    {
      state := initial;
      log := [];
    }

    /** `update_bookmark(value, key)`: write one bookmark, then persist the whole state. */
    method UpdateBookmark(s: Stream, value: int, key: Option<string>)
      modifies this
      ensures state == WriteBookmark(old(state), s.name, BookmarkKey(s, key), value)
      ensures log == old(log) + [state]
    {
      state := WriteBookmark(state, s.name, BookmarkKey(s, key), value);
      log := log + [state];
    }
  }

  // ---------------------------------------------------------------------------
  // The getters read back what the writers leave.

  /** A written bookmark is read back by the getters, and a write under one key leaves the other getters alone. */
  lemma ReadAfterWrite(st: State, s: Stream, key: string, value: int, startDate: Timestamp)
    ensures GetBookmarkByName(WriteBookmark(st, s.name, key, value), s, key, startDate) == value
    ensures key != SINCE_ID ==> GetSinceId(WriteBookmark(st, s.name, key, value), s) == GetSinceId(st, s)
    ensures key != UPDATED_AT_MAX ==> GetUpdatedAtMax(WriteBookmark(st, s.name, key, value), s) == GetUpdatedAtMax(st, s)
    ensures key == SINCE_ID ==> GetSinceId(WriteBookmark(st, s.name, key, value), s) == Some(value)
  {
  }

  /** Closing a window keeps the replication-key bookmark of a valid stream. */
  lemma ClearWindowKeepsBookmark(st: State, s: Stream, startDate: Timestamp)
    requires ValidStream(s)
    ensures GetBookmark(ClearWindow(st, s), s, startDate) == GetBookmark(st, s, startDate)
  {
  }
}
