/**
 * The retry decision of the API call: which faults each backoff layer around
 * `call_api` catches, when it gives up on a caught fault, and how many calls
 * one layer makes before the fault surfaces.
 */
module Retry {
  import opened Common

  /** Retry this many times at most before giving up on a transient fault. */
  const MAX_RETRIES: nat := 5

  /** The exception classes the layers name; a fault has exactly one of them as its own class. */
  datatype FaultKind =
    | IncompleteRead      // http.client.IncompleteRead
    | ConnectionReset     // ConnectionResetError
    | ShopifyApi          // ShopifyAPIError: an API error without a valid status code
    | ActiveResourceError // pyactiveresource.connection.Error, or a subclass of it not named here
    | SocketTimeout       // socket.timeout
    | ServerError         // pyactiveresource.connection.ServerError
    | FormatError         // pyactiveresource.formats.Error
    | JsonDecode          // simplejson JSONDecodeError
    | UrlError            // urllib URLError
    | ResourceNotFound    // pyactiveresource.connection.ResourceNotFound
    | ClientError         // pyactiveresource.connection.ClientError
    | OtherFault          // anything else

  /**
   * The named classes a fault of class `k` is an instance of: its own and
   * its named base classes. pyactiveresource's `ServerError` and
   * `ClientError` derive from its connection `Error`, and `ResourceNotFound`
   * derives from `ClientError`.
   */
  function Classes(k: FaultKind): (cs: set<FaultKind>)
    ensures k in cs
    ensures ActiveResourceError in cs <==> k in {ActiveResourceError, ServerError, ClientError, ResourceNotFound}
    ensures ClientError in cs <==> k in {ClientError, ResourceNotFound}
  {
    match k
    case ServerError => {ServerError, ActiveResourceError}
    case ClientError => {ClientError, ActiveResourceError}
    case ResourceNotFound => {ResourceNotFound, ClientError, ActiveResourceError}
    case _ => {k}
  }

  /** A raised fault: its class, its `code` attribute (if any) and its text `str(e)`. */
  datatype Fault = Fault(kind: FaultKind, code: Option<int>, message: string)

  // ---------------------------------------------------------------------------
  // The giveup predicates.

  /** `is_not_status_code_fn(codes)(exc)`: give up when the fault has a truthy code outside `codes`. */
  function IsNotStatusCode(codes: set<int>, f: Fault): (giveUp: bool)
    ensures giveUp ==> f.code.Some? && f.code.value !in codes
    ensures f.code.None? || f.code.value in codes ==> !giveUp
  {
    f.code.Some? && f.code.value != 0 && f.code.value !in codes
  }

  /** `t` occurs in `s` starting at index `i`. */
  predicate OccursAt(s: string, t: string, i: int) {
    0 <= i && i + |t| <= |s| && s[i..i + |t|] == t
  }

  /** `s` contains `t` as a contiguous piece (Python `t in s`). */
  function Contains(s: string, t: string): (c: bool)
    ensures c ==> |t| <= |s|
    ensures OccursAt(s, t, 0) ==> c
    decreases |s|
  {
    if |s| < |t| then false else s[..|t|] == t || Contains(s[1..], t)
  }

  const TIMED_OUT: string := "timed out"

  /** `is_timeout_error(e)`: give up unless the fault's text mentions "timed out". */
  function IsTimeoutError(f: Fault): (giveUp: bool)
    ensures !giveUp <==> exists i :: OccursAt(f.message, TIMED_OUT, i)
  {
    ContainsIff(f.message, TIMED_OUT);
    !Contains(f.message, TIMED_OUT)
  }

  /** The status codes the server-error layer retries: Python's `range(500, 599)`. */
  const SERVER_ERROR_CODES: set<int> := set c: int | 500 <= c < 599

  datatype GiveUp = NeverGiveUp | GiveUpUnlessTimedOut | GiveUpUnlessCode(codes: set<int>)

  predicate GivesUp(g: GiveUp, f: Fault) {
    match g
    case NeverGiveUp => false
    case GiveUpUnlessTimedOut => IsTimeoutError(f)
    case GiveUpUnlessCode(codes) => IsNotStatusCode(codes, f)
  }

  // ---------------------------------------------------------------------------
  // One backoff layer.

  /** A backoff layer: the fault classes it catches, its giveup predicate and its try limit (`None`: unlimited). */
  datatype Layer = Layer(catches: set<FaultKind>, giveUp: GiveUp, maxTries: Option<nat>)

  /** Like `except`, a layer catches a fault whose class is one it names or derives from one. */
  predicate Catches(layer: Layer, k: FaultKind) {
    Classes(k) * layer.catches != {}
  }

  /** The layers stacked on `call_api`, outermost first. */
  const CONNECTION_LAYER := Layer({IncompleteRead, ConnectionReset, ShopifyApi}, NeverGiveUp, Some(MAX_RETRIES))
  const TIMEOUT_LAYER := Layer({ActiveResourceError, SocketTimeout}, GiveUpUnlessTimedOut, Some(MAX_RETRIES))
  const SERVER_ERROR_LAYER :=
    Layer({ServerError, FormatError, JsonDecode, UrlError}, GiveUpUnlessCode(SERVER_ERROR_CODES), Some(MAX_RETRIES))
  const NOT_FOUND_LAYER := Layer({ResourceNotFound}, GiveUpUnlessCode({404}), Some(MAX_RETRIES))
  const RATE_LIMIT_LAYER := Layer({ClientError}, GiveUpUnlessCode({429}), None)
  const LAYERS := [CONNECTION_LAYER, TIMEOUT_LAYER, SERVER_ERROR_LAYER, NOT_FOUND_LAYER, RATE_LIMIT_LAYER]

  /** What one call of the wrapped function did. */
  datatype Attempt<T> = Returned(value: T) | Raised(fault: Fault)

  /** After call number `tries` (from 1) the layer stops: the call returned, or it raised a fault the layer lets through. */
  predicate Stops<T>(layer: Layer, a: Attempt<T>, tries: nat) {
    match a
    case Returned(_) => true
    case Raised(f) =>
      !Catches(layer, f.kind) || GivesUp(layer.giveUp, f) || layer.maxTries == Some(tries)
  }

  /**
   * One layer's retry loop. `calls[i]` is what the (i+1)-th call of the
   * wrapped function does; the waits between calls are not modelled. The
   * result is the first call after which the layer stops, returned or
   * re-raised unchanged.
   */
  method CallWithBackoff<T>(layer: Layer, calls: seq<Attempt<T>>) returns (r: Attempt<T>, tries: nat)
    requires exists i :: 0 <= i < |calls| && Stops(layer, calls[i], i + 1)
    ensures 1 <= tries <= |calls| && r == calls[tries - 1]
    ensures Stops(layer, r, tries)
    ensures forall j :: 0 <= j < tries - 1 ==> !Stops(layer, calls[j], j + 1)
    ensures forall j :: 0 <= j < tries - 1 ==> calls[j].Raised? && Catches(layer, calls[j].fault.kind)
    ensures layer.maxTries.Some? && layer.maxTries.value >= 1 ==> tries <= layer.maxTries.value
  {
    tries := 0;
    while true
      invariant exists i :: tries <= i < |calls| && Stops(layer, calls[i], i + 1)
      invariant forall j :: 0 <= j < tries ==> !Stops(layer, calls[j], j + 1)
      invariant layer.maxTries.Some? && layer.maxTries.value >= 1 ==> tries < layer.maxTries.value
      decreases |calls| - tries
    {
      tries := tries + 1;
      r := calls[tries - 1];
      match r
      case Returned(_) =>
        break;
      case Raised(f) =>
        if !Catches(layer, f.kind) {
          break;
        }
        if GivesUp(layer.giveUp, f) || layer.maxTries == Some(tries) {
          break;
        }
    }
  }

  // ---------------------------------------------------------------------------
  // Properties of the predicates and the table.

  /** `Contains` agrees with the positional definition of a substring. */
  lemma {:induction false} ContainsIff(s: string, t: string)
    ensures Contains(s, t) <==> exists i :: OccursAt(s, t, i)
    decreases |s|
  {
    if |s| < |t| {
    } else if s[..|t|] == t {
      assert OccursAt(s, t, 0);
    } else {
      ContainsIff(s[1..], t);
      if Contains(s, t) {
        var i :| OccursAt(s[1..], t, i);
        SliceOfTail(s, i + 1, |t|);
        assert OccursAt(s, t, i + 1);
      } else {
        forall i | OccursAt(s, t, i)
          ensures false
        {
          if i > 0 {
            SliceOfTail(s, i, |t|);
            assert OccursAt(s[1..], t, i - 1);
          }
        }
      }
    }
  }

  /** A piece of the tail of `s` is the piece of `s` one position further on. */
  lemma SliceOfTail(s: string, i: int, n: nat)
    requires 1 <= i && i + n <= |s|
    ensures s[1..][i - 1..i - 1 + n] == s[i..i + n]
  {
    var a, b := s[1..][i - 1..i - 1 + n], s[i..i + n];
    assert |a| == |b| && forall j :: 0 <= j < |a| ==> a[j] == b[j];
  }

  /** The status-code predicate gives up exactly on a truthy code outside the list; a fault without a code is never given up on. */
  lemma StatusCodeGiveUp(codes: set<int>, f: Fault)
    ensures GivesUp(GiveUpUnlessCode(codes), f) <==> (f.code.Some? && f.code.value != 0 && f.code.value !in codes)
    ensures f.code.None? ==> !GivesUp(GiveUpUnlessCode(codes), f)
  {
  }

  /** The server-error layer retries 500 through 598 (and a falsy code 0) and gives up on 599. */
  lemma ServerErrorCodes(f: Fault)
    requires f.code.Some?
    ensures !GivesUp(SERVER_ERROR_LAYER.giveUp, f) <==> (f.code.value == 0 || 500 <= f.code.value <= 598)
    ensures f.code.value == 599 ==> GivesUp(SERVER_ERROR_LAYER.giveUp, f)
  {
    assert f.code.value in SERVER_ERROR_CODES <==> 500 <= f.code.value < 599;
  }

  /** The rate-limit layer never stops on a 429: it has no try limit. */
  lemma RateLimitUncapped(message: string, tries: nat)
    ensures !Stops<()>(RATE_LIMIT_LAYER, Raised(Fault(ClientError, Some(429), message)), tries)
  {
    assert ClientError in Classes(ClientError) * RATE_LIMIT_LAYER.catches;
  }

  /**
   * A server error that the server-error layer lets through (code 599) is
   * still caught by the timeout layer, which derives its class from the
   * connection `Error`, and retried there when its text says "timed out".
   */
  lemma TimedOutServerErrorRetried(message: string, tries: nat)
    requires Contains(message, TIMED_OUT)
    requires 1 <= tries < MAX_RETRIES
    ensures Stops<()>(SERVER_ERROR_LAYER, Raised(Fault(ServerError, Some(599), message)), tries)
    ensures Catches(TIMEOUT_LAYER, ServerError)
    ensures !Stops<()>(TIMEOUT_LAYER, Raised(Fault(ServerError, Some(599), message)), tries)
  {
    assert 599 !in SERVER_ERROR_CODES;
    assert ActiveResourceError in Classes(ServerError) * TIMEOUT_LAYER.catches;
  }

  /**
   * A missing resource is a client error too: the 429 layer catches it and,
   * its code not being 429, gives up on it at once.
   */
  lemma NotFoundPassesRateLimitLayer(message: string, tries: nat)
    ensures Catches(RATE_LIMIT_LAYER, ResourceNotFound)
    ensures Stops<()>(RATE_LIMIT_LAYER, Raised(Fault(ResourceNotFound, Some(404), message)), tries)
  {
    assert ClientError in Classes(ResourceNotFound) * RATE_LIMIT_LAYER.catches;
  }

  /** Every other layer stops at its fifth call whatever the fifth call does. */
  lemma CappedLayersStopAtFive<T>(k: nat, a: Attempt<T>)
    requires k < 4
    ensures Stops(LAYERS[k], a, MAX_RETRIES)
  {
  }
}
