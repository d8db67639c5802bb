/**
 * The two transfer primitives of `S3FlexBase`: `uploadChunk` (one part of
 * a multipart upload) and `uploadBuffer` (a whole file), each a PUT with
 * bounded retry by re-invocation with a decremented counter.
 *
 * `fetch` is replaced by a list of outcomes: attempt `i` meets
 * `FetchAt(fetches, i)`. What the caller observes is the result together
 * with a trace of the requests sent and the hooks called, in order.
 */
module S3FlexBase {
  import opened JsCommon
  import opened ObjectUtil
  import opened NumberUtil
  import S3FlexClient

  /** `_defaultChunkSizeForStreamingData`: 2 MiB. */
  const DefaultChunkSize: int := 2 * 1024 * 1024

  /** What `fetch` resolves to. Any HTTP status resolves; the code never inspects it. */
  datatype Response = Response(status: int, eTag: Option<string>)

  /** One `fetch` attempt: a response, an abort by `AbortSignal.timeout` ('TimeoutError') or another rejection. */
  datatype FetchOutcome = Responded(response: Response) | TimedOut | NetworkError

  /** The method is always PUT. `url` is absent when the caller indexed past its URL list. */
  datatype Request = Request(url: Option<string>, body: seq<byte>, headers: map<string, JsValue>, timeout: Option<int>)

  datatype Event = Sent(request: Request) | TimeoutHookCalled | BeforeRetryHookCalled

  /** The settled value of a transfer (`None` is `null`) and what it did on the way. */
  datatype Transfer<T> = Transfer(result: Option<T>, trace: seq<Event>)

  /** `UploadChunkResponse`. */
  datatype ChunkResponse = ChunkResponse(eTag: string, partNo: int)

  /** The `options` of `uploadChunk`; a hook is either given or not. */
  datatype ChunkOptions = ChunkOptions(
    contentType: Option<string>,
    timeout: Option<int>,
    contentEncoding: Option<string>,
    accessControlAllowOrigin: Option<string>,
    noOfRetries: Option<int>,
    onBeforeRetry: bool,
    onTimeoutError: bool)

  /** `UploadOptions`, the options of `uploadBuffer`. */
  datatype BufferOptions = BufferOptions(
    contentType: Option<string>,
    timeout: Option<int>,
    contentEncoding: Option<string>,
    accessControlAllowedOrigin: Option<string>,
    noOfRetries: Option<int>,
    onBeforeRetry: bool,
    onTimeoutError: bool)

  /** The outcome of attempt `i`; a list that has run out reads as a rejection. */
  function FetchAt(fetches: seq<FetchOutcome>, i: nat): FetchOutcome {
    if i < |fetches| then fetches[i] else NetworkError
  }

  function Js(v: Option<string>): JsValue {
    if v.Some? then Str(v.value) else UndefinedValue
  }

  /** Number of requests in a trace. */
  function Sends(trace: seq<Event>): nat {
    if trace == [] then 0 else (if trace[0].Sent? then 1 else 0) + Sends(trace[1..])
  }

  /** Number of times a hook event occurs in a trace. */
  function Calls(trace: seq<Event>, hook: Event): nat {
    if trace == [] then 0 else (if trace[0] == hook then 1 else 0) + Calls(trace[1..], hook)
  }

  lemma {:induction false} CountsAppend(a: seq<Event>, b: seq<Event>)
    ensures Sends(a + b) == Sends(a) + Sends(b)
    ensures forall h :: Calls(a + b, h) == Calls(a, h) + Calls(b, h)
  {
    if a != [] {
      assert (a + b)[1..] == a[1..] + b;
      CountsAppend(a[1..], b);
    } else {
      assert a + b == b;
    }
  }

  /** The counts of one attempt's events followed by those of the retry. */
  lemma CountsOfAttempt(request: Request, hooks: seq<Event>, rest: seq<Event>)
    requires forall i :: 0 <= i < |hooks| ==> !hooks[i].Sent?
    ensures Sends([Sent(request)] + hooks + rest) == 1 + Sends(rest)
    ensures forall h: Event :: !h.Sent? ==> Calls([Sent(request)] + hooks + rest, h) == Calls(hooks, h) + Calls(rest, h)
  {
    CountsAppend([Sent(request)] + hooks, rest);
    CountsAppend([Sent(request)], hooks);
    NoSends(hooks);
  }

  lemma {:induction false} NoSends(trace: seq<Event>)
    requires forall i :: 0 <= i < |trace| ==> !trace[i].Sent?
    ensures Sends(trace) == 0
  {
    if trace != [] {
      NoSends(trace[1..]);
    }
  }

  /** A trace of requests only calls no hook. */
  lemma {:induction false} RequestsOnly(trace: seq<Event>)
    requires forall i :: 0 <= i < |trace| ==> trace[i].Sent?
    ensures forall h: Event :: !h.Sent? ==> Calls(trace, h) == 0
  {
    if trace != [] {
      RequestsOnly(trace[1..]);
    }
  }

  /**
   * The index of the first attempt from `from` on, and below `bound`, that
   * gets a response.
   */
  function FirstResponse(fetches: seq<FetchOutcome>, from: nat, bound: nat): (r: Option<nat>)
    ensures r.Some? ==> from <= r.value < bound && FetchAt(fetches, r.value).Responded?
    ensures r.Some? ==> forall i :: from <= i < r.value ==> !FetchAt(fetches, i).Responded?
    ensures r.None? ==> forall i :: from <= i < bound ==> !FetchAt(fetches, i).Responded?
    decreases bound - from
  {
    if bound <= from then None
    else if FetchAt(fetches, from).Responded? then Some(from)
    else FirstResponse(fetches, from + 1, bound)
  }

  /** A failed attempt inside the bound passes the search on to the next one. */
  lemma FirstResponseStep(fetches: seq<FetchOutcome>, from: nat, bound: nat)
    requires from < bound && !FetchAt(fetches, from).Responded?
    ensures FirstResponse(fetches, from, bound) == FirstResponse(fetches, from + 1, bound)
  {
  }

  //////////////////////////////////////////////////////////////////////
  // uploadChunk
  //////////////////////////////////////////////////////////////////////

  /** The default parameter `{ noOfRetries: 3 }`, used when no options are passed. */
  const DefaultChunkOptions: ChunkOptions := ChunkOptions(None, None, None, None, Some(3), false, false)

  function ChunkOptionsOf(options: Option<ChunkOptions>): ChunkOptions {
    options.GetOr(DefaultChunkOptions)
  }

  /** The early return `options.noOfRetries && options.noOfRetries < 0`. */
  predicate ChunkGiveUp(opts: ChunkOptions) {
    opts.noOfRetries.Some? && opts.noOfRetries.value != 0 && opts.noOfRetries.value < 0
  }

  /** The headers of a chunk request, through `getDefined`. */
  function ChunkHeaders(opts: ChunkOptions): map<string, JsValue> {
    DefinedEntries(map[
      "content-type" := Js(opts.contentType),
      "content-encoding" := Js(opts.contentEncoding),
      "access-control-allow-origin" := Js(opts.accessControlAllowOrigin)])
  }

  /**
   * The options of the retry: the same headers and timeout, the counter
   * `(noOfRetries ?? 0) - 1`, and no hooks.
   */
  function ChunkRetryOptions(opts: ChunkOptions): (next: ChunkOptions)
    ensures next.contentType == opts.contentType && next.contentEncoding == opts.contentEncoding
    ensures next.accessControlAllowOrigin == opts.accessControlAllowOrigin && next.timeout == opts.timeout
    ensures next.noOfRetries.Some? && !next.onBeforeRetry && !next.onTimeoutError
  {
    ChunkOptions(opts.contentType, opts.timeout, opts.contentEncoding, opts.accessControlAllowOrigin,
                 Some(opts.noOfRetries.GetOr(0) - 1), false, false)
  }

  /**
   * How many requests `uploadChunk` may send: r + 1 from a counter r >= 0,
   * one when the counter is absent (the retry gets -1), none below 0.
   */
  function ChunkBudget(opts: ChunkOptions): nat {
    match opts.noOfRetries
    case None => 1
    case Some(n) => if n < 0 then 0 else n + 1
  }

  /** `uploadChunk(url, body, partNo, options)`. */
  function UploadChunk(url: Option<string>, body: seq<byte>, partNo: int, options: Option<ChunkOptions>,
                       fetches: seq<FetchOutcome>): Transfer<ChunkResponse>
  {
    ChunkAttempt(url, body, partNo, ChunkOptionsOf(options), fetches, 0)
  }

  /** One invocation of `uploadChunk`, meeting the fetch outcome of attempt number `attempt`. */
  function ChunkAttempt(url: Option<string>, body: seq<byte>, partNo: int, opts: ChunkOptions,
                        fetches: seq<FetchOutcome>, attempt: nat): Transfer<ChunkResponse>
    decreases ChunkBudget(opts)
  {
    if ChunkGiveUp(opts) then Transfer(None, [])
    else
      var request := Request(url, body, ChunkHeaders(opts), opts.timeout);
      match FetchAt(fetches, attempt)
      case Responded(response) =>
        Transfer(Some(ChunkResponse(response.eTag.GetOr(""), partNo)), [Sent(request)])
      case failure =>
        var hooks := ChunkFailureHooks(opts, failure);
        var retry := ChunkAttempt(url, body, partNo, ChunkRetryOptions(opts), fetches, attempt + 1);
        Transfer(retry.result, [Sent(request)] + hooks + retry.trace)
  }

  /** The hooks called after a failed attempt: `onTimeoutError` only for a 'TimeoutError', then `onBeforeRetry`. */
  function ChunkFailureHooks(opts: ChunkOptions, failure: FetchOutcome): (hooks: seq<Event>)
    ensures forall i :: 0 <= i < |hooks| ==> !hooks[i].Sent?
  {
    (if failure.TimedOut? && opts.onTimeoutError then [TimeoutHookCalled] else [])
    + (if opts.onBeforeRetry then [BeforeRetryHookCalled] else [])
  }

  /** A call without hooks records nothing but the requests, all of them identical. */
  lemma {:induction false} ChunkAttemptWithoutHooks(url: Option<string>, body: seq<byte>, partNo: int,
                                                     opts: ChunkOptions, fetches: seq<FetchOutcome>, attempt: nat)
    requires !opts.onBeforeRetry && !opts.onTimeoutError
    ensures var t := ChunkAttempt(url, body, partNo, opts, fetches, attempt);
      forall i :: 0 <= i < |t.trace| ==> t.trace[i] == Sent(Request(url, body, ChunkHeaders(opts), opts.timeout))
    decreases ChunkBudget(opts)
  {
    if !ChunkGiveUp(opts) && !FetchAt(fetches, attempt).Responded? {
      var next := ChunkRetryOptions(opts);
      ChunkAttemptWithoutHooks(url, body, partNo, next, fetches, attempt + 1);
      assert ChunkHeaders(next) == ChunkHeaders(opts);
      var request := Request(url, body, ChunkHeaders(opts), opts.timeout);
      assert ChunkFailureHooks(opts, FetchAt(fetches, attempt)) == [];
      var retry := ChunkAttempt(url, body, partNo, next, fetches, attempt + 1);
      assert var t := ChunkAttempt(url, body, partNo, next, fetches, attempt + 1);
        forall i :: 0 <= i < |t.trace| ==> t.trace[i] == Sent(Request(url, body, ChunkHeaders(next), next.timeout));
      var trace := ChunkAttempt(url, body, partNo, opts, fetches, attempt).trace;
      assert trace == [Sent(request)] + retry.trace;
      forall i | 0 <= i < |trace| ensures trace[i] == Sent(request) {
        if i > 0 {
          assert trace[i] == retry.trace[i - 1];
        }
      }
    }
  }

  /**
   * The attempt budget: a call returns the first response within its
   * budget, as `{e_tag: ETag ?? '', part_no: partNo}`, after one request per
   * attempt up to that one; when every attempt in the budget fails it
   * sends exactly the budget and returns `null`.
   */
  lemma {:induction false} ChunkAttemptBudget(url: Option<string>, body: seq<byte>, partNo: int,
                                              opts: ChunkOptions, fetches: seq<FetchOutcome>, attempt: nat)
    ensures var t := ChunkAttempt(url, body, partNo, opts, fetches, attempt);
      var first := FirstResponse(fetches, attempt, attempt + ChunkBudget(opts));
      && (t.result.Some? <==> first.Some?)
      && (first.Some? ==> t.result == Some(ChunkResponse(FetchAt(fetches, first.value).response.eTag.GetOr(""), partNo))
                          && Sends(t.trace) == first.value - attempt + 1)
      && (first.None? ==> Sends(t.trace) == ChunkBudget(opts))
    decreases ChunkBudget(opts)
  {
    if !ChunkGiveUp(opts) && !FetchAt(fetches, attempt).Responded? {
      var next := ChunkRetryOptions(opts);
      ChunkAttemptBudget(url, body, partNo, next, fetches, attempt + 1);
      assert attempt + 1 + ChunkBudget(next) == attempt + ChunkBudget(opts);
      FirstResponseStep(fetches, attempt, attempt + ChunkBudget(opts));
      var request := Request(url, body, ChunkHeaders(opts), opts.timeout);
      var hooks := ChunkFailureHooks(opts, FetchAt(fetches, attempt));
      var retry := ChunkAttempt(url, body, partNo, next, fetches, attempt + 1);
      CountsOfAttempt(request, hooks, retry.trace);
    }
  }

  /**
   * `uploadChunk` from the top: the first response within the budget wins,
   * with its part number; otherwise the budget is spent and the result is
   * `null`.
   */
  lemma UploadChunkAttempts(url: Option<string>, body: seq<byte>, partNo: int,
                            options: Option<ChunkOptions>, fetches: seq<FetchOutcome>)
    ensures var t := UploadChunk(url, body, partNo, options, fetches);
      var budget := ChunkBudget(ChunkOptionsOf(options));
      var first := FirstResponse(fetches, 0, budget);
      && (t.result.Some? <==> first.Some?)
      && (t.result.Some? ==> t.result.value.partNo == partNo)
      && (first.Some? ==> t.result.value.eTag == FetchAt(fetches, first.value).response.eTag.GetOr("")
                          && Sends(t.trace) == first.value + 1)
      && (first.None? ==> Sends(t.trace) == budget)
  {
    ChunkAttemptBudget(url, body, partNo, ChunkOptionsOf(options), fetches, 0);
  }

  /**
   * The hooks survive only the first attempt: `onTimeoutError` is called
   * at most once, exactly when it is given and the first attempt timed
   * out; `onBeforeRetry` at most once, exactly when it is given and the
   * first attempt failed. A counter below 0 sends nothing at all.
   */
  lemma UploadChunkHooks(url: Option<string>, body: seq<byte>, partNo: int,
                         options: Option<ChunkOptions>, fetches: seq<FetchOutcome>)
    ensures var t := UploadChunk(url, body, partNo, options, fetches);
      var opts := ChunkOptionsOf(options);
      && (t.trace == [] <==> ChunkGiveUp(opts))
      && (ChunkGiveUp(opts) ==> t.result.None?)
      && Calls(t.trace, TimeoutHookCalled)
           == (if !ChunkGiveUp(opts) && opts.onTimeoutError && FetchAt(fetches, 0).TimedOut? then 1 else 0)
      && Calls(t.trace, BeforeRetryHookCalled)
           == (if !ChunkGiveUp(opts) && opts.onBeforeRetry && !FetchAt(fetches, 0).Responded? then 1 else 0)
  {
    var opts := ChunkOptionsOf(options);
    if !ChunkGiveUp(opts) && !FetchAt(fetches, 0).Responded? {
      var next := ChunkRetryOptions(opts);
      var retry := ChunkAttempt(url, body, partNo, next, fetches, 1);
      ChunkAttemptWithoutHooks(url, body, partNo, next, fetches, 1);
      assert var t := ChunkAttempt(url, body, partNo, next, fetches, 1);
        forall i :: 0 <= i < |t.trace| ==> t.trace[i] == Sent(Request(url, body, ChunkHeaders(next), next.timeout));
      RequestsOnly(retry.trace);
      var request := Request(url, body, ChunkHeaders(opts), opts.timeout);
      var hooks := ChunkFailureHooks(opts, FetchAt(fetches, 0));
      CountsOfAttempt(request, hooks, retry.trace);
      CountsAppend(if FetchAt(fetches, 0).TimedOut? && opts.onTimeoutError then [TimeoutHookCalled] else [],
                   if opts.onBeforeRetry then [BeforeRetryHookCalled] else []);
    }
  }

  /** Passing options without a counter allows a single attempt; omitting the options allows four. */
  lemma ChunkDefaults(opts: ChunkOptions)
    requires opts.noOfRetries.None?
    ensures ChunkBudget(opts) == 1
    ensures ChunkBudget(ChunkOptionsOf(None)) == 4
  {
  }

  //////////////////////////////////////////////////////////////////////
  // uploadBuffer
  //////////////////////////////////////////////////////////////////////

  /** `getDefinedNumber(options?.noOfRetries, 3)`: 3 only when the counter is absent. */
  function BufferRetries(options: BufferOptions): int {
    GetDefinedNumber(options.noOfRetries, Some(3))
  }

  function BufferBudget(options: BufferOptions): nat {
    var n := BufferRetries(options);
    if n < 0 then 0 else n + 1
  }

  /** The headers of a buffer request: content type and encoding only, through `getDefined`. */
  function BufferHeaders(options: BufferOptions): (h: map<string, JsValue>)
    ensures h.Keys <= {"content-type", "content-encoding"}
    ensures "content-type" in h <==> options.contentType.Some?
    ensures "content-encoding" in h <==> options.contentEncoding.Some?
  {
    DefinedEntries(map[
      "content-type" := Js(options.contentType),
      "content-encoding" := Js(options.contentEncoding)])
  }

  /** `uploadBuffer(url, body, options)`. */
  function UploadBuffer(url: string, body: seq<byte>, options: BufferOptions,
                        fetches: seq<FetchOutcome>): Transfer<Response>
  {
    BufferAttempt(url, body, options, fetches, 0)
  }

  /** One invocation of `uploadBuffer`; the retry spreads all options, hooks included. */
  function BufferAttempt(url: string, body: seq<byte>, options: BufferOptions,
                         fetches: seq<FetchOutcome>, attempt: nat): Transfer<Response>
    decreases BufferBudget(options)
  {
    var noOfRetries := BufferRetries(options);
    if noOfRetries < 0 then Transfer(None, [])
    else
      var request := Request(Some(url), body, BufferHeaders(options), options.timeout);
      match FetchAt(fetches, attempt)
      case Responded(response) => Transfer(Some(response), [Sent(request)])
      case _ =>
        // The branch for 'TimeoutError' is empty: `onTimeoutError` is never called.
        var hooks := if options.onBeforeRetry then [BeforeRetryHookCalled] else [];
        var retry := BufferAttempt(url, body, options.(noOfRetries := Some(noOfRetries - 1)), fetches, attempt + 1);
        Transfer(retry.result, [Sent(request)] + hooks + retry.trace)
  }

  lemma {:induction false} BufferAttemptBudget(url: string, body: seq<byte>, options: BufferOptions,
                                               fetches: seq<FetchOutcome>, attempt: nat)
    ensures var t := BufferAttempt(url, body, options, fetches, attempt);
      var first := FirstResponse(fetches, attempt, attempt + BufferBudget(options));
      && (t.trace == [] <==> BufferRetries(options) < 0)
      && (t.result.Some? <==> first.Some?)
      && (first.Some? ==> t.result == Some(FetchAt(fetches, first.value).response)
                          && Sends(t.trace) == first.value - attempt + 1)
      && (first.None? ==> Sends(t.trace) == BufferBudget(options))
    decreases BufferBudget(options)
  {
    var n := BufferRetries(options);
    var t := BufferAttempt(url, body, options, fetches, attempt);
    var first := FirstResponse(fetches, attempt, attempt + BufferBudget(options));
    var request := Request(Some(url), body, BufferHeaders(options), options.timeout);
    if n < 0 {
      assert t == Transfer(None, []) && first.None?;
    } else if FetchAt(fetches, attempt).Responded? {
      assert t == Transfer(Some(FetchAt(fetches, attempt).response), [Sent(request)]);
      assert first == Some(attempt);
      assert Sends(t.trace) == 1 by {
        assert t.trace[1..] == [];
      }
    } else {
      var next := options.(noOfRetries := Some(n - 1));
      assert attempt + BufferBudget(options) == attempt + 1 + BufferBudget(next);
      BufferAttemptBudget(url, body, next, fetches, attempt + 1);
      var hooks := if options.onBeforeRetry then [BeforeRetryHookCalled] else [];
      var retry := BufferAttempt(url, body, next, fetches, attempt + 1);
      assert t == Transfer(retry.result, [Sent(request)] + hooks + retry.trace);
      CountsOfAttempt(request, hooks, retry.trace);
      FirstResponseStep(fetches, attempt, attempt + BufferBudget(options));
    }
  }

  /** The hooks of `uploadBuffer`: `onBeforeRetry` after every failed attempt, `onTimeoutError` never. */
  lemma {:induction false} BufferAttemptHooks(url: string, body: seq<byte>, options: BufferOptions,
                                              fetches: seq<FetchOutcome>, attempt: nat)
    ensures var t := BufferAttempt(url, body, options, fetches, attempt);
      && Calls(t.trace, TimeoutHookCalled) == 0
      && Calls(t.trace, BeforeRetryHookCalled)
           == (if options.onBeforeRetry then Sends(t.trace) - (if t.result.Some? then 1 else 0) else 0)
    decreases BufferBudget(options)
  {
    var n := BufferRetries(options);
    if n >= 0 && !FetchAt(fetches, attempt).Responded? {
      var next := options.(noOfRetries := Some(n - 1));
      BufferAttemptHooks(url, body, next, fetches, attempt + 1);
      var request := Request(Some(url), body, BufferHeaders(options), options.timeout);
      var hooks := if options.onBeforeRetry then [BeforeRetryHookCalled] else [];
      var retry := BufferAttempt(url, body, next, fetches, attempt + 1);
      CountsOfAttempt(request, hooks, retry.trace);
    }
  }

  /** Every attempt of `uploadBuffer` sends the same request: the retry changes only the counter. */
  lemma {:induction false} BufferRequests(url: string, body: seq<byte>, options: BufferOptions,
                                          fetches: seq<FetchOutcome>, attempt: nat)
    ensures var t := BufferAttempt(url, body, options, fetches, attempt);
      forall i :: 0 <= i < |t.trace| && t.trace[i].Sent? ==>
        t.trace[i].request == Request(Some(url), body, BufferHeaders(options), options.timeout)
    decreases BufferBudget(options)
  {
    var n := BufferRetries(options);
    if n >= 0 && !FetchAt(fetches, attempt).Responded? {
      var next := options.(noOfRetries := Some(n - 1));
      BufferRequests(url, body, next, fetches, attempt + 1);
      assert BufferHeaders(next) == BufferHeaders(options);
      assert var t := BufferAttempt(url, body, next, fetches, attempt + 1);
        forall i :: 0 <= i < |t.trace| && t.trace[i].Sent? ==>
          t.trace[i].request == Request(Some(url), body, BufferHeaders(options), options.timeout);
    }
  }

  /**
   * `uploadBuffer` returns the first response within its budget unchanged,
   * after one request per attempt up to it (exactly the budget when all
   * fail); it calls `onBeforeRetry` once after every failed attempt, the
   * last one before `null` included, and never calls `onTimeoutError`. A
   * counter below 0 sends nothing.
   */
  lemma UploadBufferAttempts(url: string, body: seq<byte>, options: BufferOptions, fetches: seq<FetchOutcome>)
    ensures var t := UploadBuffer(url, body, options, fetches);
      var first := FirstResponse(fetches, 0, BufferBudget(options));
      && (t.trace == [] <==> BufferRetries(options) < 0)
      && (t.result.Some? <==> first.Some?)
      && (first.Some? ==> t.result == Some(FetchAt(fetches, first.value).response) && Sends(t.trace) == first.value + 1)
      && (first.None? ==> Sends(t.trace) == BufferBudget(options))
      && Calls(t.trace, TimeoutHookCalled) == 0
      && Calls(t.trace, BeforeRetryHookCalled)
           == (if options.onBeforeRetry then Sends(t.trace) - (if t.result.Some? then 1 else 0) else 0)
  {
    BufferAttemptBudget(url, body, options, fetches, 0);
    BufferAttemptHooks(url, body, options, fetches, 0);
  }

  /** The counter of `uploadBuffer` defaults to 3 only when absent; 0 allows one attempt. */
  lemma BufferDefaults(options: BufferOptions)
    ensures options.noOfRetries.None? ==> BufferBudget(options) == 4
    ensures options.noOfRetries == Some(0) ==> BufferBudget(options) == 1
  {
  }

  //////////////////////////////////////////////////////////////////////
  // The client the base class holds
  //////////////////////////////////////////////////////////////////////

  /** The state of `S3FlexBase`: the client it hands out through `client`. */
  class Base {
    var client: S3FlexClient.Client

    constructor(client: S3FlexClient.Client)
      ensures this.client == client
    {
      this.client := client;
    }

    /**
     * `configure(config)`: replaces the client by one built from `config`.
     * When that construction throws, the old client stays.
     */
    method Configure(config: S3FlexClient.ClientConfig, env: map<string, string>, keys: S3FlexClient.EnvKeys)
      returns (error: Option<string>)
      modifies this
      ensures error.Some? <==> S3FlexClient.ResolveSettings(config, env, keys).Err?
      ensures error.Some? ==> client == old(client)
      ensures error.None? ==> fresh(client) && client.settings == S3FlexClient.ResolveSettings(config, env, keys).value
                              && client.availableBuckets.None?
    {
      var built := S3FlexClient.NewClient(config, env, keys);
      if built.Err? {
        return Some(built.error);
      }
      client := built.value;
      return None;
    }
  }

  /** `new S3FlexBase()`: the client is built from the environment alone, and may throw. */
  method NewBase(env: map<string, string>, keys: S3FlexClient.EnvKeys) returns (r: Result<Base, string>)
    ensures r.Err? <==> S3FlexClient.ResolveSettings(S3FlexClient.ClientConfig(None, None, None, None), env, keys).Err?
    ensures r.Err? ==> r.error == S3FlexClient.ResolveSettings(S3FlexClient.ClientConfig(None, None, None, None), env, keys).error
    ensures r.Ok? ==> fresh(r.value) && fresh(r.value.client)
    ensures r.Ok? ==>
      && r.value.client.settings == S3FlexClient.ResolveSettings(S3FlexClient.ClientConfig(None, None, None, None), env, keys).value
      && r.value.client.availableBuckets.None?
  {
    var built := S3FlexClient.NewClient(S3FlexClient.ClientConfig(None, None, None, None), env, keys);
    if built.Err? {
      return Err(built.error);
    }
    var base := new Base(built.value);
    return Ok(base);
  }
}
