/**
 * `PresignedUploader`: streams a file into fixed-size chunks, sends each
 * chunk to the next presigned part URL through `uploadChunk`, and finishes
 * a multipart upload by asking the backend to complete or to abort it. It
 * also uploads single files and batches of files through `uploadBuffer`.
 *
 * The byte stream is given as the list of blocks its reader yields (after
 * compression, when compression is on); the fetch outcomes of the part
 * requests and the moments at which the loop sees a failed part are inputs.
 */
module PresignedUpload {
  import opened JsCommon
  import opened ByteUtil
  import opened ArrayUtil
  import opened ObjectUtil
  import opened Exceptions
  import opened S3FlexBase
  import S3FlexClient

  type NonZero = x: int | x != 0 witness 1

  /** `Partial<PresignedUploaderOptions>`; `compressionFormat` tells an explicit `null` from an omitted value. */
  datatype UploaderOptions = UploaderOptions(
    timeout: Option<int>,
    chunkSize: Option<int>,
    concurrency: Option<int>,
    noOfRetries: Option<int>,
    compressionFormat: Nullable<string>,
    accessControlAllowOrigin: Option<string>)

  /**
   * `options?.compressionFormat !== null ? options?.compressionFormat || 'gzip' : null`:
   * only an explicit `null` switches compression off (`None`).
   */
  function ResolveCompression(options: Option<UploaderOptions>): (format: Option<string>)
    ensures format.None? <==> options.Some? && options.value.compressionFormat.Null?
    ensures options.None? || options.value.compressionFormat.Undefined? ==> format == Some("gzip")
    ensures options.Some? && options.value.compressionFormat.Defined? && options.value.compressionFormat.value != "" ==>
      format == Some(options.value.compressionFormat.value)
  {
    if options.None? then Some("gzip")
    else match options.value.compressionFormat
      case Null => None
      case Undefined => Some("gzip")
      case Defined(f) => Some(StringOr(Some(f), "gzip"))
  }

  /** One read of the stream: a typed-array view, or something else (which makes the loop throw). */
  datatype StreamUnit = View(bytes: seq<byte>) | NotView

  /** The bytes the stream yields, in order. */
  function StreamBytes(stream: seq<StreamUnit>): seq<byte> {
    if stream == [] then []
    else StreamBytes(stream[..|stream| - 1]) + (match stream[|stream| - 1] case View(b) => b case NotView => [])
  }

  /** The bytes of one unit; a unit that is not a typed array contributes none. */
  function UnitOf(u: StreamUnit): seq<byte> {
    match u
    case View(b) => b
    case NotView => []
  }

  /** The units of the stream as byte blocks. */
  function UnitBytes(stream: seq<StreamUnit>): seq<seq<byte>> {
    seq(|stream|, j requires 0 <= j < |stream| => UnitOf(stream[j]))
  }

  /** Whether the units before `i` are all typed arrays. */
  predicate ViewsBefore(stream: seq<StreamUnit>, i: int) {
    forall j :: 0 <= j < i && j < |stream| ==> stream[j].View?
  }

  /** Where the cutting of a stream stands: the chunks cut so far and the bytes still waiting. */
  datatype Cutting = Cutting(chunks: seq<seq<byte>>, rest: seq<byte>)

  /** One more unit joins the waiting bytes; once they hold at least c bytes, they are the next chunk. */
  function CutStep(x: Cutting, unit: seq<byte>, c: int): Cutting {
    var pending := x.rest + unit;
    if |pending| >= c then Cutting(x.chunks + [pending], []) else Cutting(x.chunks, pending)
  }

  /**
   * The reference cutting of a sequence of units into chunks: each chunk
   * is the shortest run of whole units after the previous chunk that holds
   * at least c bytes; what follows the last chunk is still waiting.
   */
  function CutsOf(units: seq<seq<byte>>, c: int): Cutting {
    if units == [] then Cutting([], []) else CutStep(CutsOf(units[..|units| - 1], c), units[|units| - 1], c)
  }

  /** The chunks of a stream read to its end: the cut chunks, then the waiting bytes when there are any. */
  function Cuts(units: seq<seq<byte>>, c: int): seq<seq<byte>> {
    var x := CutsOf(units, c);
    if x.rest == [] then x.chunks else x.chunks + [x.rest]
  }

  /**
   * The cutting is a partition of the bytes: the chunks and the waiting
   * bytes concatenate to the whole input, every chunk holds at least c
   * bytes, and fewer than c bytes wait.
   */
  lemma CutsShape(units: seq<seq<byte>>, c: int)
    ensures forall k :: 0 <= k < |CutsOf(units, c).chunks| ==> |CutsOf(units, c).chunks[k]| >= c
    ensures CutsOf(units, c).rest == [] || |CutsOf(units, c).rest| < c
    ensures Flatten(CutsOf(units, c).chunks) + CutsOf(units, c).rest == Flatten(units)
  {
    CutsLong(units, c);
    CutsPartition(units, c);
  }

  lemma {:induction false} CutsLong(units: seq<seq<byte>>, c: int)
    ensures forall k :: 0 <= k < |CutsOf(units, c).chunks| ==> |CutsOf(units, c).chunks[k]| >= c
  {
    if units != [] {
      var init := units[..|units| - 1];
      CutsLong(init, c);
      var prev := CutsOf(init, c);
      var chunks := CutsOf(units, c).chunks;
      assert chunks == prev.chunks || chunks == prev.chunks + [prev.rest + units[|units| - 1]];
      forall k | 0 <= k < |chunks| ensures |chunks[k]| >= c {
        if k < |prev.chunks| {
          assert chunks[k] == prev.chunks[k];
        }
      }
    }
  }

  lemma {:induction false} CutsPartition(units: seq<seq<byte>>, c: int)
    ensures Flatten(CutsOf(units, c).chunks) + CutsOf(units, c).rest == Flatten(units)
  {
    if units != [] {
      var init, last := units[..|units| - 1], units[|units| - 1];
      CutsPartition(init, c);
      var prev := CutsOf(init, c);
      var pending := prev.rest + last;
      FlattenSnoc(init, last);
      assert init + [last] == units;
      if |pending| >= c {
        FlattenSnoc(prev.chunks, pending);
      }
    }
  }

  /** Units of exactly c bytes (c > 0) are sent one chunk each, unchanged. */
  lemma {:induction false} ExactUnits(units: seq<seq<byte>>, c: int)
    requires c > 0 && forall k :: 0 <= k < |units| ==> |units[k]| == c
    ensures CutsOf(units, c) == Cutting(units, [])
    ensures Cuts(units, c) == units
  {
    if units != [] {
      var init := units[..|units| - 1];
      var last := units[|units| - 1];
      ExactUnits(init, c);
      assert CutsOf(init, c).rest + last == last;
      assert init + [last] == units;
    }
  }

  /** The chunks cut from a prefix of the units are the first chunks of the whole cutting. */
  lemma {:induction false} CutsOfPrefix(units: seq<seq<byte>>, i: nat, c: int)
    requires i <= |units|
    ensures CutsOf(units[..i], c).chunks <= CutsOf(units, c).chunks
  {
    if i < |units| {
      var init := units[..|units| - 1];
      assert units[..i] == init[..i];
      CutsOfPrefix(init, i, c);
    } else {
      assert units[..i] == units;
    }
  }

  /** Reading the unit at `i` advances the cutting of the stream by one step. */
  lemma UnitBytesStep(stream: seq<StreamUnit>, i: nat, c: int)
    requires i < |stream|
    ensures CutsOf(UnitBytes(stream[..i + 1]), c) == CutStep(CutsOf(UnitBytes(stream[..i]), c), UnitOf(stream[i]), c)
  {
    var u := UnitBytes(stream[..i + 1]);
    assert u[..|u| - 1] == UnitBytes(stream[..i]);
  }

  /** The chunks cut before unit `i` are the first chunks of the whole stream's. */
  lemma ChunksBeforeInCuts(stream: seq<StreamUnit>, i: nat, c: int)
    requires i <= |stream|
    ensures CutsOf(UnitBytes(stream[..i]), c).chunks <= Cuts(UnitBytes(stream), c)
  {
    assert UnitBytes(stream[..i]) == UnitBytes(stream)[..i];
    CutsOfPrefix(UnitBytes(stream), i, c);
  }

  /**
   * A call of `uploadChunk`: the URL (absent past the end of the list),
   * the body, the part number, the options, and the fetch outcomes its
   * requests meet.
   */
  datatype Dispatch = Dispatch(url: Option<string>, body: seq<byte>, partNo: int, options: ChunkOptions,
                               fetches: seq<FetchOutcome>)

  /** What the call settles to. */
  function Settle(d: Dispatch): Transfer<ChunkResponse> {
    UploadChunk(d.url, d.body, d.partNo, Some(d.options), d.fetches)
  }

  /** Whether no attempt of the call meets a response within its budget. */
  predicate PartFails(d: Dispatch) {
    FirstResponse(d.fetches, 0, ChunkBudget(d.options)).None?
  }

  /** A call settles to `null` exactly when it fails; otherwise to its own part number. */
  lemma SettleFails(d: Dispatch)
    ensures Settle(d).result.None? <==> PartFails(d)
    ensures Settle(d).result.Some? ==> Settle(d).result.value.partNo == d.partNo
  {
    UploadChunkAttempts(d.url, d.body, d.partNo, Some(d.options), d.fetches);
  }

  /** The bodies of the dispatched chunks, concatenated in dispatch order. */
  function Payload(ds: seq<Dispatch>): seq<byte> {
    if ds == [] then [] else Payload(ds[..|ds| - 1]) + ds[|ds| - 1].body
  }

  /** The bodies of the dispatched chunks, in dispatch order. */
  function Bodies(ds: seq<Dispatch>): seq<seq<byte>> {
    seq(|ds|, k requires 0 <= k < |ds| => ds[k].body)
  }

  lemma BodiesSnoc(ds: seq<Dispatch>, d: Dispatch)
    ensures Bodies(ds + [d]) == Bodies(ds) + [d.body]
  {
    assert |Bodies(ds + [d])| == |Bodies(ds) + [d.body]|;
    forall k | 0 <= k < |ds| + 1 ensures Bodies(ds + [d])[k] == (Bodies(ds) + [d.body])[k] {
      if k < |ds| {
        assert (ds + [d])[k] == ds[k];
      }
    }
  }

  /** What the loop's `results` settle to, in dispatch order (`Promise.all` keeps the order). */
  function Settled(ds: seq<Dispatch>): (values: seq<Option<ChunkResponse>>)
    ensures |values| == |ds| && forall k :: 0 <= k < |ds| ==> values[k] == Settle(ds[k]).result
  {
    seq(|ds|, k requires 0 <= k < |ds| => Settle(ds[k]).result)
  }

  /** The URL at an index of the list; `pUrls[i]` is `undefined` past its end. */
  function UrlAt(pUrls: seq<string>, i: nat): Option<string> {
    if i < |pUrls| then Some(pUrls[i]) else None
  }

  /** The fetch outcomes met by the requests of the k-th dispatched chunk. */
  function FetchesFor(fetches: seq<seq<FetchOutcome>>, k: nat): seq<FetchOutcome> {
    if k < |fetches| then fetches[k] else []
  }

  /** Whether the settlement of a failed part has been seen at the top of loop round i. */
  function FlagAt(failureSeen: seq<bool>, i: nat): bool {
    i < |failureSeen| && failureSeen[i]
  }

  /** The loop's exits: `null`, the thrown 'Unknown data type', or the list of dispatched chunks. */
  datatype LoopOutcome = ChunkFailureSeen | UnknownDataType | AllDispatched(results: seq<Dispatch>)

  /** The backend's JSON requests (always PUT). */
  datatype AbortBody = AbortBody(assetTitle: string, uploadId: string)
  datatype CompleteBody = CompleteBody(assetPath: string, uploadId: string, multipartUploadInfo: seq<ChunkResponse>)
  datatype BackendRequest<B> = BackendRequest(url: string, headers: map<string, string>, body: B)

  /** `MultipartUploadOptions`. */
  datatype MultipartSession = MultipartSession(uploadId: string, completionUrl: string, abortUrl: string, filePath: string)

  /** How `multipartUploadWithPresignedUrls` ends: a thrown exception or string, an abort, or a completion. */
  datatype MultipartOutcome =
    | InvalidUrls(exception: FileUploadException)
    | StreamError(message: string)
    | Aborted(abort: BackendRequest<AbortBody>)
    | Completed(complete: BackendRequest<CompleteBody>)

  function JsonHeaders(origin: string): map<string, string> {
    map["content-type" := "application/json", "access-control-allow-origin" := origin]
  }

  /**
   * The choice after the loop: abort when the loop returned `null` or any
   * part settled to `null`, and complete with the parts in dispatch order
   * otherwise.
   */
  function Finalise(results: Option<seq<Option<ChunkResponse>>>, session: MultipartSession, origin: string): (r: MultipartOutcome)
    ensures r.Aborted? || r.Completed?
    ensures r.Aborted? <==> results.None? || exists k :: 0 <= k < |results.value| && results.value[k].None?
    ensures r.Aborted? ==> r.abort == BackendRequest(session.abortUrl, JsonHeaders(origin), AbortBody(session.filePath, session.uploadId))
    ensures r.Completed? ==>
      && r.complete.url == session.completionUrl && r.complete.headers == JsonHeaders(origin)
      && r.complete.body.assetPath == session.filePath && r.complete.body.uploadId == session.uploadId
      && |r.complete.body.multipartUploadInfo| == |results.value|
      && forall k :: 0 <= k < |results.value| ==> Some(r.complete.body.multipartUploadInfo[k]) == results.value[k]
  {
    if results.None? || GetNullIndex(results.value) >= 0 then
      Aborted(BackendRequest(session.abortUrl, JsonHeaders(origin), AbortBody(session.filePath, session.uploadId)))
    else
      GetNonNullItemsAllPresent(results.value);
      Completed(BackendRequest(session.completionUrl, JsonHeaders(origin),
                               CompleteBody(session.filePath, session.uploadId, GetNonNullItems(results.value))))
  }

  /** A file or blob: its name, its MIME type (`file.type`) and its content. */
  datatype FileBlob = FileBlob(name: string, mimeType: string, content: seq<byte>)

  /** One entry of the list given to `startBufferedFilesUpload`. */
  datatype FileInfo = FileInfo(file: FileBlob, presignedUrl: string)

  /** The options of `startBufferedFilesUpload`. */
  datatype BatchOptions = BatchOptions(timeout: Option<int>, compressionFormat: Nullable<string>, concurrency: Option<int>)

  /** One `uploadBuffer` call of the batch: the entry, the options of the batch, and the fetch outcomes it meets. */
  datatype FileUpload = FileUpload(info: FileInfo, batchOptions: Option<BatchOptions>, fetches: seq<FetchOutcome>)

  /** What `startBufferedFilesUpload` does when the list is not empty. */
  datatype BatchRun = BatchRun(initialProgress: map<string, int>, uploads: seq<FileUpload>)

  /** The first progress report: every name of the given entries at 0 (a later duplicate folds into the same key). */
  function ProgressMap(files: seq<FileInfo>): (progress: map<string, int>)
    ensures forall i :: 0 <= i < |files| ==> files[i].file.name in progress && progress[files[i].file.name] == 0
    ensures forall name :: name in progress ==> exists i :: 0 <= i < |files| && files[i].file.name == name
  {
    map name | name in Names(files) :: 0
  }

  function Names(files: seq<FileInfo>): set<string> {
    set i | 0 <= i < |files| :: files[i].file.name
  }

  /**
   * The typed view of the options object `uploadBuffer` receives. The
   * object is built by `getDefined`, so absent keys become absent options;
   * it carries no counter and no hooks.
   */
  function ToBufferOptions(obj: map<string, JsValue>): (options: BufferOptions)
    ensures options.noOfRetries.None? && !options.onBeforeRetry && !options.onTimeoutError
    ensures options.contentType.Some? <==> "contentType" in obj && obj["contentType"].Str?
    ensures options.contentEncoding.Some? <==> "contentEncoding" in obj && obj["contentEncoding"].Str?
    ensures options.timeout.Some? <==> "timeout" in obj && obj["timeout"].Num?
  {
    BufferOptions(
      if "contentType" in obj && obj["contentType"].Str? then Some(obj["contentType"].s) else None,
      if "timeout" in obj && obj["timeout"].Num? then Some(obj["timeout"].n) else None,
      if "contentEncoding" in obj && obj["contentEncoding"].Str? then Some(obj["contentEncoding"].s) else None,
      if "accessControlAllowedOrigin" in obj && obj["accessControlAllowedOrigin"].Str? then Some(obj["accessControlAllowedOrigin"].s) else None,
      None, false, false)
  }

  /** The array the batch consumes with `shift()`: the caller's own list, emptied by the call. */
  class FileInfoList {
    var items: seq<FileInfo>

    constructor(items: seq<FileInfo>)
      ensures this.items == items
    {
      this.items := items;
    }

    /** `shift()`: removes and returns the first entry, `undefined` for an empty list. */
    method Shift() returns (head: Option<FileInfo>)
      modifies this
      ensures old(items) == [] ==> head.None? && items == []
      ensures old(items) != [] ==> head == Some(old(items)[0]) && items == old(items)[1..]
    {
      if items == [] {
        return None;
      }
      head := Some(items[0]);
      items := items[1..];
    }
  }

  /** Number settings the constructor keeps are never 0, since `||` replaces 0 by a non-zero default. */
  type NonEmptyString = s: string | s != "" witness "*"

  /** The instance settings of a `PresignedUploader`. */
  datatype UploaderSettings = UploaderSettings(
    concurrency: NonZero,
    chunkSize: NonZero,
    timeout: NonZero,
    noOfRetries: NonZero,
    compressionFormat: Option<string>,
    accessControlAllowOrigin: NonEmptyString)

  const NoUploaderOptions: UploaderOptions := UploaderOptions(None, None, None, None, Undefined, None)

  /** Whether `value || default` keeps the given number. */
  predicate Kept(value: Option<int>) {
    value.Some? && value.value != 0
  }

  /**
   * What the constructor derives from its options: each number falls back
   * to its default when absent or 0, the origin when absent or empty.
   */
  function ResolveUploaderOptions(options: Option<UploaderOptions>): (s: UploaderSettings)
    ensures var o := options.GetOr(NoUploaderOptions);
      && s.compressionFormat == ResolveCompression(options)
      && s.concurrency == (if Kept(o.concurrency) then o.concurrency.value else 4)
      && s.chunkSize == (if Kept(o.chunkSize) then o.chunkSize.value else DefaultChunkSize)
      && s.timeout == (if Kept(o.timeout) then o.timeout.value else 5000)
      && s.noOfRetries == (if Kept(o.noOfRetries) then o.noOfRetries.value else 3)
      && s.accessControlAllowOrigin == (if o.accessControlAllowOrigin.Some? && o.accessControlAllowOrigin.value != ""
                                        then o.accessControlAllowOrigin.value else "*")
  {
    var o := options.GetOr(NoUploaderOptions);
    UploaderSettings(
      NumberOr(o.concurrency, 4),
      NumberOr(o.chunkSize, DefaultChunkSize),
      NumberOr(o.timeout, 5 * 1000),
      NumberOr(o.noOfRetries, 3),
      ResolveCompression(options),
      StringOr(o.accessControlAllowOrigin, "*"))
  }

  /**
   * `new PresignedUploader(options)`: `super()` builds the client from the
   * environment first and throws when that fails, before any option is
   * read; otherwise the uploader keeps the settings derived from `options`.
   */
  method NewPresignedUploader(options: Option<UploaderOptions>, env: map<string, string>, keys: S3FlexClient.EnvKeys)
    returns (r: Result<PresignedUploader, string>)
    ensures r.Err? <==> S3FlexClient.ResolveSettings(S3FlexClient.ClientConfig(None, None, None, None), env, keys).Err?
    ensures r.Err? ==> r.error == S3FlexClient.ResolveSettings(S3FlexClient.ClientConfig(None, None, None, None), env, keys).error
    ensures r.Ok? ==> fresh(r.value) && fresh(r.value.base) && r.value.Settings() == ResolveUploaderOptions(options)
    ensures r.Ok? ==>
      && r.value.base.client.settings == S3FlexClient.ResolveSettings(S3FlexClient.ClientConfig(None, None, None, None), env, keys).value
      && r.value.base.client.availableBuckets.None?
  {
    var base := NewBase(env, keys);
    if base.Err? {
      return Err(base.error);
    }
    var uploader := new PresignedUploader(options, base.value);
    return Ok(uploader);
  }

  /**
   * The uploader's settings, assigned once by the constructor, and the
   * base it extends, which holds the client.
   */
  class PresignedUploader {
    const concurrency: NonZero
    const chunkSize: NonZero
    const timeout: NonZero
    const noOfRetries: NonZero
    const compressionFormat: Option<string>
    const accessControlAllowOrigin: NonEmptyString
    const base: Base

    /** Everything after `super()`, which has built `base`. */
    constructor(options: Option<UploaderOptions>, base: Base)
      ensures Settings() == ResolveUploaderOptions(options)
      ensures this.base == base
    {
      this.base := base;
      var s := ResolveUploaderOptions(options);
      concurrency := s.concurrency;
      chunkSize := s.chunkSize;
      timeout := s.timeout;
      noOfRetries := s.noOfRetries;
      compressionFormat := s.compressionFormat;
      accessControlAllowOrigin := s.accessControlAllowOrigin;
    }

    function Settings(): UploaderSettings {
      UploaderSettings(concurrency, chunkSize, timeout, noOfRetries, compressionFormat, accessControlAllowOrigin)
    }

    /** The options of every part request: origin, timeout and counter; no content type, no encoding, no hooks. */
    function PartOptions(): ChunkOptions {
      ChunkOptions(None, Some(timeout), None, Some(accessControlAllowOrigin), Some(noOfRetries), false, false)
    }

    /** The k-th chunk handed to `uploadChunk`: URL `pUrls[k]`, part number k + 1. */
    function DispatchOf(k: nat, body: seq<byte>, pUrls: seq<string>, fetches: seq<seq<FetchOutcome>>): Dispatch {
      var url := UrlAt(pUrls, k);
      Dispatch(url, body, k + 1, PartOptions(), FetchesFor(fetches, k))
    }

    /** Whether every chunk is the dispatch of its own index. */
    predicate DispatchedInOrder(ds: seq<Dispatch>, pUrls: seq<string>, fetches: seq<seq<FetchOutcome>>) {
      forall k :: 0 <= k < |ds| ==> ds[k] == DispatchOf(k, ds[k].body, pUrls, fetches)
    }

    /**
     * Concatenates the buffered blocks into one `Uint8Array` of their total
     * length and hands it to `uploadChunk` as chunk k.
     */
    method SendChunk(acc: seq<seq<byte>>, accLen: int, k: nat, pUrls: seq<string>, fetches: seq<seq<FetchOutcome>>)
      returns (d: Dispatch)
      requires accLen == SumTypedArrayLength(acc)
      ensures d == DispatchOf(k, Flatten(acc), pUrls, fetches)
    {
      var dataChunk := ConcatTypedArrays(acc, Some(accLen));
      assert dataChunk.Ok? && dataChunk.value[..] == dataChunk.value[..accLen];
      var body := if dataChunk.Ok? then dataChunk.value[..] else [];
      d := Dispatch(UrlAt(pUrls, k), body, k + 1, PartOptions(), FetchesFor(fetches, k));
    }

    /** The buffer: its length is tracked, and it holds less than a chunk unless empty. */
    predicate Buffered(acc: seq<seq<byte>>, accLen: int) {
      accLen == SumTypedArrayLength(acc) && (acc == [] || accLen < chunkSize)
    }

    /** The chunks sent inside the loop: each the dispatch of its index, none shorter than a chunk. */
    predicate SentInLoop(results: seq<Dispatch>, pUrls: seq<string>, fetches: seq<seq<FetchOutcome>>) {
      DispatchedInOrder(results, pUrls, fetches) && forall k :: 0 <= k < |results| ==> |results[k].body| >= chunkSize
    }

    /** A full chunk dispatched as the next index keeps the loop's record of sent chunks. */
    lemma SentOneMore(results: seq<Dispatch>, d: Dispatch, pUrls: seq<string>, fetches: seq<seq<FetchOutcome>>)
      requires SentInLoop(results, pUrls, fetches)
      requires d == DispatchOf(|results|, d.body, pUrls, fetches) && |d.body| >= chunkSize
      ensures SentInLoop(results + [d], pUrls, fetches)
    {
      var all := results + [d];
      forall k | 0 <= k < |all|
        ensures all[k] == DispatchOf(k, all[k].body, pUrls, fetches) && |all[k].body| >= chunkSize
      {
        if k < |results| {
          assert all[k] == results[k];
        }
      }
    }

    /**
     * One typed-array block read from the stream: it joins the buffer, and
     * once the buffer holds `chunkSize` bytes the buffer goes out as the
     * next chunk and is emptied.
     */
    method Absorb(acc: seq<seq<byte>>, accLen: int, results: seq<Dispatch>, bytes: seq<byte>,
                  pUrls: seq<string>, fetches: seq<seq<FetchOutcome>>, ghost read: seq<byte>)
      returns (nextAcc: seq<seq<byte>>, nextLen: int, nextResults: seq<Dispatch>)
      requires Buffered(acc, accLen) && SentInLoop(results, pUrls, fetches)
      requires Payload(results) + Flatten(acc) == read
      ensures Buffered(nextAcc, nextLen) && SentInLoop(nextResults, pUrls, fetches)
      ensures Payload(nextResults) + Flatten(nextAcc) == read + bytes
      ensures results <= nextResults && |nextResults| <= |results| + 1
      ensures SomeFailed(results) ==> SomeFailed(nextResults)
      ensures accLen + |bytes| >= chunkSize ==>
        nextAcc == [] && nextLen == 0 && nextResults == results + [DispatchOf(|results|, Flatten(acc + [bytes]), pUrls, fetches)]
      ensures accLen + |bytes| < chunkSize ==>
        nextAcc == acc + [bytes] && nextLen == accLen + |bytes| && nextResults == results
    {
      FlattenSnoc(acc, bytes);
      assert Payload(results) + (Flatten(acc) + bytes) == read + bytes;
      nextAcc := acc + [bytes];
      nextLen := accLen + |bytes|;
      nextResults := results;
      if nextLen >= chunkSize {
        var d := SendChunk(nextAcc, nextLen, |results|, pUrls, fetches);
        SendBuffered(results, nextAcc, d);
        SentOneMore(results, d, pUrls, fetches);
        nextResults := results + [d];
        SomeFailedGrows(results, nextResults);
        nextAcc := [];
        nextLen := 0;
      }
    }

    /** The end of the stream: a non-empty buffer goes out as the last chunk. */
    method Flush(acc: seq<seq<byte>>, accLen: int, results: seq<Dispatch>,
                 pUrls: seq<string>, fetches: seq<seq<FetchOutcome>>, ghost read: seq<byte>)
      returns (all: seq<Dispatch>)
      requires Buffered(acc, accLen) && SentInLoop(results, pUrls, fetches)
      requires Payload(results) + Flatten(acc) == read
      ensures DispatchedInOrder(all, pUrls, fetches) && Payload(all) == read
      ensures forall k :: 0 <= k < |all| ==>
        |all[k].body| >= chunkSize || (k == |all| - 1 && 0 < |all[k].body| < chunkSize)
      ensures results <= all && |all| <= |results| + 1
      ensures accLen > 0 ==> all == results + [DispatchOf(|results|, Flatten(acc), pUrls, fetches)]
      ensures accLen <= 0 ==> all == results
    {
      all := results;
      if accLen > 0 {
        var d := SendChunk(acc, accLen, |results|, pUrls, fetches);
        SendBuffered(results, acc, d);
        all := results + [d];
      } else {
        assert Payload(results) + Flatten(acc) == Payload(results);
      }
    }

    /**
     * What `_multipartUpload` promises on every exit: the chunks dispatched
     * are chunk 0, 1, ... in order, each at least `chunkSize` bytes except a
     * non-empty last one after the whole stream was read; their bytes are a
     * prefix of the stream's, all of it when every unit was read. It throws
     * only on a unit that is not a typed array, stops with `null` only once
     * a part has failed, and returns the list when every unit is a typed
     * array and no part fails.
     */
    predicate UploadLoopMeets(stream: seq<StreamUnit>, pUrls: seq<string>, fetches: seq<seq<FetchOutcome>>,
                              r: LoopOutcome, dispatched: seq<Dispatch>) {
      && (r.AllDispatched? ==> r.results == dispatched)
      && DispatchedInOrder(dispatched, pUrls, fetches)
      && (forall k :: 0 <= k < |dispatched| ==>
            |dispatched[k].body| >= chunkSize
            || (r.AllDispatched? && k == |dispatched| - 1 && 0 < |dispatched[k].body| < chunkSize))
      && Payload(dispatched) <= StreamBytes(stream)
      && (r.AllDispatched? ==> Payload(dispatched) == StreamBytes(stream))
      && (r.AllDispatched? ==> forall j :: 0 <= j < |stream| ==> stream[j].View?)
      && (r.UnknownDataType? ==> exists j :: 0 <= j < |stream| && stream[j].NotView?)
      && (r.ChunkFailureSeen? ==> SomeFailed(dispatched))
      && ((forall j :: 0 <= j < |stream| ==> stream[j].View?) && !SomeFailed(dispatched) ==> r.AllDispatched?)
    }

    /**
     * The loop's state after reading the first `i` units, all typed arrays:
     * the full chunks sent so far and the buffer hold exactly their bytes.
     */
    predicate ReadSoFar(stream: seq<StreamUnit>, i: int, acc: seq<seq<byte>>, accLen: int,
                        results: seq<Dispatch>, pUrls: seq<string>, fetches: seq<seq<FetchOutcome>>) {
      && 0 <= i <= |stream|
      && (forall j :: 0 <= j < i ==> stream[j].View?)
      && Buffered(acc, accLen) && SentInLoop(results, pUrls, fetches)
      && Payload(results) + Flatten(acc) == StreamBytes(stream[..i])
    }

    /** The chunks the loop has cut before reading unit `i`. */
    function ChunksBefore(stream: seq<StreamUnit>, i: int): seq<seq<byte>>
      requires 0 <= i <= |stream|
    {
      CutsOf(UnitBytes(stream[..i]), chunkSize).chunks
    }

    /** Whether part k (number k + 1) gets no response within its budget; its body plays no part. */
    predicate PartFailsAt(k: nat, fetches: seq<seq<FetchOutcome>>) {
      FirstResponse(FetchesFor(fetches, k), 0, ChunkBudget(PartOptions())).None?
    }

    /** Whether some chunk cut before unit `i` fails. */
    predicate FailedBefore(stream: seq<StreamUnit>, i: int, fetches: seq<seq<FetchOutcome>>)
      requires 0 <= i <= |stream|
    {
      exists k :: 0 <= k < |ChunksBefore(stream, i)| && PartFailsAt(k, fetches)
    }

    /**
     * Whether round `i` is one at which the loop sees a failure: it reads
     * unit `i` after typed arrays only, the settlement of a failed part
     * has been seen by then, and one of the chunks already sent did fail.
     */
    predicate FailureSeenAt(stream: seq<StreamUnit>, failureSeen: seq<bool>, fetches: seq<seq<FetchOutcome>>, i: int) {
      0 <= i <= |stream| && ViewsBefore(stream, i) && FlagAt(failureSeen, i) && FailedBefore(stream, i, fetches)
    }

    predicate NoFailureSeenBefore(stream: seq<StreamUnit>, failureSeen: seq<bool>, fetches: seq<seq<FetchOutcome>>, i: int) {
      forall i' :: 0 <= i' < i ==> !FailureSeenAt(stream, failureSeen, fetches, i')
    }

    /**
     * Where `_multipartUpload` cuts and when it stops: the chunks sent are
     * always the first chunks of the reference cutting, and all of them
     * when the list is returned. The throw comes at the first unit that is
     * not a typed array, after the chunks cut before it. `null` comes at
     * the first round at which a failure is seen, after the chunks cut
     * before it, and every round at which a failure is seen ends the loop
     * with `null`.
     */
    predicate CutsMeet(stream: seq<StreamUnit>, failureSeen: seq<bool>, fetches: seq<seq<FetchOutcome>>,
                       r: LoopOutcome, dispatched: seq<Dispatch>) {
      && Bodies(dispatched) <= Cuts(UnitBytes(stream), chunkSize)
      && (r.AllDispatched? ==> Bodies(dispatched) == Cuts(UnitBytes(stream), chunkSize))
      && (r.UnknownDataType? ==>
            exists j :: 0 <= j < |stream| && ViewsBefore(stream, j) && stream[j].NotView?
                        && Bodies(dispatched) == ChunksBefore(stream, j))
      && (r.ChunkFailureSeen? ==>
            exists i :: 0 <= i <= |stream| && FailureSeenAt(stream, failureSeen, fetches, i)
                        && NoFailureSeenBefore(stream, failureSeen, fetches, i)
                        && Bodies(dispatched) == ChunksBefore(stream, i))
      && (forall i :: 0 <= i <= |stream| && FailureSeenAt(stream, failureSeen, fetches, i) ==> r.ChunkFailureSeen?)
    }

    /** The loop's cutting state after `i` units: the chunks sent and the buffer are those of the reference. */
    predicate CutSoFar(stream: seq<StreamUnit>, i: int, acc: seq<seq<byte>>, results: seq<Dispatch>) {
      0 <= i <= |stream| && Bodies(results) == ChunksBefore(stream, i)
      && Flatten(acc) == CutsOf(UnitBytes(stream[..i]), chunkSize).rest
    }

    /** The loop's test of the settled parts finds a failure exactly when a chunk cut so far fails. */
    lemma FailedIff(stream: seq<StreamUnit>, i: int, results: seq<Dispatch>, pUrls: seq<string>, fetches: seq<seq<FetchOutcome>>)
      requires 0 <= i <= |stream| && DispatchedInOrder(results, pUrls, fetches) && Bodies(results) == ChunksBefore(stream, i)
      ensures SomeFailed(results) <==> FailedBefore(stream, i, fetches)
    {
      assert |results| == |Bodies(results)|;
      forall k | 0 <= k < |results| ensures PartFails(results[k]) <==> PartFailsAt(k, fetches) {
        assert results[k] == DispatchOf(k, results[k].body, pUrls, fetches);
      }
    }

    /** A round that goes on past the failure check is not one at which a failure is seen. */
    lemma PassRound(stream: seq<StreamUnit>, i: int, acc: seq<seq<byte>>, results: seq<Dispatch>,
                    pUrls: seq<string>, failureSeen: seq<bool>, fetches: seq<seq<FetchOutcome>>)
      requires CutSoFar(stream, i, acc, results) && DispatchedInOrder(results, pUrls, fetches)
      requires NoFailureSeenBefore(stream, failureSeen, fetches, i)
      requires !(FlagAt(failureSeen, i) && SomeFailed(results))
      ensures NoFailureSeenBefore(stream, failureSeen, fetches, i + 1)
    {
      FailedIff(stream, i, results, pUrls, fetches);
    }

    /** Absorbing unit `i` advances the loop's cutting exactly as the reference does. */
    lemma CutAbsorb(stream: seq<StreamUnit>, i: int, acc: seq<seq<byte>>, accLen: int, results: seq<Dispatch>,
                    nextAcc: seq<seq<byte>>, nextResults: seq<Dispatch>, pUrls: seq<string>, fetches: seq<seq<FetchOutcome>>)
      requires CutSoFar(stream, i, acc, results) && i < |stream| && stream[i].View? && accLen == SumTypedArrayLength(acc)
      requires accLen + |stream[i].bytes| >= chunkSize ==>
        nextAcc == [] && nextResults == results + [DispatchOf(|results|, Flatten(acc + [stream[i].bytes]), pUrls, fetches)]
      requires accLen + |stream[i].bytes| < chunkSize ==> nextAcc == acc + [stream[i].bytes] && nextResults == results
      ensures CutSoFar(stream, i + 1, nextAcc, nextResults)
    {
      UnitBytesStep(stream, i, chunkSize);
      FlattenSnoc(acc, stream[i].bytes);
      if accLen + |stream[i].bytes| >= chunkSize {
        BodiesSnoc(results, DispatchOf(|results|, Flatten(acc + [stream[i].bytes]), pUrls, fetches));
      }
    }

    /** The invariant of `_multipartUpload`'s loop at the top of round `i`. */
    predicate LoopState(stream: seq<StreamUnit>, i: int, acc: seq<seq<byte>>, accLen: int, results: seq<Dispatch>,
                        pUrls: seq<string>, failureSeen: seq<bool>, fetches: seq<seq<FetchOutcome>>) {
      && ReadSoFar(stream, i, acc, accLen, results, pUrls, fetches)
      && CutSoFar(stream, i, acc, results)
      && NoFailureSeenBefore(stream, failureSeen, fetches, i)
    }

    /** A round that absorbs a typed array leaves the loop invariant in place for the next one. */
    lemma Advance(stream: seq<StreamUnit>, i: int, acc: seq<seq<byte>>, accLen: int, results: seq<Dispatch>,
                  nextAcc: seq<seq<byte>>, nextLen: int, nextResults: seq<Dispatch>,
                  pUrls: seq<string>, failureSeen: seq<bool>, fetches: seq<seq<FetchOutcome>>)
      requires LoopState(stream, i, acc, accLen, results, pUrls, failureSeen, fetches)
      requires NoFailureSeenBefore(stream, failureSeen, fetches, i + 1)
      requires i < |stream| && stream[i].View?
      requires Buffered(nextAcc, nextLen) && SentInLoop(nextResults, pUrls, fetches)
      requires Payload(nextResults) + Flatten(nextAcc) == StreamBytes(stream[..i]) + stream[i].bytes
      requires accLen + |stream[i].bytes| >= chunkSize ==>
        nextAcc == [] && nextResults == results + [DispatchOf(|results|, Flatten(acc + [stream[i].bytes]), pUrls, fetches)]
      requires accLen + |stream[i].bytes| < chunkSize ==> nextAcc == acc + [stream[i].bytes] && nextResults == results
      ensures LoopState(stream, i + 1, nextAcc, nextLen, nextResults, pUrls, failureSeen, fetches)
    {
      StreamBytesSnoc(stream, i);
      CutAbsorb(stream, i, acc, accLen, results, nextAcc, nextResults, pUrls, fetches);
    }

    /** The exit `return null` once a failed part has been seen at round `i`. */
    lemma StopOnFailure(stream: seq<StreamUnit>, i: int, acc: seq<seq<byte>>, accLen: int,
                        results: seq<Dispatch>, pUrls: seq<string>, failureSeen: seq<bool>, fetches: seq<seq<FetchOutcome>>)
      requires ReadSoFar(stream, i, acc, accLen, results, pUrls, fetches) && SomeFailed(results)
      requires CutSoFar(stream, i, acc, results) && NoFailureSeenBefore(stream, failureSeen, fetches, i)
      requires FlagAt(failureSeen, i)
      ensures UploadLoopMeets(stream, pUrls, fetches, ChunkFailureSeen, results)
      ensures CutsMeet(stream, failureSeen, fetches, ChunkFailureSeen, results)
    {
      StreamBytesPrefix(stream, i);
      FailedIff(stream, i, results, pUrls, fetches);
      ChunksBeforeInCuts(stream, i, chunkSize);
      assert FailureSeenAt(stream, failureSeen, fetches, i);
    }

    /** The exit `throw 'Unknown data type'` at unit `i`. */
    lemma StopOnUnknownType(stream: seq<StreamUnit>, i: int, acc: seq<seq<byte>>, accLen: int,
                            results: seq<Dispatch>, pUrls: seq<string>, failureSeen: seq<bool>, fetches: seq<seq<FetchOutcome>>)
      requires ReadSoFar(stream, i, acc, accLen, results, pUrls, fetches)
      requires CutSoFar(stream, i, acc, results) && NoFailureSeenBefore(stream, failureSeen, fetches, i + 1)
      requires i < |stream| && stream[i].NotView?
      ensures UploadLoopMeets(stream, pUrls, fetches, UnknownDataType, results)
      ensures CutsMeet(stream, failureSeen, fetches, UnknownDataType, results)
    {
      StreamBytesPrefix(stream, i);
      ChunksBeforeInCuts(stream, i, chunkSize);
      assert forall i' :: 0 <= i' <= |stream| && ViewsBefore(stream, i') ==> i' <= i;
    }

    /** The exit at the end of the stream, after the last chunk has gone out. */
    lemma StopAtEnd(stream: seq<StreamUnit>, acc: seq<seq<byte>>, accLen: int, results: seq<Dispatch>, all: seq<Dispatch>,
                    pUrls: seq<string>, failureSeen: seq<bool>, fetches: seq<seq<FetchOutcome>>)
      requires ReadSoFar(stream, |stream|, acc, accLen, results, pUrls, fetches)
      requires CutSoFar(stream, |stream|, acc, results)
      requires NoFailureSeenBefore(stream, failureSeen, fetches, |stream| + 1)
      requires DispatchedInOrder(all, pUrls, fetches) && Payload(all) == StreamBytes(stream)
      requires forall k :: 0 <= k < |all| ==>
        |all[k].body| >= chunkSize || (k == |all| - 1 && 0 < |all[k].body| < chunkSize)
      requires accLen > 0 ==> all == results + [DispatchOf(|results|, Flatten(acc), pUrls, fetches)]
      requires accLen <= 0 ==> all == results
      ensures UploadLoopMeets(stream, pUrls, fetches, AllDispatched(all), all)
      ensures CutsMeet(stream, failureSeen, fetches, AllDispatched(all), all)
    {
      assert stream[..|stream|] == stream;
      if accLen > 0 {
        BodiesSnoc(results, DispatchOf(|results|, Flatten(acc), pUrls, fetches));
      }
    }

    /**
     * `_multipartUpload`: reads the stream, cuts it into chunks of at least
     * `chunkSize` bytes (only the last may be shorter, never empty), and
     * dispatches them in order. It stops with `null` at the top of a round
     * once a failed part has been seen, and throws on a unit that is not a
     * typed array. The chunks dispatched so far are returned in every case.
     */
    method MultipartUpload(stream: seq<StreamUnit>, pUrls: seq<string>, failureSeen: seq<bool>,
                           fetches: seq<seq<FetchOutcome>>)
      returns (r: LoopOutcome, dispatched: seq<Dispatch>)
      ensures UploadLoopMeets(stream, pUrls, fetches, r, dispatched)
      ensures CutsMeet(stream, failureSeen, fetches, r, dispatched)
    {
      var accumulatedChunks: seq<seq<byte>> := [];
      var accumulatedChunkLength := 0;
      var chunkUploadFailed := false;
      var results: seq<Dispatch> := [];
      var i := 0;
      while true
        invariant LoopState(stream, i, accumulatedChunks, accumulatedChunkLength, results, pUrls, failureSeen, fetches)
        invariant !chunkUploadFailed
        decreases |stream| - i
      {
        // The settlement callbacks of the parts in flight have run by now, or not.
        chunkUploadFailed := chunkUploadFailed || (FlagAt(failureSeen, i) && AnyFailed(results));
        if chunkUploadFailed {
          StopOnFailure(stream, i, accumulatedChunks, accumulatedChunkLength, results, pUrls, failureSeen, fetches);
          return ChunkFailureSeen, results;
        }
        PassRound(stream, i, accumulatedChunks, results, pUrls, failureSeen, fetches);
        if i == |stream| {
          assert stream[..i] == stream;
          var all := Flush(accumulatedChunks, accumulatedChunkLength, results, pUrls, fetches, StreamBytes(stream));
          StopAtEnd(stream, accumulatedChunks, accumulatedChunkLength, results, all, pUrls, failureSeen, fetches);
          return AllDispatched(all), all;
        }
        if stream[i].NotView? {
          StopOnUnknownType(stream, i, accumulatedChunks, accumulatedChunkLength, results, pUrls, failureSeen, fetches);
          return UnknownDataType, results;
        }
        var nextAcc, nextLen, nextResults :=
          Absorb(accumulatedChunks, accumulatedChunkLength, results, stream[i].bytes, pUrls, fetches, StreamBytes(stream[..i]));
        Advance(stream, i, accumulatedChunks, accumulatedChunkLength, results, nextAcc, nextLen, nextResults,
                pUrls, failureSeen, fetches);
        accumulatedChunks, accumulatedChunkLength, results := nextAcc, nextLen, nextResults;
        i := i + 1;
      }
    }

    /**
     * What happens after `_multipartUpload` returns: its throw propagates;
     * otherwise the upload is aborted or completed, by `Finalise`.
     */
    function WrapUp(loop: LoopOutcome, session: MultipartSession): MultipartOutcome {
      if loop.UnknownDataType? then StreamError("Unknown data type")
      else Finalise(if loop.AllDispatched? then Some(Settled(loop.results)) else None, session, accessControlAllowOrigin)
    }

    /**
     * The outcome of a multipart upload past the URL check: 'Unknown data
     * type' only for a stream holding a unit that is not a typed array; an
     * abort request exactly when some dispatched part settles to `null`;
     * otherwise the completion request, listing every part's response in
     * dispatch order after the whole stream was sent. A stream of typed
     * arrays whose parts all succeed is completed.
     */
    predicate OutcomeMeets(stream: seq<StreamUnit>, session: MultipartSession, r: MultipartOutcome, dispatched: seq<Dispatch>) {
      && (r.StreamError? ==> r.message == "Unknown data type" && exists j :: 0 <= j < |stream| && stream[j].NotView?)
      && (!r.InvalidUrls? && !r.StreamError? ==>
            (r.Aborted? <==> exists k :: 0 <= k < |dispatched| && Settle(dispatched[k]).result.None?))
      && (r.Aborted? ==>
            r.abort == BackendRequest(session.abortUrl, JsonHeaders(accessControlAllowOrigin), AbortBody(session.filePath, session.uploadId)))
      && (r.Completed? ==>
            && r.complete.url == session.completionUrl
            && r.complete.headers == JsonHeaders(accessControlAllowOrigin)
            && r.complete.body.assetPath == session.filePath
            && r.complete.body.uploadId == session.uploadId
            && |r.complete.body.multipartUploadInfo| == |dispatched|
            && (forall k :: 0 <= k < |dispatched| ==>
                  Some(r.complete.body.multipartUploadInfo[k]) == Settle(dispatched[k]).result
                  && r.complete.body.multipartUploadInfo[k].partNo == k + 1)
            && Payload(dispatched) == StreamBytes(stream))
      && ((&& !r.InvalidUrls?
           && (forall j :: 0 <= j < |stream| ==> stream[j].View?)
           && (forall k :: 0 <= k < |dispatched| ==> Settle(dispatched[k]).result.Some?)) ==> r.Completed?)
    }

    /**
     * Whatever the loop returned, the step after it meets `OutcomeMeets`;
     * the completion request lists the reference cutting of the whole
     * stream, and a failure seen at any round the loop reached ends in the
     * abort request.
     */
    lemma WrapUpMeets(stream: seq<StreamUnit>, pUrls: seq<string>, failureSeen: seq<bool>, fetches: seq<seq<FetchOutcome>>,
                      session: MultipartSession, loop: LoopOutcome, dispatched: seq<Dispatch>)
      requires UploadLoopMeets(stream, pUrls, fetches, loop, dispatched)
      requires CutsMeet(stream, failureSeen, fetches, loop, dispatched)
      ensures OutcomeMeets(stream, session, WrapUp(loop, session), dispatched)
      ensures WrapUp(loop, session).Completed? ==> Bodies(dispatched) == Cuts(UnitBytes(stream), chunkSize)
      ensures forall i :: 0 <= i <= |stream| && FailureSeenAt(stream, failureSeen, fetches, i) ==> WrapUp(loop, session).Aborted?
    {
      forall k | 0 <= k < |dispatched|
        ensures Settle(dispatched[k]).result.None? <==> PartFails(dispatched[k])
        ensures Settle(dispatched[k]).result.Some? ==> Settle(dispatched[k]).result.value.partNo == k + 1
      {
        SettleFails(dispatched[k]);
      }
    }

    /** What the upload promises once the URL check has passed and the loop has run. */
    lemma PastUrlCheck(fileSize: nat, pUrls: seq<string>, session: MultipartSession, stream: seq<StreamUnit>,
                       failureSeen: seq<bool>, fetches: seq<seq<FetchOutcome>>, loop: LoopOutcome, dispatched: seq<Dispatch>)
      requires |pUrls| > CeilDiv(fileSize, chunkSize)
      requires UploadLoopMeets(stream, pUrls, fetches, loop, dispatched)
      requires CutsMeet(stream, failureSeen, fetches, loop, dispatched)
      ensures var r := WrapUp(loop, session);
        && !r.InvalidUrls?
        && (chunkSize > 0 && |StreamBytes(stream)| <= fileSize ==> forall k :: 0 <= k < |dispatched| ==> dispatched[k].url.Some?)
        && OutcomeMeets(stream, session, r, dispatched)
        && (r.Completed? ==> Bodies(dispatched) == Cuts(UnitBytes(stream), chunkSize))
        && (r.Completed? && chunkSize > 0 && (forall j :: 0 <= j < |stream| ==> |UnitOf(stream[j])| == chunkSize) ==>
              Bodies(dispatched) == UnitBytes(stream))
        && forall i :: 0 <= i <= |stream| && FailureSeenAt(stream, failureSeen, fetches, i) ==> r.Aborted?
    {
      if chunkSize > 0 && |StreamBytes(stream)| <= fileSize {
        PayloadPrefixLength(Payload(dispatched), StreamBytes(stream));
        PartUrlsDefined(fileSize, pUrls, dispatched, chunkSize);
      }
      WrapUpMeets(stream, pUrls, failureSeen, fetches, session, loop, dispatched);
      if chunkSize > 0 && forall j :: 0 <= j < |stream| ==> |UnitOf(stream[j])| == chunkSize {
        ExactUnits(UnitBytes(stream), chunkSize);
      }
    }

    /**
     * `multipartUploadWithPresignedUrls`: refuses, before reading anything,
     * a URL list not longer than `Math.ceil(file.size / chunkSize)`; then
     * runs the loop and either aborts or completes the upload. Part k goes
     * to URL k, and has one when the stream is no longer than the file's
     * declared size and the chunk size is positive.
     */
    method MultipartUploadWithPresignedUrls(fileSize: nat, pUrls: seq<string>, session: MultipartSession,
                                            stream: seq<StreamUnit>, failureSeen: seq<bool>,
                                            fetches: seq<seq<FetchOutcome>>)
      returns (r: MultipartOutcome, dispatched: seq<Dispatch>)
      ensures r.InvalidUrls? <==> |pUrls| <= CeilDiv(fileSize, chunkSize)
      ensures r.InvalidUrls? ==> r.exception == NewFileUploadException("Invalid presigned urls.", Some(BadRequest)) && dispatched == []
      ensures forall k :: 0 <= k < |dispatched| ==> dispatched[k] == DispatchOf(k, dispatched[k].body, pUrls, fetches)
      ensures Payload(dispatched) <= StreamBytes(stream)
      ensures chunkSize > 0 && |StreamBytes(stream)| <= fileSize ==> forall k :: 0 <= k < |dispatched| ==> dispatched[k].url.Some?
      ensures OutcomeMeets(stream, session, r, dispatched)
      ensures Bodies(dispatched) <= Cuts(UnitBytes(stream), chunkSize)
      ensures r.Completed? ==> Bodies(dispatched) == Cuts(UnitBytes(stream), chunkSize)
      ensures r.Completed? && chunkSize > 0 && (forall j :: 0 <= j < |stream| ==> |UnitOf(stream[j])| == chunkSize) ==>
        Bodies(dispatched) == UnitBytes(stream)
      ensures !r.InvalidUrls? ==>
        forall i :: 0 <= i <= |stream| && FailureSeenAt(stream, failureSeen, fetches, i) ==> r.Aborted?
    {
      var estimatedNumberOfPresignedUrls := CeilDiv(fileSize, chunkSize);
      if |pUrls| <= estimatedNumberOfPresignedUrls {
        return InvalidUrls(NewFileUploadException("Invalid presigned urls.", Some(BadRequest))), [];
      }
      var loop;
      loop, dispatched := MultipartUpload(stream, pUrls, failureSeen, fetches);
      PastUrlCheck(fileSize, pUrls, session, stream, failureSeen, fetches, loop, dispatched);
      r := WrapUp(loop, session);
    }

    /** The options of a single-file upload: the file's type as content type, nothing else. */
    function SingleFileOptions(file: FileBlob): BufferOptions {
      BufferOptions(Some(file.mimeType), None, None, None, None, false, false)
    }

    /**
     * `uploadWithPresignedUrl`: an empty URL throws; otherwise the raw
     * content goes out through `uploadBuffer`, at most four times, with the
     * file's type and no encoding, and the first response is the result.
     */
    function UploadWithPresignedUrl(file: FileBlob, presignedUrl: string, fetches: seq<FetchOutcome>)
      : (r: Result<Transfer<Response>, FileUploadException>)
      ensures r.Err? <==> presignedUrl == ""
      ensures r.Err? ==> r.error == NewFileUploadException("Invalid presigned url.", Some(BadRequest))
      ensures r.Ok? ==> r.value == UploadBuffer(presignedUrl, file.content, SingleFileOptions(file), fetches)
      ensures r.Ok? ==> 1 <= Sends(r.value.trace) <= 4
      ensures r.Ok? ==> (r.value.result.Some? <==> FirstResponse(fetches, 0, 4).Some?)
      ensures r.Ok? && r.value.result.Some? ==> r.value.result == Some(FetchAt(fetches, FirstResponse(fetches, 0, 4).value).response)
    {
      if presignedUrl == "" then
        Err(NewFileUploadException("Invalid presigned url.", Some(BadRequest)))
      else
        UploadBufferAttempts(presignedUrl, file.content, SingleFileOptions(file), fetches);
        Ok(UploadBuffer(presignedUrl, file.content, SingleFileOptions(file), fetches))
    }

    /**
     * The object `getDefined` builds for one file of a batch: a timeout
     * (89000 ms unless given), the file's type, the origin, and an encoding
     * unless compression is off for the call or, absent from the call, for
     * the instance.
     */
    function BatchRequestOptions(options: Option<BatchOptions>, file: FileBlob): (obj: map<string, JsValue>)
      ensures var o := options.GetOr(BatchOptions(None, Undefined, None));
        && obj.Keys <= {"timeout", "contentType", "contentEncoding", "accessControlAllowedOrigin"}
        && "timeout" in obj && obj["timeout"] == Num(o.timeout.GetOr(89000))
        && "contentType" in obj && obj["contentType"] == Str(file.mimeType)
        && "accessControlAllowedOrigin" in obj && obj["accessControlAllowedOrigin"] == Str(accessControlAllowOrigin)
        && ("contentEncoding" in obj <==> o.compressionFormat.Defined? || (o.compressionFormat.Undefined? && compressionFormat.Some?))
        && (o.compressionFormat.Defined? ==> obj["contentEncoding"] == Str(o.compressionFormat.value))
        && (o.compressionFormat.Undefined? && compressionFormat.Some? ==> obj["contentEncoding"] == Str(compressionFormat.value))
    {
      var o := options.GetOr(BatchOptions(None, Undefined, None));
      var encoding := match o.compressionFormat
        case Null => NullValue
        case Defined(f) => Str(f)
        case Undefined => if compressionFormat.Some? then Str(compressionFormat.value) else NullValue;
      var obj := map[
        "timeout" := Num(o.timeout.GetOr(89 * 1000)),
        "contentType" := Str(file.mimeType),
        "contentEncoding" := encoding,
        "accessControlAllowedOrigin" := Str(accessControlAllowOrigin)];
      assert obj.Keys == {"timeout", "contentType", "contentEncoding", "accessControlAllowedOrigin"};
      assert obj["timeout"] == Num(o.timeout.GetOr(89000)) && obj["contentType"] == Str(file.mimeType);
      assert obj["contentEncoding"] == encoding && obj["accessControlAllowedOrigin"] == Str(accessControlAllowOrigin);
      DefinedEntries(obj)
    }

    /** The options object the call hands to `uploadBuffer`. */
    function RequestOptions(u: FileUpload): map<string, JsValue> {
      BatchRequestOptions(u.batchOptions, u.info.file)
    }

    /** What the call does: `uploadBuffer` on the entry's URL and raw content. */
    function UploadOutcome(u: FileUpload): Transfer<Response> {
      UploadBuffer(u.info.presignedUrl, u.info.file.content, ToBufferOptions(RequestOptions(u)), u.fetches)
    }

    /** `{[name]: 100}`, reported once the call yields a response, for a file with a non-empty name. */
    function ProgressReport(u: FileUpload): (report: Option<map<string, int>>)
      ensures report.Some? <==> UploadOutcome(u).result.Some? && u.info.file.name != ""
      ensures report.Some? ==> report.value == map[u.info.file.name := 100]
    {
      if UploadOutcome(u).result.Some? && u.info.file.name != "" then Some(map[u.info.file.name := 100]) else None
    }

    /**
     * Each request of a batch upload goes to the entry's URL with the
     * file's type as content type, a `content-encoding` header exactly when
     * the options object carries an encoding, and the batch timeout. The
     * options carry no counter, so a file is tried at most four times.
     */
    lemma BatchRequests(u: FileUpload)
      ensures "content-type" in BatchHeaders(u) && BatchHeaders(u)["content-type"] == Str(u.info.file.mimeType)
      ensures var o := u.batchOptions.GetOr(BatchOptions(None, Undefined, None));
        "content-encoding" in BatchHeaders(u) <==>
          o.compressionFormat.Defined? || (o.compressionFormat.Undefined? && compressionFormat.Some?)
      ensures ToBufferOptions(RequestOptions(u)).timeout == Some(u.batchOptions.GetOr(BatchOptions(None, Undefined, None)).timeout.GetOr(89000))
      ensures Sends(UploadOutcome(u).trace) <= 4
      ensures forall i :: 0 <= i < |UploadOutcome(u).trace| && UploadOutcome(u).trace[i].Sent? ==>
        UploadOutcome(u).trace[i].request
          == Request(Some(u.info.presignedUrl), u.info.file.content, BatchHeaders(u), ToBufferOptions(RequestOptions(u)).timeout)
    {
      var options := ToBufferOptions(RequestOptions(u));
      UploadBufferAttempts(u.info.presignedUrl, u.info.file.content, options, u.fetches);
      BufferRequests(u.info.presignedUrl, u.info.file.content, options, u.fetches, 0);
      assert var t := BufferAttempt(u.info.presignedUrl, u.info.file.content, options, u.fetches, 0);
        forall i :: 0 <= i < |t.trace| && t.trace[i].Sent? ==>
          t.trace[i].request == Request(Some(u.info.presignedUrl), u.info.file.content, BufferHeaders(options), options.timeout);
    }

    /** The headers of every request of a batch upload. */
    function BatchHeaders(u: FileUpload): map<string, JsValue> {
      BufferHeaders(ToBufferOptions(RequestOptions(u)))
    }

    /**
     * A part is tried `noOfRetries + 1` times, so never just once (a 0
     * counter became 3); a negative counter sends no request at all and
     * every part fails.
     */
    lemma PartBudget(k: nat, body: seq<byte>, pUrls: seq<string>, fetches: seq<seq<FetchOutcome>>)
      ensures ChunkBudget(DispatchOf(k, body, pUrls, fetches).options) == if noOfRetries < 0 then 0 else noOfRetries + 1
      ensures ChunkBudget(DispatchOf(k, body, pUrls, fetches).options) != 1
      ensures noOfRetries < 0 ==>
        PartFails(DispatchOf(k, body, pUrls, fetches)) && Settle(DispatchOf(k, body, pUrls, fetches)).trace == []
    {
      var d := DispatchOf(k, body, pUrls, fetches);
      UploadChunkHooks(d.url, d.body, d.partNo, Some(d.options), d.fetches);
    }

    /**
     * `startBufferedFilesUpload`: drains the caller's list with `shift()`.
     * An empty list yields `null`. Otherwise the first progress report
     * lists the entries left after the first `shift()`, and every entry is
     * uploaded through `uploadBuffer`, in order.
     */
    method StartBufferedFilesUpload(fileInfo: FileInfoList, options: Option<BatchOptions>,
                                    fetches: seq<seq<FetchOutcome>>)
      returns (r: Option<BatchRun>)
      modifies fileInfo
      ensures fileInfo.items == []
      ensures r.None? <==> old(fileInfo.items) == []
      ensures r.Some? ==> r.value.initialProgress == ProgressMap(old(fileInfo.items)[1..])
      ensures r.Some? ==> |r.value.uploads| == |old(fileInfo.items)|
      ensures r.Some? ==> forall k :: 0 <= k < |r.value.uploads| ==>
        r.value.uploads[k] == FileUpload(old(fileInfo.items)[k], options, FetchesFor(fetches, k))
    {
      ghost var all := fileInfo.items;
      var eachFileInfo := fileInfo.Shift();
      if eachFileInfo.None? {
        return None;
      }
      var progress := ProgressMap(fileInfo.items);
      var uploads: seq<FileUpload> := [];
      while eachFileInfo.Some?
        invariant |uploads| <= |all|
        invariant eachFileInfo.Some? ==>
          |uploads| < |all| && eachFileInfo.value == all[|uploads|] && fileInfo.items == all[|uploads| + 1..]
        invariant eachFileInfo.None? ==> |uploads| == |all| && fileInfo.items == []
        invariant forall k :: 0 <= k < |uploads| ==> uploads[k] == FileUpload(all[k], options, FetchesFor(fetches, k))
        decreases |fileInfo.items| + (if eachFileInfo.Some? then 1 else 0)
      {
        ghost var done := uploads;
        var upload := FileUpload(eachFileInfo.value, options, FetchesFor(fetches, |uploads|));
        assert upload == FileUpload(all[|done|], options, FetchesFor(fetches, |done|));
        uploads := uploads + [upload];
        assert forall k :: 0 <= k < |done| ==> uploads[k] == done[k];
        eachFileInfo := fileInfo.Shift();
      }
      return Some(BatchRun(progress, uploads));
    }
  }

  /** Whether some dispatched part fails. */
  predicate SomeFailed(ds: seq<Dispatch>) {
    exists k :: 0 <= k < |ds| && PartFails(ds[k])
  }

  /** A failed part stays failed as more parts are dispatched after it. */
  lemma SomeFailedGrows(before: seq<Dispatch>, after: seq<Dispatch>)
    requires before <= after
    ensures SomeFailed(before) ==> SomeFailed(after)
  {
    if SomeFailed(before) {
      var k :| 0 <= k < |before| && PartFails(before[k]);
      assert after[k] == before[k];
    }
  }

  /** Whether a settlement callback has found `!result` among the given parts. */
  function AnyFailed(ds: seq<Dispatch>): (b: bool)
    ensures b <==> SomeFailed(ds)
  {
    if ds == [] then false else PartFails(ds[|ds| - 1]) || AnyFailed(ds[..|ds| - 1])
  }

  /** Sending the buffer as one chunk moves its bytes from the buffer to the payload. */
  lemma SendBuffered(results: seq<Dispatch>, acc: seq<seq<byte>>, d: Dispatch)
    requires d.body == Flatten(acc)
    ensures Payload(results + [d]) + Flatten([]) == Payload(results) + Flatten(acc)
  {
    PayloadSnoc(results, d);
    assert Payload(results + [d]) + [] == Payload(results + [d]);
  }

  /** Chunks of at least c bytes each add up to at least c bytes per chunk. */
  lemma {:induction false} FullChunks(ds: seq<Dispatch>, c: int)
    requires forall k :: 0 <= k < |ds| ==> |ds[k].body| >= c
    ensures |Payload(ds)| >= |ds| * c
  {
    if ds != [] {
      FullChunks(ds[..|ds| - 1], c);
    }
  }

  /** With full chunks and a non-empty last one, there are fewer than `ceil(payload / c) + 1` chunks. */
  lemma ChunkCount(ds: seq<Dispatch>, c: int)
    requires c > 0
    requires forall k :: 0 <= k < |ds| ==> |ds[k].body| >= c || (k == |ds| - 1 && 0 < |ds[k].body|)
    ensures |ds| <= CeilDiv(|Payload(ds)|, c)
  {
    if ds != [] {
      var prefix := ds[..|ds| - 1];
      FullChunks(prefix, c);
      var q := CeilDiv(|Payload(ds)|, c);
      CeilDivBounds(|Payload(ds)|, c);
      assert (|ds| - 1) * c < |Payload(ds)| <= q * c;
      MulCancel(|ds| - 1, q, c);
    }
  }

  lemma MulMonotone(a: int, b: int, c: int)
    requires a <= b && c > 0
    ensures a * c <= b * c
  {
  }

  lemma MulCancel(a: int, b: int, c: int)
    requires c > 0 && a * c < b * c
    ensures a < b
  {
    if a >= b {
      MulMonotone(b, a, c);
      assert false;
    }
  }

  lemma PayloadPrefixLength(a: seq<byte>, b: seq<byte>)
    requires a <= b
    ensures |a| <= |b|
  {
  }

  /**
   * When the stream yields no more bytes than the file holds, a URL list
   * that passes the check beside `Math.ceil(file.size / chunkSize)` has
   * a URL for every chunk the loop cuts.
   */
  lemma PartUrlsDefined(fileSize: nat, pUrls: seq<string>, ds: seq<Dispatch>, c: int)
    requires c > 0 && |Payload(ds)| <= fileSize && |pUrls| > CeilDiv(fileSize, c)
    requires forall k :: 0 <= k < |ds| ==> ds[k].url == UrlAt(pUrls, k)
    requires forall k :: 0 <= k < |ds| ==> |ds[k].body| >= c || (k == |ds| - 1 && 0 < |ds[k].body|)
    ensures forall k :: 0 <= k < |ds| ==> ds[k].url.Some?
  {
    ChunkCount(ds, c);
    CeilDivMonotone(|Payload(ds)|, fileSize, c);
  }

  lemma CeilDivMonotone(a: int, b: int, c: int)
    requires a <= b && c > 0
    ensures CeilDiv(a, c) <= CeilDiv(b, c)
  {
    var qa, qb := CeilDiv(a, c), CeilDiv(b, c);
    CeilDivBounds(a, c);
    CeilDivBounds(b, c);
    assert (qa - 1) * c < a <= b <= qb * c;
    MulCancel(qa - 1, qb, c);
  }

  lemma PayloadSnoc(ds: seq<Dispatch>, d: Dispatch)
    ensures Payload(ds + [d]) == Payload(ds) + d.body
  {
    assert (ds + [d])[..|ds|] == ds;
  }

  lemma StreamBytesSnoc(stream: seq<StreamUnit>, i: nat)
    requires i < |stream| && stream[i].View?
    ensures StreamBytes(stream[..i + 1]) == StreamBytes(stream[..i]) + stream[i].bytes
  {
    assert stream[..i + 1][..i] == stream[..i];
  }

  /** What has been read is a prefix of all the stream yields. */
  lemma {:induction false} StreamBytesPrefix(stream: seq<StreamUnit>, i: nat)
    requires i <= |stream|
    ensures StreamBytes(stream[..i]) <= StreamBytes(stream)
    decreases |stream| - i
  {
    if i < |stream| {
      StreamBytesPrefix(stream, i + 1);
      assert stream[..i + 1][..i] == stream[..i];
    } else {
      assert stream[..i] == stream;
    }
  }
}
