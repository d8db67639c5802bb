# S3Flex in Dafny

S3Flex uploads files to S3-compatible storage through presigned URLs. This
project models its core in Dafny and proves properties of that model.

- `S3FlexClient` (`s3flex_client.dfy`) is the URL provider. It resolves its
  settings from a config object or the environment and caches the
  account's buckets. For a multipart upload it works out how many part
  URLs to sign, names the object key, and sets the content headers each
  part is signed for.
- `S3FlexBase` (`base_s3flex.dfy`) provides the two transfer primitives.
  Both are a PUT with bounded retry, where each retry calls the primitive
  again with a smaller counter.
  - `uploadChunk` sends one part of a multipart upload.
  - `uploadBuffer` sends a whole file.
- `PresignedUploader` (`presigned_uploader.dfy`) does the uploading.
  - A multipart upload reads the file's stream, cuts it into chunks of at
    least `chunkSize` bytes, and sends chunk k to part URL k. It then asks
    the backend to complete the upload, or to abort it when a part failed.
  - A single file goes out in one PUT.
  - A batch of files is drained from the caller's list, one `uploadBuffer`
    per file, with progress reports.
- The utility modules (`array_util.dfy`, `byte_util.dfy`, `number_util.dfy`,
  `object_util.dfy`, `path_util.dfy`) and the two exception types
  (`exceptions.dfy`) model the helpers the source relies on.
- `Compatibility` (`compatibility.dfy`) relates the client's URL count to
  the check the uploader makes on it.

Some things the program gets from outside are inputs to the model instead:

- Each `fetch` attempt is one outcome in a list: a response, a
  `TimeoutError` abort, or another rejection.
- The stream is the list of units its reader yields.
- A presigned URL is represented by what it authorizes.
- The moments at which the upload loop sees a failed part's settlement are
  a list of flags. A flag is only honoured once a dispatched part has
  actually failed.

Transfers return their settled value together with a trace of requests sent
and hooks called, so retry and hook behaviour can be stated.

JavaScript semantics that the source relies on are written out explicitly:

- `||` against `??`: 0 and `''` are falsy, so `||` replaces them while `??`
  and destructuring defaults do not.
- `Math.ceil` of a quotient (`CeilDiv`, for either sign of the divisor),
  with division by 0 giving `Infinity` or `NaN` in the part planner.
- Indexing past the end of an array gives `undefined`.
- A promise returned without `await` inside a `try` is not caught by it.

Where the code and its documentation disagree, the model follows the code:

- `fetch` resolves on any HTTP status, so a 4xx/5xx response counts as a
  success. No status is inspected.
- `uploadBuffer` never calls `onTimeoutError`; its `TimeoutError` branch is
  empty.
- The number of chunks is at most `ceil(size / chunkSize)`, not always
  equal to it. It can be smaller because a stream unit may push the buffer
  well past `chunkSize` (`PresignedUpload.ChunkCount`).
- The "Cannot allow parts > 10000" error of `getUploadPresignedUrls`
  escapes its `try` unwrapped.
- The first progress report of a batch leaves out the first file, because
  the report is built after the first `shift()`.
- `uploadBuffer` does not send the `access-control-allow-origin` header,
  even though the batch passes it an origin.
- Part requests carry no content type and no encoding.
- The abort and completion requests are `fetch` promises returned without
  `await` inside a `try`, so when that `fetch` rejects, the `catch` never
  runs and `multipartUploadWithPresignedUrls` rejects as well
  (`src/upload/presignedUploader.ts:239-251` and `324-353`). The `.then`
  attached to the completion promise has no `catch` either.
- The client's default part size (16 MiB) and the uploader's default chunk
  size (2 MiB) disagree, so with both defaults a file over 2 MiB is
  refused (`Compatibility.DefaultChunkSizesDisagree`).

## Model

| member | source | states |
|---|---|---|
| JsCommon.NumberOr | src/upload/presignedUploader.ts:51-58 | `value \|\| default` on a number gives the default for an absent value and for 0, and the value itself otherwise |
| JsCommon.StringOr | src/upload/presignedUploader.ts:55-56 | `value \|\| default` on a string gives the default for an absent or empty string, and the string otherwise |
| JsCommon.CeilDivBounds | src/upload/presignedUploader.ts:293-295 | `CeilDiv(a, b)` is `Math.ceil(a / b)`: for b > 0 it is the q with (q-1)·b < a ≤ q·b, and for b < 0 the mirror bounds hold |
| Exceptions.NewFileUploadException | src/common/exceptions/FileUploadException.ts:4-9 | the name is 'FileUploadException' and the message is kept; a non-zero code is kept, an absent or 0 code becomes 500, so the code is never 0 |
| Exceptions.NewTimeoutException | src/common/exceptions/TimeoutException.ts:4-9 | the name is 'TimeoutException' and the message is kept; a given code is kept (0 included), and 408 applies only when the code is omitted |
| Exceptions.ZeroCodeDefaults | src/common/exceptions/TimeoutException.ts:4-8 | an explicit 0 code becomes 500 in a FileUploadException but stays 0 in a TimeoutException |
| NumberUtil.GetDefinedNumber | src/utils/number.util.ts:7-13 | an undefined value gives the default (0 when no default is given); any defined value, including 0 and negatives, is returned unchanged |
| NumberUtil.GetDefinedNumberIdempotent | src/utils/number.util.ts:7-13 | passing the result through again, with any default, returns it unchanged |
| NumberUtil.DefinedNumberVersusOr | src/utils/number.util.ts:8-12 | `getDefinedNumber` and `\|\|` agree exactly when the value is not 0 or the default is 0 |
| PathUtil.DefinedS3Key | src/utils/path.util.ts:1-7 | the key ends with the file name; a non-empty path gives path, '/', file name; an absent or empty path gives the bare file name |
| PathUtil.DefinedS3KeyInjective | src/utils/path.util.ts:2-4 | for non-empty folders and file names of equal length, equal keys mean equal file names and equal folders |
| ArrayUtil.IsNullArray | src/utils/array.util.ts:5-7 | true exactly when every element is null (so true for `[]`) |
| ArrayUtil.GetNonNullItems | src/utils/array.util.ts:9-11 | every kept item is a non-null element of the input, every non-null element is kept, and the result is no longer than the input |
| ArrayUtil.GetNonNullItemsAppend | src/utils/array.util.ts:9-11 | the filter distributes over concatenation, so order is kept |
| ArrayUtil.GetNonNullItemsAllPresent | src/utils/array.util.ts:9-11 | on an array without null, the result is the input unwrapped element by element |
| ArrayUtil.GetNullIndex | src/utils/array.util.ts:13-15 | -1 exactly when no element is null; otherwise the index of the first null |
| ArrayUtil.IsIncluded | src/utils/array.util.ts:17-19 | -1 exactly when the value is absent; otherwise the index of its first occurrence |
| ByteUtil.SumTypedArrayLength | src/utils/byte.util.ts:3-5 | the sum equals the length of the in-order concatenation of the arrays |
| ByteUtil.FlattenAppend | src/utils/byte.util.ts:14-20 | concatenating two lists of arrays concatenates their contents |
| ByteUtil.FlattenSnoc | src/utils/byte.util.ts:14-20 | appending one array appends its bytes |
| ByteUtil.SumPrefixBounded | src/utils/byte.util.ts:3-5 | the length of any prefix of the arrays is at most the total |
| ByteUtil.FlattenOffsets | src/utils/byte.util.ts:13-20 | byte j of array idx lands at offset (sum of the earlier lengths) + j |
| ByteUtil.Set | src/utils/byte.util.ts:18 | `TypedArray.set`: when the item fits at the offset it is written there and every other byte is unchanged; otherwise it throws and nothing changes |
| ByteUtil.ConcatTypedArrays | src/utils/byte.util.ts:7-23 | throws a RangeError exactly when a given length is below the total; otherwise the result has length `accLen ?? total`, its first total bytes are the concatenation, and the rest are 0 |
| ObjectUtil.DefinedEntries | src/utils/object.util.ts:5-20 | the keys are a subset of the input's, kept values are unchanged and defined, and every defined entry is kept |
| ObjectUtil.GetDefined | src/utils/object.util.ts:8-19 | the reduce over the entries builds exactly `DefinedEntries` of the object |
| ObjectUtil.DefinedEntriesIdempotent | src/utils/object.util.ts:5-20 | applying `getDefined` twice changes nothing more |
| ObjectUtil.DefinedEntriesKeepsFalsy | src/utils/object.util.ts:10 | 0, '' and false survive, since only null and undefined are dropped |
| ObjectUtil.DefinedEntriesDrops | src/utils/object.util.ts:10 | null and undefined entries are dropped |
| ObjectUtil.GetDefinedEnv | src/utils/object.util.ts:26-34 | returns the value exactly when the variable is set and non-empty; otherwise throws 'Error!! Required env: KEY is not defined.' |
| S3FlexBase.FirstResponse | src/upload/base.s3flex.ts:58-77 | the first attempt in [from, bound) that gets a response: it responds, and no attempt before it does; None means no attempt in range responds |
| S3FlexBase.FirstResponseStep | src/upload/base.s3flex.ts:78-96 | a failed attempt in range passes the search to the next attempt |
| S3FlexBase.CountsAppend | src/upload/base.s3flex.ts:85-96 | request and hook counts add up over concatenated traces |
| S3FlexBase.ChunkRetryOptions | src/upload/base.s3flex.ts:89-95 | the retry keeps the content type, the encoding, the origin and the timeout, always carries a counter, and drops both hooks |
| S3FlexBase.ChunkFailureHooks | src/upload/base.s3flex.ts:78-83 | the hooks called after a failed attempt send no request |
| S3FlexBase.ChunkAttemptWithoutHooks | src/upload/base.s3flex.ts:85-96 | a call without hooks records nothing but requests, all identical (same URL, body, headers and timeout) |
| S3FlexBase.ChunkAttemptBudget | src/upload/base.s3flex.ts:54-97 | a result exactly when an attempt within the budget responds; the result is that first response's ETag ('' when absent) and the part number, after one request per attempt up to it; when all fail, exactly the budget is sent |
| S3FlexBase.UploadChunkAttempts | src/upload/base.s3flex.ts:40-98 | the same statement from the top-level call, with the default options `{noOfRetries: 3}` |
| S3FlexBase.UploadChunkHooks | src/upload/base.s3flex.ts:54-96 | the trace is empty exactly on the early return for a negative counter, which gives null; `onTimeoutError` is called once when given and the first attempt timed out, else never; `onBeforeRetry` once when given and the first attempt failed, else never |
| S3FlexBase.ChunkDefaults | src/upload/base.s3flex.ts:52-94 | options without a counter allow one attempt; omitted options allow four |
| S3FlexBase.BufferHeaders | src/upload/base.s3flex.ts:119-122 | only content-type and content-encoding, each present exactly when given |
| S3FlexBase.BufferAttemptBudget | src/upload/base.s3flex.ts:105-136 | the trace is empty exactly when the counter is negative; a result exactly when an attempt within the budget responds, and it is that response unchanged, after one request per attempt up to it; when all fail, exactly the budget is sent |
| S3FlexBase.BufferAttemptHooks | src/upload/base.s3flex.ts:126-135 | `onTimeoutError` is never called; when given, `onBeforeRetry` is called once per failed attempt |
| S3FlexBase.BufferRequests | src/upload/base.s3flex.ts:111-135 | every attempt sends the same request: URL, body, headers and timeout |
| S3FlexBase.UploadBufferAttempts | src/upload/base.s3flex.ts:100-137 | the budget and hook statements for the top-level call |
| S3FlexBase.BufferDefaults | src/upload/base.s3flex.ts:105 | an absent counter allows four attempts; a counter of 0 allows one |
| S3FlexBase.Base.Configure | src/upload/base.s3flex.ts:32-34 | the client is replaced by a fresh one built from the config; when that construction throws, the old client stays |
| S3FlexBase.NewBase | src/upload/base.s3flex.ts:28-30 | the client is built from the environment alone; it fails exactly when a setting is missing there, with that setting's error; otherwise the client holds the settings resolved from the environment and has no bucket cache |
| S3FlexClient.Setting | src/client/s3FlexClient.ts:41-48 | a non-empty configured value wins; otherwise the environment lookup decides |
| S3FlexClient.ResolveSettings | src/client/s3FlexClient.ts:39-50 | succeeds exactly when all four settings resolve, with each field from its own setting; otherwise the error is that of the first missing one, in evaluation order |
| S3FlexClient.LastWithName | src/client/s3FlexClient.ts:60-79 | the index of the last bucket with that name and a creation date, or -1 exactly when there is none |
| S3FlexClient.BucketMapEntries | src/client/s3FlexClient.ts:60-79 | the map has an entry for a name exactly when some listed bucket has that name and a creation date, and the entry comes from the last such bucket |
| S3FlexClient.BucketMapKeys | src/client/s3FlexClient.ts:60-79 | every listable bucket's name is a key |
| S3FlexClient.MaxNoOfPartsBounds | src/client/s3FlexClient.ts:186 | for a positive chunk size the count n is at least 1 and (n-2)·chunkSize < fileSize ≤ (n-1)·chunkSize: one more than the chunks the file needs; an empty file gets 1 |
| S3FlexClient.AssetFileName | src/client/s3FlexClient.ts:182-184 | for a given file name, the key is `definedS3Key(fileName, folderName)` |
| S3FlexClient.PartParams | src/client/s3FlexClient.ts:209-215 | ContentType is always present (octet-stream by default); ContentEncoding is absent exactly for an explicit null, 'gzip' when omitted, and as given otherwise |
| S3FlexClient.GetMultiPartsUploadPresignedUrls | src/client/s3FlexClient.ts:163-229 | throws 'Cannot allow parts > 10000' exactly when the planned count exceeds 10000 (an infinite count too, NaN not); otherwise one URL per planned part (at most 10000), the i-th for part i+1, with the key, upload id, parameters and expiry |
| S3FlexClient.GetFileUploadPresignedUrls | src/client/s3FlexClient.ts:146-161 | one URL per file name, in order, each valid for 240 s |
| S3FlexClient.GetUploadPresignedUrls | src/client/s3FlexClient.ts:96-139 | several paths in multipart mode are wrapped into a FileUploadException with code 500; a falsy size gives `[]`; the part-count error escapes unwrapped; otherwise part URLs for the one path, each for the given bucket and upload id, numbered 1..n, valid 240 s and signed with the default content type and `gzip` encoding; or single URLs when not multipart |
| S3FlexClient.Client.constructor | src/client/s3FlexClient.ts:37-50 | the settings are as given and nothing is cached |
| S3FlexClient.Client.SetBucketInfo | src/client/s3FlexClient.ts:86-88 | the cache becomes the given value |
| S3FlexClient.Client.GetAvailableBuckets | src/client/s3FlexClient.ts:55-84 | a cached map is returned unchanged; otherwise the reduced listing (absent without `Buckets`) is cached and returned |
| S3FlexClient.NewClient | src/client/s3FlexClient.ts:39-53 | fails exactly when the settings do not resolve, with their error; otherwise a fresh client holding them with an empty cache |
| PresignedUpload.ResolveCompression | src/upload/presignedUploader.ts:46-49 | compression is off exactly for an explicit null; 'gzip' when omitted; a non-empty format is kept |
| PresignedUpload.ResolveUploaderOptions | src/upload/presignedUploader.ts:46-58 | concurrency 4, chunk size 2 MiB, timeout 5000, retries 3 unless given non-zero; origin '*' unless given non-empty; compression as resolved |
| PresignedUpload.PresignedUploader.constructor | src/upload/presignedUploader.ts:43-59 | the instance settings are those resolved from the options, and the base is the one `super()` built |
| PresignedUpload.NewPresignedUploader | src/upload/presignedUploader.ts:43-59 | `new PresignedUploader(options)` throws exactly when `super()` cannot build the client from the environment, with that error; otherwise the uploader has the settings resolved from the options and a fresh base whose client holds the environment's settings and no bucket cache |
| PresignedUpload.SettleFails | src/upload/presignedUploader.ts:184-194 | a dispatched part settles to null exactly when no attempt within its budget responds; otherwise it carries its own part number |
| PresignedUpload.Settled | src/upload/presignedUploader.ts:148 | `Promise.all` keeps the dispatch order: value k is what part k settles to |
| PresignedUpload.AnyFailed | src/upload/presignedUploader.ts:201-206 | the settlement callbacks find a null result exactly when some dispatched part fails |
| PresignedUpload.ChunkCount | src/upload/presignedUploader.ts:175-196 | chunks of at least c bytes, except a non-empty last one, number at most `ceil(payload / c)` |
| PresignedUpload.PartUrlsDefined | src/upload/presignedUploader.ts:293-302 | with a positive chunk size and a stream no longer than the file, a URL list that passes the check has a URL for every chunk cut |
| PresignedUpload.StreamBytesPrefix | src/upload/presignedUploader.ts:121 | the bytes read so far are a prefix of all the stream yields |
| PresignedUpload.Finalise | src/upload/presignedUploader.ts:311-339 | aborts exactly when the loop returned null or some part result is null, with the abort URL, JSON headers, file path and upload id; otherwise completes with every part's response in order |
| PresignedUpload.ProgressMap | src/upload/presignedUploader.ts:409-414 | every given file name maps to 0, and nothing else is a key |
| PresignedUpload.ToBufferOptions | src/upload/presignedUploader.ts:419-431 | the options `uploadBuffer` receives have no counter and no hooks; each option is present exactly when its key survived `getDefined` |
| PresignedUpload.FileInfoList.Shift | src/upload/presignedUploader.ts:403 | removes and returns the first entry; an empty list gives undefined and stays empty |
| PresignedUpload.PresignedUploader.SendChunk | src/upload/presignedUploader.ts:176-194 | the buffered arrays are concatenated into one chunk, sent as chunk k to URL k with part number k+1 |
| PresignedUpload.CutsShape | src/upload/presignedUploader.ts:172-179 | in the reference cutting every chunk has at least `c` bytes, what is left is empty or shorter than `c`, and chunks plus the rest are the stream's bytes in order |
| PresignedUpload.ExactUnits | src/upload/presignedUploader.ts:172-179 | with a positive `c`, units of exactly `c` bytes are cut one chunk per unit, with nothing left over |
| PresignedUpload.CutsOfPrefix | src/upload/presignedUploader.ts:172-179 | the chunks cut from a prefix of the units are a prefix of those cut from all of them |
| PresignedUpload.ChunksBeforeInCuts | src/upload/presignedUploader.ts:172-179 | the chunks cut before unit i of a stream are a prefix of the stream's reference cutting |
| PresignedUpload.PresignedUploader.Absorb | src/upload/presignedUploader.ts:172-229 | the unit joins the buffer; when that brings the buffer to at least `chunkSize` bytes, the whole buffer goes out as the next chunk and the buffer is emptied, otherwise nothing is sent; no byte is lost or reordered, and a failed part stays recorded |
| PresignedUpload.PresignedUploader.Flush | src/upload/presignedUploader.ts:123-146 | at the end of the stream a non-empty buffer goes out as the last, shorter chunk and an empty one sends nothing; then every byte read has been dispatched, in order |
| PresignedUpload.PresignedUploader.StopOnFailure | src/upload/presignedUploader.ts:117-119 | the `return null` exit at round i happens only when a failure is seen there, after a part has failed; it is the first such round, and the chunks sent are those cut before unit i |
| PresignedUpload.PresignedUploader.StopOnUnknownType | src/upload/presignedUploader.ts:162-164 | the 'Unknown data type' throw happens at the first unit that is not a typed array, after exactly the chunks cut before it |
| PresignedUpload.PresignedUploader.StopAtEnd | src/upload/presignedUploader.ts:123-146 | at the end of the stream the list returned is the reference cutting of the whole stream |
| PresignedUpload.PresignedUploader.MultipartUpload | src/upload/presignedUploader.ts:113-231 | chunks go out in order, chunk k to URL k as part k+1, and their bodies are always the first chunks of the reference cutting, all of it when the list is returned; the throw comes at the first unit that is not a typed array; null comes at the first round at which a failure is seen, and every round that sees a failure ends with null; a stream of typed arrays whose parts all succeed returns the list |
| PresignedUpload.PresignedUploader.WrapUpMeets | src/upload/presignedUploader.ts:304-339 | after the loop the upload aborts exactly when some dispatched part settled to null; a completion lists every part's response as parts 1..n, after the whole stream was cut as the reference does; a failure seen at a round the loop reached means an abort; all typed arrays and no failed part means completion |
| PresignedUpload.PresignedUploader.MultipartUploadWithPresignedUrls | src/upload/presignedUploader.ts:283-359 | throws 'Invalid presigned urls.' (400) exactly when there are no more URLs than `Math.ceil(size / chunkSize)`, before dispatching anything; otherwise as in WrapUpMeets; the chunks are a prefix of the reference cutting, and all of it on completion, so units of exactly `chunkSize` bytes are sent one part each; part k goes to URL k, and every part has a URL when the chunk size is positive and the stream no longer than the file |
| PresignedUpload.PresignedUploader.UploadWithPresignedUrl | src/upload/presignedUploader.ts:258-273 | an empty URL throws 'Invalid presigned url.' (400); otherwise one `uploadBuffer` with the file's type: one to four requests, and the first response is the result |
| PresignedUpload.PresignedUploader.BatchRequestOptions | src/upload/presignedUploader.ts:422-431 | the timeout (89000 unless given), the file's type and the origin are always present; an encoding is present exactly when the call gives one, or leaves it out while the instance compresses |
| PresignedUpload.PresignedUploader.ProgressReport | src/upload/presignedUploader.ts:436-449 | `{[name]: 100}` is reported exactly when the upload yields a response and the name is non-empty |
| PresignedUpload.PresignedUploader.BatchRequests | src/upload/presignedUploader.ts:419-431 | every request of a batch upload goes to the entry's URL with the file's content and type, the batch timeout, and a content-encoding header exactly when an encoding applies; at most four requests |
| PresignedUpload.PresignedUploader.PartBudget | src/upload/presignedUploader.ts:54 | a part may be tried `noOfRetries + 1` times, never only once; a negative counter sends nothing and every part fails |
| PresignedUpload.PresignedUploader.StartBufferedFilesUpload | src/upload/presignedUploader.ts:387-470 | the caller's list is emptied; an empty list gives null; otherwise the first report lists the entries after the first `shift()` at 0, and every entry is uploaded in order with the batch options |
| Compatibility.ClientUrlsPassCheck | src/client/s3FlexClient.ts:186 | with one positive chunk size on both sides the client signs exactly one URL more than the uploader's estimate, so the check passes |
| Compatibility.DefaultChunkSizesDisagree | src/client/s3FlexClient.ts:36 | the defaults are 16 MiB and 2 MiB, and under them the client's list passes the uploader's check exactly when the file is at most 2 MiB |
| Compatibility.ThirtyTwoMiBExample | src/upload/base.s3flex.ts:25 | a 32 MiB file gets 3 URLs from the client, while the uploader needs more than 16 |
| Compatibility.EmptyListRefused | src/client/s3FlexClient.ts:114-116 | with a positive chunk size no empty URL list passes, so the `[]` returned for a falsy size always makes the uploader throw |

## Left out

- Concurrency is not modelled.
  - The upload slots, the `Promise.race` that waits for a free slot, and the `finally` callbacks are left out; they affect timing only.
  - The moment at which the loop sees a failed part is an input, and it only counts once a dispatched part has actually failed.
- Progress reporting inside a multipart upload is left out: the `additiveDataUploadProgressRate` percentages and the 'Confirming' and 'Successfully uploaded' callbacks. Only the batch's progress reports are modelled.
- Things that happen outside the core are left out:
  - compression streams, `file.stream()` and `file.arrayBuffer()`: the stream's units and the file's bytes are inputs;
  - `console` logging;
  - `fetch`, replaced by a list of per-attempt outcomes;
  - URL signing and the S3 commands (`CreateMultipartUpload`, `ListBuckets`): their results are inputs.
- The abort request is modelled, but the fields of the abort response that are spread into the result are not.
- The promise `startBufferedFilesUpload` returns (`Promise.all` over the slots still in flight) is left out; the model returns the uploads it starts and the first progress map.
- Numbers are unbounded integers. `Math.ceil(size / chunkSize)` is exact only while the operands stay below 2^52; floating-point rounding beyond that is not modelled.
- `startBufferedFileUpload` (the singular, compressing variant) is not part of this model.
- Several members are not modelled:
  - `getFromAvailableBkts`, `getAllS3Buckets`, `getAllBucketItems` and `emptyBucket`, which are thin wrappers over S3 commands;
  - the static `get` factory and the property getters;
  - the constructor's call to `getAvailableBuckets`, which nobody awaits.
- `PresignedUploader` extends `S3FlexBase`. The model holds the base as a field that `super()` fills, and `NewPresignedUploader` stands for `new PresignedUploader(options)`, including its throw.
- A rejected abort or completion `fetch` is left out: the `Aborted` and `Completed` outcomes carry the request sent, not the response or the rejection that `multipartUploadWithPresignedUrls` passes on.
- The constants file that defines `BAD_REQUEST` is not part of this model; its value is taken to be 400.
- Header values are kept as the values passed; how `fetch` turns them into strings is not modelled.
- PresignedUpload.PresignedUploader.MultipartUploadWithPresignedUrls: it states that every part has a URL only when the chunk size is positive and the stream is no longer than the file's declared size. For a negative chunk size the source's check does not guarantee a URL, and the model records such a part with an undefined URL.
- PathUtil.DefinedS3KeyInjective: it needs file names of equal length, because `a/b` + `c` and `a` + `b/c` give the same key.
