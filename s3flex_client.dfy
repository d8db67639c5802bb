/**
 * `S3FlexClient`: the URL provider. It plans how many part URLs a
 * multipart upload gets, names the object, resolves the content headers
 * the URLs are signed for, and keeps a cache of the account's buckets.
 *
 * Signing (`getSignedUrl`) and the S3 commands (`client.send`) are foreign:
 * a signed URL is represented by what it authorizes, and the upload id and
 * the bucket listing are inputs.
 */
module S3FlexClient {
  import opened JsCommon
  import opened ObjectUtil
  import opened PathUtil
  import opened Exceptions

  /** `s3MaxAllowedParts`. */
  const S3MaxAllowedParts: int := 10000
  /** `defaultContentType`. */
  const DefaultContentType: string := "application/octet-stream"
  /** `defaultUrlExpiry`, in seconds. */
  const DefaultUrlExpiry: int := 100
  /** `defaultChnkSize`: 16 MiB. */
  const DefaultChunkSize: int := 16 * 1024 * 1024

  //////////////////////////////////////////////////////////////////////
  // Client settings
  //////////////////////////////////////////////////////////////////////

  /** `Partial<S3FlexClientConfig>`. */
  datatype ClientConfig = ClientConfig(endPoint: Option<string>, region: Option<string>,
                                       accessKeyId: Option<string>, secretAccessKey: Option<string>)

  /** The names of the environment variables the client falls back on. */
  datatype EnvKeys = EnvKeys(endPoint: string, region: string, accessKeyId: string, secret: string)

  datatype ClientSettings = ClientSettings(endPoint: string, region: string,
                                           accessKeyId: string, secretAccessKey: string)

  /** `config.x || getDefinedEnv(KEY)`. */
  function Setting(configured: Option<string>, env: map<string, string>, key: string): (r: Result<string, string>)
    ensures configured.Some? && configured.value != "" ==> r == Ok(configured.value)
    ensures (configured.None? || configured == Some("")) ==> r == GetDefinedEnv(env, key)
  {
    if configured.Some? && configured.value != "" then Ok(configured.value) else GetDefinedEnv(env, key)
  }

  /**
   * The settings the constructor passes to the S3 client, in the order the
   * object literal evaluates them; the first missing one throws.
   */
  function ResolveSettings(config: ClientConfig, env: map<string, string>, keys: EnvKeys): (r: Result<ClientSettings, string>)
    ensures r.Ok? <==> Setting(config.endPoint, env, keys.endPoint).Ok? && Setting(config.region, env, keys.region).Ok?
                       && Setting(config.accessKeyId, env, keys.accessKeyId).Ok? && Setting(config.secretAccessKey, env, keys.secret).Ok?
    ensures r.Ok? ==> r.value.endPoint == Setting(config.endPoint, env, keys.endPoint).value
    ensures r.Ok? ==> r.value.region == Setting(config.region, env, keys.region).value
    ensures r.Ok? ==> r.value.accessKeyId == Setting(config.accessKeyId, env, keys.accessKeyId).value
    ensures r.Ok? ==> r.value.secretAccessKey == Setting(config.secretAccessKey, env, keys.secret).value
    ensures r.Err? ==>
      r.error == (if Setting(config.endPoint, env, keys.endPoint).Err? then Setting(config.endPoint, env, keys.endPoint).error
                  else if Setting(config.region, env, keys.region).Err? then Setting(config.region, env, keys.region).error
                  else if Setting(config.accessKeyId, env, keys.accessKeyId).Err? then Setting(config.accessKeyId, env, keys.accessKeyId).error
                  else Setting(config.secretAccessKey, env, keys.secret).error)
  {
    match Setting(config.endPoint, env, keys.endPoint)
    case Err(e) => Err(e)
    case Ok(endPoint) =>
      match Setting(config.region, env, keys.region)
      case Err(e) => Err(e)
      case Ok(region) =>
        match Setting(config.accessKeyId, env, keys.accessKeyId)
        case Err(e) => Err(e)
        case Ok(accessKeyId) =>
          match Setting(config.secretAccessKey, env, keys.secret)
          case Err(e) => Err(e)
          case Ok(secret) => Ok(ClientSettings(endPoint, region, accessKeyId, secret))
  }

  //////////////////////////////////////////////////////////////////////
  // Buckets
  //////////////////////////////////////////////////////////////////////

  /** One entry of `ListBuckets`' `Buckets`; a date is kept as its time value. */
  datatype ListedBucket = ListedBucket(name: Option<string>, creationDate: Option<int>)

  datatype BucketInfo = BucketInfo(name: string, creationDate: int)

  /** The reduce's test `eachBucketInfo.Name && eachBucketInfo.CreationDate` (a Date object is always truthy). */
  predicate Listable(b: ListedBucket) {
    b.name.Some? && b.name.value != "" && b.creationDate.Some?
  }

  /** The spread-based reduce: later buckets of the same name override earlier ones. */
  function BucketMap(buckets: seq<ListedBucket>): map<string, BucketInfo> {
    if buckets == [] then map[]
    else
      var acc := BucketMap(buckets[..|buckets| - 1]);
      var b := buckets[|buckets| - 1];
      if Listable(b) then acc[b.name.value := BucketInfo(b.name.value, b.creationDate.value)] else acc
  }

  /** The index of the last listable bucket with the given name, or -1. */
  function LastWithName(buckets: seq<ListedBucket>, name: string): (r: int)
    ensures -1 <= r < |buckets|
    ensures r == -1 <==> forall i :: 0 <= i < |buckets| ==> !(Listable(buckets[i]) && buckets[i].name.value == name)
    ensures r >= 0 ==> Listable(buckets[r]) && buckets[r].name.value == name
    ensures r >= 0 ==> forall j :: r < j < |buckets| ==> !(Listable(buckets[j]) && buckets[j].name.value == name)
  {
    if buckets == [] then -1
    else if Listable(buckets[|buckets| - 1]) && buckets[|buckets| - 1].name.value == name then |buckets| - 1
    else LastWithName(buckets[..|buckets| - 1], name)
  }

  /**
   * The map has an entry for a name exactly when some listed bucket has
   * that name and a creation date, and the entry comes from the last such
   * bucket.
   */
  lemma {:induction false} BucketMapEntries(buckets: seq<ListedBucket>, name: string)
    ensures name in BucketMap(buckets) <==> LastWithName(buckets, name) >= 0
    ensures name in BucketMap(buckets) ==>
      BucketMap(buckets)[name] == BucketInfo(name, buckets[LastWithName(buckets, name)].creationDate.value)
  {
    if buckets != [] {
      var init := buckets[..|buckets| - 1];
      var b := buckets[|buckets| - 1];
      BucketMapEntries(init, name);
      if !(Listable(b) && b.name.value == name) {
        assert LastWithName(buckets, name) == LastWithName(init, name);
        assert name in BucketMap(buckets) <==> name in BucketMap(init);
        if name in BucketMap(init) {
          assert BucketMap(buckets)[name] == BucketMap(init)[name];
          assert buckets[LastWithName(init, name)] == init[LastWithName(init, name)];
        }
      }
    }
  }

  /** The keys of the bucket map are the names of the listable buckets. */
  lemma BucketMapKeys(buckets: seq<ListedBucket>)
    ensures forall i :: 0 <= i < |buckets| && Listable(buckets[i]) ==> buckets[i].name.value in BucketMap(buckets)
  {
    forall i | 0 <= i < |buckets| && Listable(buckets[i]) ensures buckets[i].name.value in BucketMap(buckets) {
      BucketMapEntries(buckets, buckets[i].name.value);
    }
  }

  //////////////////////////////////////////////////////////////////////
  // Multipart URL planning
  //////////////////////////////////////////////////////////////////////

  /** `Math.ceil(fileSize / chunkSize) + 1` as a JavaScript number: a division by 0 is infinite, or NaN for 0 / 0. */
  datatype PartCount = Parts(n: int) | Infinite | NotANumber

  function MaxNoOfParts(fileSize: nat, chunkSize: int): PartCount {
    if chunkSize == 0 then (if fileSize == 0 then NotANumber else Infinite)
    else Parts(CeilDiv(fileSize, chunkSize) + 1)
  }

  /** For a positive chunk size: one URL more than the chunks needed to hold the file. */
  lemma MaxNoOfPartsBounds(fileSize: nat, chunkSize: int)
    requires chunkSize > 0
    ensures var c := MaxNoOfParts(fileSize, chunkSize);
      c.Parts? && c.n >= 1 && (c.n - 2) * chunkSize < fileSize <= (c.n - 1) * chunkSize
    ensures MaxNoOfParts(0, chunkSize) == Parts(1)
  {
    CeilDivBounds(fileSize, chunkSize);
    var q := CeilDiv(fileSize, chunkSize);
    if q < 0 {
      assert false;
    }
  }

  /** `maxNoOfParts > this.s3MaxAllowedParts`; comparisons with NaN are false. */
  predicate TooManyParts(c: PartCount) {
    match c
    case Parts(n) => n > S3MaxAllowedParts
    case Infinite => true
    case NotANumber => false
  }

  /** How often `for (let i = 0; i < maxNoOfParts; i++)` runs. */
  function UrlCount(c: PartCount): nat {
    match c
    case Parts(n) => if n < 0 then 0 else n
    case Infinite => 0
    case NotANumber => 0
  }

  /** The options of `getMultiPartsUploadPresignedUrls`. */
  datatype MultipartUrlOptions = MultipartUrlOptions(
    folderName: Option<string>,
    contentEncoding: Nullable<string>,
    contentType: Option<string>,
    expiresIn: Option<int>,
    chunkSize: Option<int>)

  /** The destructuring defaults apply only to absent options; a 0 chunk size is kept. */
  function ChunkSizeOf(options: MultipartUrlOptions): int {
    options.chunkSize.GetOr(DefaultChunkSize)
  }

  /**
   * The object key: `folderName/fileName` when the folder name is truthy,
   * else the file name. An absent file name prints as 'undefined' in the
   * template and stays absent otherwise.
   */
  function AssetFileName(fileName: Option<string>, folderName: Option<string>): (key: Option<string>)
    ensures fileName.Some? ==> key == Some(DefinedS3Key(fileName.value, folderName))
  {
    if folderName.Some? && folderName.value != "" then
      Some(folderName.value + "/" + fileName.GetOr("undefined"))
    else fileName
  }

  /**
   * The extra parameters each part is signed with: `ContentType` (defaulted
   * when absent) and `ContentEncoding`, 'gzip' when absent, left out when
   * explicitly null, as given otherwise.
   */
  function PartParams(options: MultipartUrlOptions): (params: map<string, JsValue>)
    ensures params.Keys <= {"ContentType", "ContentEncoding"}
    ensures "ContentType" in params && params["ContentType"] == Str(options.contentType.GetOr(DefaultContentType))
    ensures options.contentEncoding.Null? <==> "ContentEncoding" !in params
    ensures options.contentEncoding.Undefined? ==> params["ContentEncoding"] == Str("gzip")
    ensures options.contentEncoding.Defined? ==> params["ContentEncoding"] == Str(options.contentEncoding.value)
  {
    var encoding := match options.contentEncoding
      case Null => NullValue
      case Undefined => Str("gzip")
      case Defined(e) => Str(e);
    DefinedEntries(map["ContentType" := Str(options.contentType.GetOr(DefaultContentType)), "ContentEncoding" := encoding])
  }

  /** A presigned `UploadPartCommand` URL, by what it authorizes. */
  datatype PartUrl = PartUrl(bucket: string, key: Option<string>, uploadId: Option<string>, partNumber: int,
                             params: map<string, JsValue>, expiresIn: int)

  datatype MultipartUrls = MultipartUrls(pUrls: seq<PartUrl>, uploadId: Option<string>)

  /**
   * `getMultiPartsUploadPresignedUrls`: refuses more than 10000 parts
   * before any request, else one URL per part, the i-th for part i + 1.
   * `uploadId` is what `CreateMultipartUpload` returned.
   */
  method GetMultiPartsUploadPresignedUrls(bucketName: string, fileName: Option<string>, fileSize: nat,
                                          options: MultipartUrlOptions, uploadId: Option<string>)
    returns (r: Result<MultipartUrls, string>)
    ensures r.Err? <==> TooManyParts(MaxNoOfParts(fileSize, ChunkSizeOf(options)))
    ensures r.Err? ==> r.error == "Cannot allow parts > 10000"
    ensures r.Ok? ==> r.value.uploadId == uploadId
    ensures r.Ok? ==> |r.value.pUrls| == UrlCount(MaxNoOfParts(fileSize, ChunkSizeOf(options))) <= S3MaxAllowedParts
    ensures r.Ok? ==> forall i :: 0 <= i < |r.value.pUrls| ==>
      r.value.pUrls[i] == PartUrl(bucketName, AssetFileName(fileName, options.folderName), uploadId, i + 1,
                                  PartParams(options), options.expiresIn.GetOr(DefaultUrlExpiry))
  {
    var expiresIn := options.expiresIn.GetOr(DefaultUrlExpiry);
    var assetFileName := AssetFileName(fileName, options.folderName);
    var maxNoOfParts := MaxNoOfParts(fileSize, ChunkSizeOf(options));
    if TooManyParts(maxNoOfParts) {
      return Err("Cannot allow parts > 10000");
    }
    var count := UrlCount(maxNoOfParts);
    var presignedUrls: seq<PartUrl> := [];
    for i := 0 to count
      invariant |presignedUrls| == i
      invariant forall k :: 0 <= k < i ==>
        presignedUrls[k] == PartUrl(bucketName, assetFileName, uploadId, k + 1, PartParams(options), expiresIn)
    {
      presignedUrls := presignedUrls + [PartUrl(bucketName, assetFileName, uploadId, i + 1, PartParams(options), expiresIn)];
    }
    return Ok(MultipartUrls(presignedUrls, uploadId));
  }

  /** A presigned `PutObjectCommand` URL for a whole file. */
  datatype PutUrl = PutUrl(bucket: string, key: string, expiresIn: int)

  /** `getFileUploadPresignedUrls`: one URL per file name, in order, valid for 240 s. */
  function GetFileUploadPresignedUrls(fileNames: seq<string>, bucketName: string): (urls: seq<PutUrl>)
    ensures |urls| == |fileNames|
    ensures forall i :: 0 <= i < |urls| ==> urls[i] == PutUrl(bucketName, fileNames[i], 240)
  {
    seq(|fileNames|, i requires 0 <= i < |fileNames| => PutUrl(bucketName, fileNames[i], 240))
  }

  /** The options of `getUploadPresignedUrls`. */
  datatype UploadUrlOptions = UploadUrlOptions(fileSize: Option<nat>, isMultipart: Option<bool>)

  /** The three shapes `getUploadPresignedUrls` resolves to; `Single` carries `upload_id: null`. */
  datatype UploadUrls = Multipart(urls: MultipartUrls) | NoUrls | Single(pUrls: seq<PutUrl>)

  /** A re-wrapped error, or one that escapes the `try` because its promise is returned without `await`. */
  datatype ClientError = Wrapped(exception: FileUploadException) | Unwrapped(message: string)

  const MultipleFilesMessage: string := "Multiple files not supported in multipart upload."

  predicate IsMultipart(options: Option<UploadUrlOptions>) {
    options.Some? && options.value.isMultipart == Some(true)
  }

  /**
   * `getUploadPresignedUrls`. A multipart request for several paths throws
   * inside the `try` and comes out as a `FileUploadException` with code 500
   * (the plain `Error` has no code); a falsy size gives `[]`; the rejection of
   * the returned multipart promise is not caught. Otherwise one URL per path
   * and no upload id.
   */
  method GetUploadPresignedUrls(filePaths: seq<string>, bucketName: string, options: Option<UploadUrlOptions>,
                                uploadId: Option<string>)
    returns (r: Result<UploadUrls, ClientError>)
    ensures IsMultipart(options) && |filePaths| > 1 ==>
      r == Err(Wrapped(NewFileUploadException("Error uploading file. " + MultipleFilesMessage, None)))
    ensures r.Err? && r.error.Wrapped? ==> r.error.exception.errorCode == 500
    ensures IsMultipart(options) && |filePaths| <= 1 && options.value.fileSize.GetOr(0) == 0 ==> r == Ok(NoUrls)
    ensures IsMultipart(options) && |filePaths| <= 1 && options.value.fileSize.GetOr(0) != 0 ==>
      (r.Err? <==> TooManyParts(MaxNoOfParts(options.value.fileSize.value, DefaultChunkSize)))
      && (r.Err? ==> r.error == Unwrapped("Cannot allow parts > 10000"))
      && (r.Ok? ==> r.value.Multipart? && r.value.urls.uploadId == uploadId
                    && |r.value.urls.pUrls| == UrlCount(MaxNoOfParts(options.value.fileSize.value, DefaultChunkSize))
                    && forall i :: 0 <= i < |r.value.urls.pUrls| ==>
                         r.value.urls.pUrls[i]
                           == PartUrl(bucketName, if filePaths == [] then None else Some(filePaths[0]), uploadId, i + 1,
                                      PartParams(MultipartUrlOptions(None, Undefined, None, Some(240), None)), 240))
    ensures !IsMultipart(options) ==> r == Ok(Single(GetFileUploadPresignedUrls(filePaths, bucketName)))
  {
    if IsMultipart(options) {
      if |filePaths| > 1 {
        // The `Error` thrown here has no `code`, so `e?.code` is undefined.
        var e := NewFileUploadException("Error uploading file. " + MultipleFilesMessage, None);
        return Err(Wrapped(e));
      }
      var filePath := if filePaths == [] then None else Some(filePaths[0]);
      var fileSize := options.value.fileSize.GetOr(0);
      if fileSize == 0 {
        return Ok(NoUrls);
      }
      var multipart := GetMultiPartsUploadPresignedUrls(bucketName, filePath, fileSize,
        MultipartUrlOptions(None, Undefined, None, Some(240), None), uploadId);
      match multipart
      case Err(message) => return Err(Unwrapped(message));
      case Ok(urls) => return Ok(Multipart(urls));
    }
    return Ok(Single(GetFileUploadPresignedUrls(filePaths, bucketName)));
  }

  //////////////////////////////////////////////////////////////////////
  // The client object and its bucket cache
  //////////////////////////////////////////////////////////////////////

  class Client {
    const settings: ClientSettings
    /** The `availableBuckets` cache; `None` is a falsy (null or undefined) cache. */
    var availableBuckets: Option<map<string, BucketInfo>>

    /** The client as the constructor leaves it: settings resolved, nothing cached yet. */
    constructor(settings: ClientSettings)
      ensures this.settings == settings && availableBuckets.None?
    {
      this.settings := settings;
      availableBuckets := None;
    }

    /** `setBucketInfo`. */
    method SetBucketInfo(info: Option<map<string, BucketInfo>>)
      modifies this
      ensures availableBuckets == info
    {
      availableBuckets := info;
    }

    /**
     * `getAvailableBuckets`: a cached map is returned unchanged, without
     * listing; otherwise the listing's `Buckets` (absent when the response
     * has none) is reduced and cached, an absent result leaving the cache
     * empty.
     */
    method GetAvailableBuckets(listing: Option<seq<ListedBucket>>) returns (r: Option<map<string, BucketInfo>>)
      modifies this
      ensures old(availableBuckets).Some? ==> r == old(availableBuckets) && availableBuckets == old(availableBuckets)
      ensures old(availableBuckets).None? ==>
        r == (if listing.Some? then Some(BucketMap(listing.value)) else None) && availableBuckets == r
    {
      if availableBuckets.Some? {
        return availableBuckets;
      }
      var bucketsInformation := if listing.Some? then Some(BucketMap(listing.value)) else None;
      SetBucketInfo(bucketsInformation);
      return bucketsInformation;
    }
  }

  /** `new S3FlexClient(config)`: fails with the message of the first missing setting. */
  method NewClient(config: ClientConfig, env: map<string, string>, keys: EnvKeys) returns (r: Result<Client, string>)
    ensures ResolveSettings(config, env, keys).Err? <==> r.Err?
    ensures r.Err? ==> r.error == ResolveSettings(config, env, keys).error
    ensures r.Ok? ==> fresh(r.value) && r.value.settings == ResolveSettings(config, env, keys).value
                      && r.value.availableBuckets.None?
  {
    var settings := ResolveSettings(config, env, keys);
    if settings.Err? {
      return Err(settings.error);
    }
    var client := new Client(settings.value);
    return Ok(client);
  }
}
