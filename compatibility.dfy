/**
 * How the URL list the client signs (`getMultiPartsUploadPresignedUrls`,
 * `getUploadPresignedUrls`) meets the check `multipartUploadWithPresignedUrls`
 * makes before it reads the file.
 */
module Compatibility {
  import opened JsCommon
  import S3FlexClient
  import S3FlexBase

  const MiB: int := 1024 * 1024

  /** The check the uploader makes: more URLs than `Math.ceil(fileSize / chunkSize)`. */
  predicate UploaderAccepts(urlCount: int, fileSize: nat, chunkSize: int)
    requires chunkSize != 0
  {
    urlCount > CeilDiv(fileSize, chunkSize)
  }

  /**
   * With one positive chunk size on both sides, the client signs exactly
   * one URL more than the uploader's estimate, so the check passes.
   */
  lemma ClientUrlsPassCheck(fileSize: nat, chunkSize: int)
    requires chunkSize > 0
    ensures S3FlexClient.UrlCount(S3FlexClient.MaxNoOfParts(fileSize, chunkSize)) == CeilDiv(fileSize, chunkSize) + 1
    ensures UploaderAccepts(S3FlexClient.UrlCount(S3FlexClient.MaxNoOfParts(fileSize, chunkSize)), fileSize, chunkSize)
  {
    S3FlexClient.MaxNoOfPartsBounds(fileSize, chunkSize);
  }

  /**
   * The defaults disagree: the client plans 16 MiB parts, the uploader
   * cuts 2 MiB chunks. The client's list for a non-empty file passes the
   * uploader's check exactly when the file is at most 2 MiB.
   */
  lemma DefaultChunkSizesDisagree(fileSize: nat)
    ensures S3FlexClient.DefaultChunkSize == 16 * MiB && S3FlexBase.DefaultChunkSize == 2 * MiB
    ensures UploaderAccepts(S3FlexClient.UrlCount(S3FlexClient.MaxNoOfParts(fileSize, S3FlexClient.DefaultChunkSize)),
                            fileSize, S3FlexBase.DefaultChunkSize)
            <==> fileSize <= 2 * MiB
  {
    var client := CeilDiv(fileSize, 16 * MiB);
    var uploader := CeilDiv(fileSize, 2 * MiB);
    ClientUrlsPassCheck(fileSize, 16 * MiB);
    CeilDivBounds(fileSize, 16 * MiB);
    CeilDivBounds(fileSize, 2 * MiB);
    if fileSize <= 2 * MiB {
      assert uploader <= 1;
      assert client >= 0;
    } else {
      assert uploader >= 2;
      assert 8 * (client - 1) < uploader by {
        assert (client - 1) * (16 * MiB) < fileSize <= uploader * (2 * MiB);
      }
      assert client + 1 <= uploader;
    }
  }

  /** A 32 MiB file gets 3 URLs from the client under its default, while the uploader's default needs more than 16. */
  lemma ThirtyTwoMiBExample()
    ensures S3FlexClient.UrlCount(S3FlexClient.MaxNoOfParts(32 * MiB, S3FlexClient.DefaultChunkSize)) == 3
    ensures CeilDiv(32 * MiB, S3FlexBase.DefaultChunkSize) == 16
    ensures !UploaderAccepts(3, 32 * MiB, S3FlexBase.DefaultChunkSize)
  {
    ClientUrlsPassCheck(32 * MiB, 16 * MiB);
    assert CeilDiv(32 * MiB, 16 * MiB) == 2;
  }

  /**
   * An empty URL list passes exactly when the uploader's estimate is negative; with a positive
   * chunk size it never passes, so the `[]` the client returns for a falsy file size always makes
   * the uploader throw.
   */
  lemma EmptyListRefused(fileSize: nat, chunkSize: int)
    requires chunkSize != 0
    ensures !UploaderAccepts(0, fileSize, chunkSize) <==> CeilDiv(fileSize, chunkSize) >= 0
    ensures chunkSize > 0 ==> !UploaderAccepts(0, fileSize, chunkSize)
  {
    if chunkSize > 0 {
      CeilDivBounds(fileSize, chunkSize);
      var q := CeilDiv(fileSize, chunkSize);
      if q < 0 {
        assert false;
      }
    }
  }
}
