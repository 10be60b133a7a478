/**
 * A client for one blob: it composes the blob's URL once, at construction, and
 * builds a fresh, version-stamped request descriptor for each operation.
 */
module Blob {
  import opened Http
  import opened BaseClient

  /** The account's blob-service host URL followed by `{container}/{blob}`, names appended verbatim. */
  function BuildBlobUrl(base: string, container: string, blob: string): (r: string)
    ensures |r| == |base| + |container| + |blob| + 1
    ensures r[..|base|] == base
    ensures r[|base|..|base| + |container|] == container
    ensures r[|base| + |container|] == '/'
    ensures r[|base| + |container| + 1..] == blob
  {
    base + container + "/" + blob
  }

  /**
   * When neither container name contains a `/`, the blob URL determines both names:
   * no two different (container, blob) pairs share a URL.
   */
  lemma {:induction false} BlobUrlInjective(base: string, c1: string, b1: string, c2: string, b2: string)
    requires '/' !in c1 && '/' !in c2
    requires BuildBlobUrl(base, c1, b1) == BuildBlobUrl(base, c2, b2)
    ensures c1 == c2 && b1 == b2
  {
  }

  /**
   * Because names are appended without escaping, a `/` inside the container name
   * makes two different (container, blob) pairs share one URL.
   */
  lemma BlobUrlAmbiguousWithSlash(base: string)
    ensures BuildBlobUrl(base, "a/b", "c") == BuildBlobUrl(base, "a", "b/c")
  {
    assert BuildBlobUrl(base, "a/b", "c") == base + "a/b/c";
    assert BuildBlobUrl(base, "a", "b/c") == base + "a/b/c";
  }

  /** The URL a client for (account, container, blob) targets. */
  function BlobUrl(account: string, container: string, blob: string): (u: string)
    ensures u == "https://" + account + ".blob.core.windows.net/" + container + "/" + blob
  {
    BuildBlobUrl(BuildUrl(account, BlobService).value, container, blob)
  }

  class BlobClient {
    const accountName: string
    const containerName: string
    const blobName: string
    const url: string

    /**
     * A client for `blob` in `container` of `account`. It always asks for the
     * `blob` service, so composing the host URL cannot fail. The credential
     * string is accepted and not used.
     */
    constructor (accountName: string, credential: string, containerName: string, blobName: string)
      ensures this.accountName == accountName
      ensures this.containerName == containerName && this.blobName == blobName
      ensures url == "https://" + accountName + ".blob.core.windows.net/" + containerName + "/" + blobName
    {
      this.accountName := accountName;
      this.containerName := containerName;
      this.blobName := blobName;
      url := BlobUrl(accountName, containerName, blobName);
    }

    /** The descriptor of a download: a fresh GET on the blob URL carrying only the version header. */
    method DownloadBlob() returns (request: Request)
      ensures fresh(request)
      ensures request.httpMethod == Get && request.url == url
      ensures request.headers == map[VersionHeader := ApiVersion]
    {
      request := new Request(url, Get);
      FinalizeRequest(request);
    }

    /** The descriptor of a properties probe: a fresh HEAD on the blob URL carrying only the version header. */
    method GetBlobProperties() returns (request: Request)
      ensures fresh(request)
      ensures request.httpMethod == Head && request.url == url
      ensures request.headers == map[VersionHeader := ApiVersion]
    {
      request := new Request(url, Head);
      FinalizeRequest(request);
    }
  }

  /** A composed blob URL sits on the account's blob-service host. */
  lemma BlobUrlOnBlobHost(account: string, container: string, blob: string)
    ensures BuildUrl(account, BlobService).Ok?
    ensures BlobUrl(account, container, blob)[..|BuildUrl(account, BlobService).value|] == BuildUrl(account, BlobService).value
  {
    var base := BuildUrl(account, BlobService).value;
    assert BlobUrl(account, container, blob) == BuildBlobUrl(base, container, blob);
  }
}
