/**
 * A client for one container: it composes the container's URL once, at
 * construction, and builds a fresh, version-stamped properties request.
 */
module Container {
  import opened Http
  import opened BaseClient

  const ContainerQuery := "?restype=container"

  /** The account's blob-service host URL followed by `{container}/?restype=container`, the name appended verbatim. */
  function BuildContainerUrl(base: string, container: string): (r: string)
    ensures |r| == |base| + |container| + 19
    ensures r[..|base|] == base
    ensures r[|base|..|base| + |container|] == container
    ensures r[|base| + |container|..] == "/?restype=container"
  {
    base + container + "/" + ContainerQuery
  }

  /** Different container names under one host give different container URLs. */
  lemma {:induction false} ContainerUrlInjective(base: string, c1: string, c2: string)
    requires BuildContainerUrl(base, c1) == BuildContainerUrl(base, c2)
    ensures c1 == c2
  {
    var u := BuildContainerUrl(base, c1);
    assert c1 == u[|base|..|base| + |c1|];
    assert c2 == u[|base|..|base| + |c2|];
  }

  /** The URL a client for (account, container) targets. */
  function ContainerUrl(account: string, container: string): (u: string)
    ensures u == "https://" + account + ".blob.core.windows.net/" + container + "/?restype=container"
  {
    var base := BuildUrl(account, BlobService).value;
    assert base == "https://" + account + ".blob.core.windows.net/";
    assert "/" + ContainerQuery == "/?restype=container";
    BuildContainerUrl(base, container)
  }

  /** A composed container URL sits on the account's blob-service host. */
  lemma ContainerUrlOnBlobHost(account: string, container: string)
    ensures BuildUrl(account, BlobService).Ok?
    ensures ContainerUrl(account, container)[..|BuildUrl(account, BlobService).value|] == BuildUrl(account, BlobService).value
  {
    var base := BuildUrl(account, BlobService).value;
    assert ContainerUrl(account, container) == BuildContainerUrl(base, container);
  }

  class BlobContainerClient {
    const accountName: string
    const containerName: string
    const url: string

    /**
     * A client for `container` of `account`. It always asks for the `blob`
     * service, so composing the host URL cannot fail. The credential handle is
     * handed to the transport pipeline, which is not part of this model.
     */
    constructor (accountName: string, containerName: string)
      ensures this.accountName == accountName && this.containerName == containerName
      ensures url == "https://" + accountName + ".blob.core.windows.net/" + containerName + "/?restype=container"
    {
      this.accountName := accountName;
      this.containerName := containerName;
      url := ContainerUrl(accountName, containerName);
    }

    /** The descriptor of a properties probe: a fresh HEAD on the container URL carrying only the version header. */
    method GetContainerProperties() returns (request: Request)
      ensures fresh(request)
      ensures request.httpMethod == Head && request.url == url
      ensures request.headers == map[VersionHeader := ApiVersion]
    {
      request := new Request(url, Head);
      FinalizeRequest(request);
    }
  }
}
