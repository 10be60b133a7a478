/**
 * What every storage client shares: the service-checked host URL and the
 * version stamp put on every request.
 */
module BaseClient {
  import opened Wrappers
  import opened Http

  /** Why a host URL could not be built: the service is not one of the storage services. */
  datatype ConfigError = InvalidService(service: string)

  const Scheme := "https://"
  const HostSuffix := ".core.windows.net/"

  /** The header every request carries, and its one fixed value. */
  const VersionHeader := "x-ms-version"
  const ApiVersion := "2023-11-03"

  /** The service both storage clients ask for. */
  const BlobService := "blob"

  /** The four storage services a host URL may name. */
  predicate IsStorageService(service: string) {
    service == "blob" || service == "queue" || service == "file-share" || service == "dfs"
  }

  /**
   * The account's host URL for `service`, `https://{account}.{service}.core.windows.net/`.
   * A service outside the allow-list is a configuration error and yields no URL.
   */
  function BuildUrl(account: string, service: string): (r: Result<string, ConfigError>)
    ensures r.Ok? <==> IsStorageService(service)
    ensures r.Err? ==> r.error == InvalidService(service)
    ensures r.Ok? ==> |r.value| == |account| + |service| + 27
    ensures r.Ok? ==> r.value[..8] == "https://"
    ensures r.Ok? ==> r.value[|r.value| - 18..] == ".core.windows.net/"
  {
    if !IsStorageService(service) then
      Err(InvalidService(service))
    else
      Ok(Scheme + account + "." + service + HostSuffix)
  }

  /** In `p + a + "." + s + x`, the pieces `a` and `s` can be read back at their offsets. */
  lemma DottedParts(p: string, a: string, s: string, x: string)
    ensures var u := p + a + "." + s + x;
      && u[|p|..|p| + |a|] == a
      && u[|p| + |a|] == '.'
      && u[|p| + |a| + 1..|p| + |a| + 1 + |s|] == s
  {
    var u := p + a + "." + s + x;
    assert u == p + (a + ("." + (s + x)));
    assert u[|p|..] == a + ("." + (s + x));
    assert u[|p| + |a|..] == "." + (s + x);
    assert u[|p| + |a| + 1..] == s + x;
  }

  /** Where the account and the service name sit inside a host URL. */
  lemma BuildUrlParts(account: string, service: string)
    requires IsStorageService(service)
    ensures var u := BuildUrl(account, service).value;
      && u[8..8 + |account|] == account
      && u[8 + |account|] == '.'
      && u[9 + |account|..9 + |account| + |service|] == service
  {
    DottedParts(Scheme, account, service, HostSuffix);
  }

  /** For one service, different accounts never share a host URL. */
  lemma {:induction false} BuildUrlInjective(a1: string, a2: string, service: string)
    requires IsStorageService(service)
    requires BuildUrl(a1, service).value == BuildUrl(a2, service).value
    ensures a1 == a2
  {
    BuildUrlParts(a1, service);
    BuildUrlParts(a2, service);
  }

  /**
   * The header map a request has after being stamped: the version header holds
   * the fixed version, and every other header is kept as it was.
   */
  function Finalized(headers: map<string, string>): (r: map<string, string>)
    ensures r.Keys == headers.Keys + {VersionHeader}
    ensures r[VersionHeader] == ApiVersion
    ensures forall k :: k in headers && k != VersionHeader ==> r[k] == headers[k]
  {
    headers[VersionHeader := ApiVersion]
  }

  /** Stamping twice leaves the same header map as stamping once. */
  lemma FinalizedIdempotent(headers: map<string, string>)
    ensures Finalized(Finalized(headers)) == Finalized(headers)
  {
  }

  /** Whatever value the version header held before is overridden. */
  lemma FinalizedOverrides(headers: map<string, string>, previous: string)
    ensures Finalized(headers[VersionHeader := previous]) == Finalized(headers)
  {
  }

  /** Stamps `request` with the version header in place; nothing else about it changes. */
  method FinalizeRequest(request: Request)
    modifies request
    ensures request.headers == Finalized(old(request.headers))
    ensures request.httpMethod == old(request.httpMethod) && request.url == old(request.url)
  {
    request.InsertHeader(VersionHeader, ApiVersion);
  }
}
