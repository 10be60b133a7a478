# Storage blob client: request construction

A model of the deterministic request-construction layer of a Rust storage client for a
cloud blob store (`sdk/storage_blobs`). This layer performs no I/O. It covers:

- the host URL `https://{account}.{service}.core.windows.net/`. It is built only for the services
  `blob`, `queue`, `file-share` and `dfs`; any other service is a configuration error (`BaseClient.BuildUrl`);
- the resource URLs: `{container}/{blob}` for a blob client, and `{container}/?restype=container`
  for a container client. Names are appended verbatim, without escaping;
- stamping a request with the fixed version header `x-ms-version: 2023-11-03`. This is an
  in-place insert into the request's header map (`BaseClient.FinalizeRequest` on an `Http.Request` object);
- the request descriptors built by `download_blob`, `get_blob_properties` and `get_container_properties`.
  Each is a fresh GET or HEAD request on the client's URL, carrying only the version header;
- the options builder. It starts from the default API version `2023-11-03`, overrides one field
  at a time, and hands out copies.

Files: `wrappers.dfy` (Option, Result), `http.dfy` (the request object), `base_client.dfy`,
`blob_client.dfy`, `blob_container_client.dfy`, `options.dfy`. Each file is one module.

The source ends the process when the service name is invalid. The model returns
`Err(InvalidService(service))` instead. Both clients pass the literal `blob`, so their construction
never takes that path, and the model proves this.

`Url::parse` is treated as the identity on composed strings. A new `Http.Request` is assumed to start with an empty header map, as the foreign `Request::new` does; the descriptor contracts rely on this. The client fields are `const`: the
source never changes them after construction. So building a request leaves every client field
unchanged by construction of the model.

## Model

| member | source | states |
|---|---|---|
| `BaseClient.BuildUrl` | sdk/storage_blobs/src/base_client.rs:22-29 | succeeds iff the service is one of blob, queue, file-share, dfs; the error names the rejected service; on success the URL is 27 characters longer than account and service together, starts with `https://` and ends with `.core.windows.net/` |
| `BaseClient.BuildUrlParts` | sdk/storage_blobs/src/base_client.rs:28 | the account name sits verbatim right after `https://`, followed by `.` and then the service name verbatim |
| `BaseClient.BuildUrlInjective` | sdk/storage_blobs/src/base_client.rs:28 | for a fixed valid service, equal host URLs imply equal account names |
| `BaseClient.Finalized` | sdk/storage_blobs/src/base_client.rs:32 | after stamping, the keys are the old keys plus `x-ms-version`; `x-ms-version` maps to `2023-11-03`; every other header keeps its value |
| `BaseClient.FinalizedIdempotent` | sdk/storage_blobs/src/base_client.rs:31-33 | stamping twice gives the same header map as stamping once |
| `BaseClient.FinalizedOverrides` | sdk/storage_blobs/src/base_client.rs:32 | the value `x-ms-version` held before stamping does not affect the result (last write wins) |
| `BaseClient.FinalizeRequest` | sdk/storage_blobs/src/base_client.rs:31-33 | the request's new header map is the stamped old map; its method and URL are unchanged |
| `Http.Request.constructor` | sdk/storage_blobs/src/blob_client.rs:51 | a new request has the given URL and method and no headers yet (assumed behaviour of the foreign `Request::new`) |
| `Http.Request.InsertHeader` | sdk/storage_blobs/src/base_client.rs:32 | the header map gains or overwrites exactly one entry; method and URL are unchanged |
| `Blob.BuildBlobUrl` | sdk/storage_blobs/src/blob_client.rs:45-47 | the result has the base as its prefix, then the container name verbatim, then `/`, then the blob name verbatim; it is 1 character longer than base, container and blob together |
| `Blob.BlobUrlInjective` | sdk/storage_blobs/src/blob_client.rs:46 | when neither container name contains `/`, equal blob URLs imply equal container and blob names |
| `Blob.BlobUrlAmbiguousWithSlash` | sdk/storage_blobs/src/blob_client.rs:46 | without escaping, container `a/b` with blob `c` and container `a` with blob `b/c` share one URL |
| `Blob.BlobUrl` | sdk/storage_blobs/src/blob_client.rs:24-28 | a blob client's URL is exactly `https://{account}.blob.core.windows.net/{container}/{blob}` |
| `Blob.BlobUrlOnBlobHost` | sdk/storage_blobs/src/blob_client.rs:24-28 | host composition for the `blob` service never fails, and the blob URL starts with that host URL |
| `Blob.BlobClient.constructor` | sdk/storage_blobs/src/blob_client.rs:17-42 | stores the account, container and blob names, and the URL `https://{account}.blob.core.windows.net/{container}/{blob}` |
| `Blob.BlobClient.DownloadBlob` | sdk/storage_blobs/src/blob_client.rs:49-52 | returns a fresh request with method GET on the client's URL, whose headers are exactly `x-ms-version: 2023-11-03` |
| `Blob.BlobClient.GetBlobProperties` | sdk/storage_blobs/src/blob_client.rs:66-69 | returns a fresh request with method HEAD on the client's URL, whose headers are exactly `x-ms-version: 2023-11-03` |
| `Container.BuildContainerUrl` | sdk/storage_blobs/src/blob_container_client.rs:41-43 | the result has the base as its prefix, then the container name verbatim, then the suffix `/?restype=container`; it is 19 characters longer than base and container together |
| `Container.ContainerUrlInjective` | sdk/storage_blobs/src/blob_container_client.rs:42 | under one base, equal container URLs imply equal container names |
| `Container.ContainerUrl` | sdk/storage_blobs/src/blob_container_client.rs:24-28 | a container client's URL is exactly `https://{account}.blob.core.windows.net/{container}/?restype=container` |
| `Container.ContainerUrlOnBlobHost` | sdk/storage_blobs/src/blob_container_client.rs:25-28 | host composition for the `blob` service never fails, and the container URL starts with that host URL |
| `Container.BlobContainerClient.constructor` | sdk/storage_blobs/src/blob_container_client.rs:19-38 | stores the account and container names, and that container URL |
| `Container.BlobContainerClient.GetContainerProperties` | sdk/storage_blobs/src/blob_container_client.rs:45-48 | returns a fresh request with method HEAD on the container URL, whose headers are exactly `x-ms-version: 2023-11-03` |
| `Options.Default` | sdk/storage_blobs/src/options/mod.rs:15-22 | the default API version is `Some("2023-11-03")`, with the default pipeline options |
| `Options.Builder` | sdk/storage_blobs/src/options/mod.rs:10-12 | returns a fresh builder holding exactly the default options |
| `Options.BlobClientOptionsBuilder.constructor` | sdk/storage_blobs/src/options/mod.rs:32-36 | a new builder holds exactly the default options |
| `Options.BlobClientOptionsBuilder.WithApiVersion` | sdk/storage_blobs/src/options/mod.rs:38-41 | sets the API version to `Some(v)`, keeps the pipeline options, and returns the same builder |
| `Options.BlobClientOptionsBuilder.WithClientOptions` | sdk/storage_blobs/src/options/mod.rs:44-47 | sets the pipeline options, keeps the API version, and returns the same builder |
| `Options.BlobClientOptionsBuilder.Build` | sdk/storage_blobs/src/options/mod.rs:49-51 | returns a value equal to the builder's current options and changes nothing |
| `Options.BuildWithVersionAndClientOptions` | sdk/storage_blobs/src/options/mod.rs:59-71 | building after `with_api_version(v)` and then `with_client_options(o)` yields API version `Some(v)` and pipeline options `o` |
| `Options.BuildWithVersionTwice` | sdk/storage_blobs/src/options/mod.rs:38-41 | when the version is set twice, the second one is built; building twice gives equal results |

## Left out

- `build_pipeline`, the bearer-token policy, `Pipeline::new` and `send`, and `get_credential`: these are transport, authentication and foreign library calls. The clients' credential and pipeline fields are not modelled.
- The blob client's `credential` string is accepted and ignored, as in the source, where `get_credential()` replaces it.
- The container client's credential argument is dropped from its constructor: the source only stores a clone of it and hands it to `build_pipeline`, and both are left out.
- Sending a request, awaiting it, reading the response body and unwrapping the network results: these are network I/O. Only the request descriptor is modelled.
- The log line and the process exit on an invalid service: the exit is modelled as the `Err` result of `BaseClient.BuildUrl`.
- `Url::parse` and its failure (`expect`) on malformed input: URLs are the composed strings. Parsing would normalise them (lower-case the host, percent-encode characters such as spaces, remove dot segments), so the exact URLs stated for `Blob.BlobUrl`, `Container.ContainerUrl` and both constructors hold as stored URLs only for names already in that normal form.
- The internals of `ClientOptions`, `RetryOptions` and `FixedRetryOptions`: they are a type parameter, and `ClientOptions::default()` is a parameter.
- Header-name normalisation inside the foreign `Request`/`Headers` types, and the request body: header keys are compared as plain strings.
- The network-backed tests in `blob_client.rs` and `blob_container_client.rs`: they assert on live server responses.
- Blob kinds, the typestate transitions between them, upload validation, page alignment and upload headers: no code for them exists in these source files.
