/**
 * The transport-agnostic request descriptor that the storage clients build before
 * handing it to the pipeline. Only the parts the clients touch are modelled: the
 * HTTP method, the target URL and the header map.
 */
module Http {

  /** The HTTP methods the storage clients issue. */
  datatype Method = Get | Head

  /**
   * A request under construction. `url` is the composed URL string (parsing it is
   * treated as the identity on the strings the clients compose), and `headers`
   * maps each header name to its single value.
   */
  class Request {
    var httpMethod: Method
    var url: string
    var headers: map<string, string>

    /** A fresh request for `url` with `httpMethod` and no headers yet. */
    constructor (url: string, httpMethod: Method)
      ensures this.url == url && this.httpMethod == httpMethod
      ensures headers == map[]
    {
      this.url := url;
      this.httpMethod := httpMethod;
      headers := map[];
    }

    /** Sets header `name` to `value`, replacing any value it held (last write wins). */
    method InsertHeader(name: string, value: string)
      modifies this
      ensures headers == old(headers)[name := value]
      ensures httpMethod == old(httpMethod) && url == old(url)
    {
      headers := headers[name := value];
    }
  }
}
