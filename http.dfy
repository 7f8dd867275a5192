/** The values the service worker reads and produces: requests, responses,
    and what one network fetch did. */
module Http {

  datatype Option<T> = None | Some(value: T)

  /** A request URL as the cache compares it: resolved against the site's
      origin and with its fragment (`#...`) removed. The paths the worker
      lists stand for their resolved forms; they are written as paths. */
  type Url = string

  /** The parts of a `Request` that the worker reads. */
  datatype Request = Request(httpMethod: string, url: Url, mode: string)

  /** A response snapshot. A clone is the same value, so a response can be
      both returned and stored. Headers are not modelled. */
  datatype Response = Response(status: int, statusText: string, body: string)

  /** What one `fetch` did: it resolved with a response of any status (an HTTP
      404 or 500 resolves too), or it rejected because the network failed. */
  datatype NetOutcome = Ok(response: Response) | Fail

  /** An "ok status" in the Fetch standard: 200 to 299 inclusive. */
  predicate IsOkStatus(status: int) {
    200 <= status <= 299
  }
}
