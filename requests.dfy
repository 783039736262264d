/** What the middlewares read of an `*http.Request`, and the next handler
    they delegate to. */
module Requests {
  import opened Headers
  import P = Response

  /** The request line's method (`verb`), the header, the declared body length and
      the route pattern the router matched (empty when there is none). */
  datatype Request = Request(verb: string, header: HeaderMap, contentLength: int, pattern: string)

  /** `r.Header.Get(key)`. */
  function HeaderOf(r: Request, key: string): string {
    GetOf(r.header, key)
  }

  /** The next handler in a chain, reduced to what a middleware can
      observe: how often it is invoked and the response it returns. */
  class Next {
    var calls: nat
    const reply: P.DataResponse

    constructor(reply: P.DataResponse)
      ensures this.reply == reply && calls == 0
    {
      this.reply := reply;
      calls := 0;
    }

    /** `next.Handle(r, f)`. */
    method Handle() returns (r: P.DataResponse)
      modifies this
      ensures r == reply && calls == old(calls) + 1
    {
      calls := calls + 1;
      r := reply;
    }
  }
}
