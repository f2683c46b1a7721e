/** The HTTP client side of the gateway, reduced to what the code observes:
    a request (method, URL, query parameters, JSON body) and its outcome
    (the response text after a successful status check, a timeout, or any
    other failure with its message). */
module Http {
  import opened Values

  datatype Method = Get | Post | Delete

  datatype Request = Request(verb: Method, url: string, params: Option<Json>, body: Option<Json>)

  /** What an httpx call ends in once `raise_for_status()` has run: the body
      of a 2xx response, `httpx.TimeoutException`, or any other exception
      (connection failure, non-2xx status) carrying `str(e)`. */
  datatype Outcome = Completed(text: string) | TimedOut(message: string) | Failed(message: string)

  /** The network as the code sees it. `respond` fixes what the far side
      answers to each request; `sent` records every request handed to httpx,
      so "no request is made" is a statement about `sent`. */
  class Transport {
    const respond: Request -> Outcome
    var sent: seq<Request>

    constructor(respond: Request -> Outcome)
      ensures this.respond == respond && sent == []
    {
      this.respond := respond;
      sent := [];
    }

    method Send(req: Request) returns (o: Outcome)
      modifies this
      ensures sent == old(sent) + [req]
      ensures o == respond(req)
    {
      sent := sent + [req];
      o := respond(req);
    }
  }
}
