/** The parts of net/http the client touches: a request built in place and a
    caller-supplied transport that records every request it is given. */
module Http {
  import opened Envelope

  const StatusOK := 200

  /** A header value. Basic credentials stand for the base64 "Basic ..." value
      that SetBasicAuth writes, without the encoding. */
  datatype HeaderValue = Text(text: string) | BasicCredentials(username: string, password: string)

  /** A request as the transport receives it. */
  datatype Request = Request(
    verb: string,
    url: string,
    header: map<string, HeaderValue>,
    body: string)

  /** What a round trip yields: an error from the transport, or a status and a body
      that can or cannot be read to its end. */
  datatype Reply =
    | DoFailed
    | Response(status: int, readable: bool, body: Body)

  /** An *http.Request: fixed verb and URL, header and body changed in place. */
  class HttpRequest {
    const verb: string
    const url: string
    var header: map<string, HeaderValue>
    var body: string

    /** The request as it stands. */
    function Value(): Request
      reads this
    {
      Request(verb, url, header, body)
    }

    /** http.NewRequest with a nil body. */
    constructor (verb: string, url: string)
      ensures Value() == Request(verb, url, map[], "")
    {
      this.verb := verb;
      this.url := url;
      header := map[];
      body := "";
    }

    /** Header.Set: replaces any earlier value of the key. */
    method SetHeader(key: string, value: string)
      modifies this
      ensures Value() == old(Value()).(header := old(header)[key := Text(value)])
    {
      header := header[key := Text(value)];
    }

    /** SetBasicAuth: the Authorization header carries the credentials. */
    method SetBasicAuth(username: string, password: string)
      modifies this
      ensures Value() == old(Value()).(header := old(header)["Authorization" := BasicCredentials(username, password)])
    {
      header := header["Authorization" := BasicCredentials(username, password)];
    }

    /** Assigning req.Body. */
    method SetBody(text: string)
      modifies this
      ensures Value() == old(Value()).(body := text)
    {
      body := text;
    }
  }

  /** An *http.Client shared by the caller: its answers are a function of the request,
      and it logs every request it is given. */
  class Transport {
    const respond: Request -> Reply
    ghost var sent: seq<Request>

    constructor (respond: Request -> Reply)
      ensures this.respond == respond && sent == []
    {
      this.respond := respond;
      sent := [];
    }

    /** client.Do: one round trip, logged. */
    method Do(req: HttpRequest) returns (reply: Reply)
      modifies this
      ensures sent == old(sent) + [req.Value()]
      ensures reply == respond(req.Value())
    {
      sent := sent + [req.Value()];
      reply := respond(req.Value());
    }
  }
}
