/** The BMC client: the authentication handshake at construction, the shared call
    helper that injects credentials and checks the status, and the seven operations. */
module BmcApi {
  import opened Outcomes
  import opened Decimal
  import opened Envelope
  import opened Endpoints
  import opened Http

  /** The Turing Pi 2's own address, used when no base URL is given. */
  const DefaultURL := "https://turingpi.local"

  /** The base URL a client keeps: the given one, or the default when it is empty. */
  function ResolveBaseURL(baseURL: string): (r: string)
    ensures r != ""
    ensures baseURL != "" ==> r == baseURL
    ensures baseURL == "" ==> r == DefaultURL
  {
    if baseURL == "" then DefaultURL else baseURL
  }

  predicate KnownAuthType(authType: string) {
    authType == "basic" || authType == "bearer"
  }

  /** The bearer handshake body: credentials spliced into JSON text, without escaping. */
  function BearerRequestBody(username: string, password: string): string
  {
    "{\"username\":\"" + username + "\",\"password\":\"" + password + "\"}"
  }

  /** The bearer handshake: GET with a body, asking the device for a token.
      The credentials travel in the body, not in an Authorization header. */
  function BearerAuthRequest(baseURL: string, username: string, password: string): (r: Request)
    ensures r.verb == "GET" && r.url == baseURL + AuthenticatePath
    ensures PresentedCredential(r.header) == None
    ensures "Content-Type" in r.header && r.header["Content-Type"] == Text("application/json")
  {
    Request("GET", baseURL + AuthenticatePath,
      map["Content-Type" := Text("application/json")],
      BearerRequestBody(username, password))
  }

  /** The basic handshake: an info request carrying the supplied credentials. */
  function BasicAuthRequest(baseURL: string, username: string, password: string): (r: Request)
    ensures r.verb == "GET" && r.url == baseURL + Endpoint(Info) && r.body == ""
    ensures PresentedCredential(r.header) == Some(Basic(username, password))
  {
    Request("GET", baseURL + Endpoint(Info),
      map["Authorization" := BasicCredentials(username, password)], "")
  }

  /** What the bearer handshake makes of the device's answer. */
  function BearerHandshake(reply: Reply): (r: Result<AuthRecord>)
    ensures r.Success? <==>
      reply.Response? && reply.status == StatusOK && reply.readable &&
      reply.body.asAuth.WellFormed? && reply.body.asAuth.value.accessToken != ""
    ensures r.Success? ==> r.value == reply.body.asAuth.value && r.value.accessToken != ""
    ensures reply.Response? && reply.status == StatusOK && reply.readable && reply.body.asAuth.Malformed? ==>
      r == Failure(ParseError)
    ensures reply.Response? && reply.status == StatusOK && !reply.readable ==> r == Failure(ReadError)
    ensures reply.DoFailed? ==> r == Failure(TransportError)
    ensures reply.Response? && reply.status != StatusOK ==> r == Failure(AuthStatus(reply.status))
    ensures reply.Response? && reply.status == StatusOK && reply.readable &&
            reply.body.asAuth.WellFormed? && reply.body.asAuth.value.accessToken == "" ==>
            r == Failure(MissingToken)
  {
    match reply
    case DoFailed => Failure(TransportError)
    case Response(status, readable, body) =>
      if status != StatusOK then Failure(AuthStatus(status))
      else if !readable then Failure(ReadError)
      else
        match body.asAuth
        case Malformed => Failure(ParseError)
        case WellFormed(record) =>
          if record.accessToken == "" then Failure(MissingToken) else Success(record)
  }

  /** What the basic handshake makes of the device's answer: the body is never read. */
  function BasicHandshake(reply: Reply, username: string, password: string): (r: Result<AuthRecord>)
    ensures r.Success? <==> reply.Response? && reply.status == StatusOK
    ensures r.Success? ==> r.value.username == username && r.value.password == password &&
                           r.value.accessToken == ""
    ensures reply.DoFailed? ==> r == Failure(TransportError)
    ensures reply.Response? && reply.status != StatusOK ==> r == Failure(AuthStatus(reply.status))
  {
    match reply
    case DoFailed => Failure(TransportError)
    case Response(status, _, _) =>
      if status != StatusOK then Failure(AuthStatus(status))
      else Success(EmptyAuth.(username := username, password := password))
  }

  /** The authorization headers a call carries, chosen by the auth tag. */
  function AuthHeaders(authType: string, auth: AuthRecord): (h: map<string, HeaderValue>)
    ensures "Authorization" in h <==> KnownAuthType(authType)
    ensures "Content-Type" in h <==> authType == "bearer"
    ensures h.Keys <= {"Authorization", "Content-Type"}
  {
    if authType == "basic" then
      map["Authorization" := BasicCredentials(auth.username, auth.password)]
    else if authType == "bearer" then
      map["Content-Type" := Text("application/json"),
          "Authorization" := Text("Bearer " + auth.accessToken)]
    else map[]
  }

  /** A credential as the device reads it from a request. */
  datatype Credential = Basic(username: string, password: string) | Bearer(token: string)

  const BearerScheme := "Bearer "

  /** The device's view of the Authorization header. */
  function PresentedCredential(header: map<string, HeaderValue>): Option<Credential>
  {
    if "Authorization" !in header then None
    else
      match header["Authorization"]
      case BasicCredentials(u, p) => Some(Basic(u, p))
      case Text(t) =>
        if HasPrefix(t, BearerScheme) then Some(Bearer(t[|BearerScheme|..])) else None
  }

  /** The headers carry exactly the stored credential of the client's mode. */
  lemma AuthHeadersPresent(authType: string, auth: AuthRecord)
    ensures authType == "basic" ==>
      PresentedCredential(AuthHeaders(authType, auth)) == Some(Basic(auth.username, auth.password))
    ensures authType == "bearer" ==>
      PresentedCredential(AuthHeaders(authType, auth)) == Some(Bearer(auth.accessToken)) &&
      AuthHeaders(authType, auth)["Content-Type"] == Text("application/json")
    ensures !KnownAuthType(authType) ==> PresentedCredential(AuthHeaders(authType, auth)) == None
  {
    if authType == "bearer" {
      var t := BearerScheme + auth.accessToken;
      assert t[..|BearerScheme|] == BearerScheme;
      assert t[|BearerScheme|..] == auth.accessToken;
    }
  }

  /** After a successful bearer handshake, every call presents the token the device issued,
      and that token is not empty. */
  lemma BearerHandshakeThenCall(reply: Reply)
    requires BearerHandshake(reply).Success?
    ensures PresentedCredential(AuthHeaders("bearer", BearerHandshake(reply).value)) ==
      Some(Bearer(reply.body.asAuth.value.accessToken))
    ensures reply.body.asAuth.value.accessToken != ""
  {
    AuthHeadersPresent("bearer", BearerHandshake(reply).value);
  }

  /** After a successful basic handshake, every call presents the supplied credentials verbatim. */
  lemma BasicHandshakeThenCall(reply: Reply, username: string, password: string)
    requires BasicHandshake(reply, username, password).Success?
    ensures PresentedCredential(AuthHeaders("basic", BasicHandshake(reply, username, password).value)) ==
      Some(Basic(username, password))
  {
    AuthHeadersPresent("basic", BasicHandshake(reply, username, password).value);
  }

  /** The call helper's verdict on a reply: the body, only for a readable 200 answer. */
  function CallOutcome(reply: Reply): (r: Result<Body>)
    ensures r.Success? <==> reply.Response? && reply.status == StatusOK && reply.readable
    ensures r.Success? ==> r.value == reply.body
    ensures reply.DoFailed? ==> r == Failure(TransportError)
    ensures reply.Response? && reply.status != StatusOK ==> r == Failure(StatusError(reply.status))
    ensures reply.Response? && reply.status == StatusOK && !reply.readable ==> r == Failure(ReadError)
  {
    match reply
    case DoFailed => Failure(TransportError)
    case Response(status, readable, body) =>
      if status != StatusOK then Failure(StatusError(status))
      else if !readable then Failure(ReadError)
      else Success(body)
  }

  /** A scalar operation's result: the call, then the scalar parser. */
  function ScalarOutcome(reply: Reply): (r: Result<string>)
    ensures CallOutcome(reply).Failure? ==> r == Failure(CallOutcome(reply).error)
    ensures CallOutcome(reply).Success? && r.Failure? ==> r.error == ParseError
    ensures r.Success? <==>
      reply.Response? && reply.status == StatusOK && reply.readable &&
      reply.body.asResult.WellFormed? && |reply.body.asResult.value.response| > 0 &&
      reply.body.asResult.value.response[0].result != ""
    ensures r.Success? ==>
      reply.Response? && reply.body.asResult.WellFormed? &&
      |reply.body.asResult.value.response| > 0 &&
      r.value == reply.body.asResult.value.response[0].result
  {
    match CallOutcome(reply)
    case Failure(e) => Failure(e)
    case Success(body) => ResultAPIParse(body.asResult)
  }

  /** An object operation's result: the call, then the object parser. */
  function ObjectOutcome(reply: Reply): (r: Result<map<string, string>>)
    ensures CallOutcome(reply).Failure? ==> r == Failure(CallOutcome(reply).error)
    ensures CallOutcome(reply).Success? && r.Failure? ==> r.error == ParseError
    ensures r.Success? <==>
      reply.Response? && reply.status == StatusOK && reply.readable &&
      reply.body.asObject.WellFormed? && |reply.body.asObject.value.response| > 0 &&
      |reply.body.asObject.value.response[0].result| > 0
    ensures r.Success? ==>
      reply.Response? && reply.body.asObject.WellFormed? &&
      |reply.body.asObject.value.response| > 0 &&
      |reply.body.asObject.value.response[0].result| > 0 &&
      r.value == reply.body.asObject.value.response[0].result[0]
  {
    match CallOutcome(reply)
    case Failure(e) => Failure(e)
    case Success(body) => ObjectAPIParse(body.asObject)
  }

  /** Other's result: the object outcome mapped onto the record. */
  function OtherOutcome(reply: Reply): (r: Result<BmcOther>)
    ensures r.Success? <==> ObjectOutcome(reply).Success?
    ensures r.Success? ==> r.value == OtherFromMap(ObjectOutcome(reply).value)
    ensures r.Failure? ==> r == Failure(ObjectOutcome(reply).error)
  {
    match ObjectOutcome(reply)
    case Failure(e) => Failure(e)
    case Success(m) => Success(OtherFromMap(m))
  }

  /** A status other than 200 fails every kind of call with that status, whatever the body. */
  lemma StatusErrorRegardlessOfBody(status: int, readable: bool, body: Body)
    requires status != StatusOK
    ensures ScalarOutcome(Response(status, readable, body)) == Failure(StatusError(status))
    ensures ObjectOutcome(Response(status, readable, body)) == Failure(StatusError(status))
    ensures OtherOutcome(Response(status, readable, body)) == Failure(StatusError(status))
  {
  }

  /** A BMCAPI: fixed after construction. */
  class BMCAPI {
    const auth: AuthRecord
    const baseURL: string
    const client: Transport
    const authType: string

    constructor (auth: AuthRecord, baseURL: string, client: Transport, authType: string)
      ensures this.auth == auth && this.baseURL == baseURL
      ensures this.client == client && this.authType == authType
    {
      this.auth := auth;
      this.baseURL := baseURL;
      this.client := client;
      this.authType := authType;
    }

    /** What a constructed client satisfies: a known mode, a base URL, and a token in bearer mode. */
    predicate Established() {
      KnownAuthType(authType) && baseURL != "" &&
      (authType == "bearer" ==> auth.accessToken != "")
    }

    /** The request the call helper sends for an endpoint. */
    function CallRequest(endpoint: string): Request
    {
      Request("GET", baseURL + endpoint, AuthHeaders(authType, auth), "")
    }

    /** The transport's answer to the call helper for an operation. */
    function ReplyTo(op: Op): Reply
    {
      client.respond(CallRequest(Endpoint(op)))
    }

    /** bmcAPICall: one GET with the mode's credentials; any status other than 200 fails. */
    method BmcAPICall(endpoint: string) returns (r: Result<Body>)
      modifies client
      ensures client.sent == old(client.sent) + [CallRequest(endpoint)]
      ensures r == CallOutcome(client.respond(CallRequest(endpoint)))
    {
      var req := new HttpRequest("GET", baseURL + endpoint);
      if authType == "basic" {
        req.SetBasicAuth(auth.username, auth.password);
      } else if authType == "bearer" {
        req.SetHeader("Content-Type", "application/json");
        req.SetHeader("Authorization", "Bearer " + auth.accessToken);
      }
      var reply := client.Do(req);
      match reply {
        case DoFailed =>
          r := Failure(TransportError);
        case Response(status, readable, body) =>
          if status != StatusOK {
            r := Failure(StatusError(status));
          } else if !readable {
            r := Failure(ReadError);
          } else {
            r := Success(body);
          }
      }
    }

    method Other() returns (r: Result<BmcOther>)
      modifies client
      ensures client.sent == old(client.sent) + [CallRequest(Endpoint(Op.Other))]
      ensures r == OtherOutcome(ReplyTo(Op.Other))
    {
      var body := BmcAPICall(OtherPath);
      match body {
        case Failure(e) =>
          r := Failure(e);
        case Success(b) =>
          var result := ObjectAPIParse(b.asObject);
          match result {
            case Failure(e) =>
              r := Failure(e);
            case Success(m) =>
              r := Success(OtherFromMap(m));
          }
      }
    }

    method USBBoot(node: int) returns (r: Result<string>)
      modifies client
      ensures !ValidNode(node) ==> r == Failure(ValidationError) && client.sent == old(client.sent)
      ensures ValidNode(node) ==>
        client.sent == old(client.sent) + [CallRequest(Endpoint(UsbBoot(node)))] &&
        r == ScalarOutcome(ReplyTo(UsbBoot(node)))
    {
      if node < 0 || node > 3 {
        return Failure(ValidationError);
      }
      var body := BmcAPICall(UsbBootPrefix + Itoa(node));
      match body {
        case Failure(e) => r := Failure(e);
        case Success(b) => r := ResultAPIParse(b.asResult);
      }
    }

    method ClearUSBBoot(node: int) returns (r: Result<string>)
      modifies client
      ensures !ValidNode(node) ==> r == Failure(ValidationError) && client.sent == old(client.sent)
      ensures ValidNode(node) ==>
        client.sent == old(client.sent) + [CallRequest(Endpoint(ClearUsbBoot(node)))] &&
        r == ScalarOutcome(ReplyTo(ClearUsbBoot(node)))
    {
      if node < 0 || node > 3 {
        return Failure(ValidationError);
      }
      var body := BmcAPICall(ClearUsbBootPrefix + Itoa(node));
      match body {
        case Failure(e) => r := Failure(e);
        case Success(b) => r := ResultAPIParse(b.asResult);
      }
    }

    method ResetNetwork() returns (r: Result<string>)
      modifies client
      ensures client.sent == old(client.sent) + [CallRequest(Endpoint(Op.ResetNetwork))]
      ensures r == ScalarOutcome(ReplyTo(Op.ResetNetwork))
    {
      var body := BmcAPICall(NetworkPath);
      match body {
        case Failure(e) => r := Failure(e);
        case Success(b) => r := ResultAPIParse(b.asResult);
      }
    }

    method NodetoMSD(node: int) returns (r: Result<string>)
      modifies client
      ensures !ValidNode(node) ==> r == Failure(ValidationError) && client.sent == old(client.sent)
      ensures ValidNode(node) ==>
        client.sent == old(client.sent) + [CallRequest(Endpoint(NodeToMsd(node)))] &&
        r == ScalarOutcome(ReplyTo(NodeToMsd(node)))
    {
      if node < 0 || node > 3 {
        return Failure(ValidationError);
      }
      var body := BmcAPICall(NodeToMsdPrefix + Itoa(node));
      match body {
        case Failure(e) => r := Failure(e);
        case Success(b) => r := ResultAPIParse(b.asResult);
      }
    }

    method SetPower(node: int, powerState: int) returns (r: Result<string>)
      modifies client
      ensures !(ValidNode(node) && ValidPowerState(powerState)) ==>
        r == Failure(ValidationError) && client.sent == old(client.sent)
      ensures ValidNode(node) && ValidPowerState(powerState) ==>
        client.sent == old(client.sent) + [CallRequest(Endpoint(Op.SetPower(node, powerState)))] &&
        r == ScalarOutcome(ReplyTo(Op.SetPower(node, powerState)))
    {
      if node < 0 || node > 3 {
        return Failure(ValidationError);
      }
      if powerState < 0 || powerState > 1 {
        return Failure(ValidationError);
      }
      var body := BmcAPICall(SetPowerPrefix + Itoa(node) + "=" + Itoa(powerState));
      match body {
        case Failure(e) => r := Failure(e);
        case Success(b) => r := ResultAPIParse(b.asResult);
      }
    }

    /** The power state of every node, keyed by node name, as the device reports it. */
    method GetPower() returns (r: Result<map<string, string>>)
      modifies client
      ensures client.sent == old(client.sent) + [CallRequest(Endpoint(Op.GetPower))]
      ensures r == ObjectOutcome(ReplyTo(Op.GetPower))
    {
      var body := BmcAPICall(PowerPath);
      match body {
        case Failure(e) => r := Failure(e);
        case Success(b) => r := ObjectAPIParse(b.asObject);
      }
    }
  }

  /** How a construction result follows from the handshake's verdict. */
  ghost predicate Yields(r: Result<BMCAPI>, handshake: Result<AuthRecord>,
                         baseURL: string, authType: string, client: Transport)
  {
    match handshake
    case Failure(e) => r == Failure(e)
    case Success(auth) =>
      r.Success? && r.value.auth == auth && r.value.baseURL == baseURL &&
      r.value.authType == authType && r.value.client == client
  }

  /** NewBMCAPI: checks the auth type, performs the mode's handshake, and keeps the resolved
      base URL, the transport, the mode and the credentials. */
  method NewBMCAPI(baseURL: string, authType: string, username: string, password: string,
                   client: Transport) returns (r: Result<BMCAPI>)
    modifies client
    ensures !KnownAuthType(authType) ==> r == Failure(ConfigError) && client.sent == old(client.sent)
    ensures authType == "bearer" ==>
      var req := BearerAuthRequest(ResolveBaseURL(baseURL), username, password);
      client.sent == old(client.sent) + [req] &&
      Yields(r, BearerHandshake(client.respond(req)), ResolveBaseURL(baseURL), authType, client)
    ensures authType == "basic" ==>
      var req := BasicAuthRequest(ResolveBaseURL(baseURL), username, password);
      client.sent == old(client.sent) + [req] &&
      Yields(r, BasicHandshake(client.respond(req), username, password),
             ResolveBaseURL(baseURL), authType, client)
    ensures r.Success? ==> fresh(r.value) && r.value.Established()
  {
    var base := baseURL;
    if base == "" {
      base := DefaultURL;
    }
    var authResponse := EmptyAuth;
    if authType != "basic" && authType != "bearer" {
      return Failure(ConfigError);
    }
    if authType == "bearer" {
      var req := new HttpRequest("GET", base + AuthenticatePath);
      req.SetHeader("Content-Type", "application/json");
      req.SetBody(BearerRequestBody(username, password));
      var reply := client.Do(req);
      match reply {
        case DoFailed =>
          return Failure(TransportError);
        case Response(status, readable, body) =>
          if status != StatusOK {
            return Failure(AuthStatus(status));
          }
          if !readable {
            return Failure(ReadError);
          }
          match body.asAuth {
            case Malformed =>
              return Failure(ParseError);
            case WellFormed(record) =>
              authResponse := record;
          }
      }
      if authResponse.accessToken == "" {
        return Failure(MissingToken);
      }
    } else if authType == "basic" {
      var req := new HttpRequest("GET", base + InfoPath);
      req.SetBasicAuth(username, password);
      var reply := client.Do(req);
      match reply {
        case DoFailed =>
          return Failure(TransportError);
        case Response(status, _, _) =>
          if status != StatusOK {
            return Failure(AuthStatus(status));
          }
      }
      authResponse := authResponse.(username := username);
      authResponse := authResponse.(password := password);
    }
    var api := new BMCAPI(authResponse, base, client, authType);
    r := Success(api);
  }
}
