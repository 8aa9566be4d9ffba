/** Walkthroughs against mock transports: the fixture of bmcapi_test.go and the
    documented behaviours of construction and argument checking. */
module Scenarios {
  import opened Outcomes
  import opened Envelope
  import opened Endpoints
  import opened Http
  import opened BmcApi

  predicate OccursAt(s: string, sub: string, i: int) {
    0 <= i <= |s| - |sub| && s[i..i + |sub|] == sub
  }

  /** strings.Contains */
  predicate Contains(s: string, sub: string) {
    exists i | 0 <= i <= |s| - |sub| :: OccursAt(s, sub, i)
  }

  /** A body that decodes into none of the three schemas (an empty body). */
  const EmptyBody := Body(Malformed, Malformed, Malformed)

  /** The canned "other" object of the test. */
  const FixtureObject: map<string, string> := map[
    "api" := "1.1",
    "build_version" := "2024.05.1",
    "buildroot" := "\"Buildroot 2024.05.1\"",
    "buildtime" := "2025-01-17 17:12:52-00:00",
    "ip" := "Unknown",
    "mac" := "Unknown",
    "version" := "2.3.4"]

  /** The canned body: an object envelope; it has no token and is not a scalar envelope. */
  const FixtureBody := Body(
    WellFormed(EmptyAuth),
    Malformed,
    WellFormed(ObjectEnvelope([ObjectEntry([FixtureObject])])))

  const FixtureOther := BmcOther(
    "1.1", "2024.05.1", "\"Buildroot 2024.05.1\"", "2025-01-17 17:12:52-00:00",
    "Unknown", "Unknown", "2.3.4")

  /** The test's mock transport: the fixture for the "other" endpoint, 404 for anything else. */
  function MockOther(req: Request): Reply
  {
    if Contains(req.url, OtherPath) then Response(StatusOK, true, FixtureBody)
    else Response(404, true, EmptyBody)
  }

  /** Other against the fixture returns the seven fields verbatim. */
  method OtherFixture() returns (got: Result<BmcOther>)
    ensures got == Success(FixtureOther)
  {
    var transport := new Transport(MockOther);
    var bmc := new BMCAPI(EmptyAuth.(username := "user", password := "pass"),
                          "http://mock", transport, "basic");
    var url := bmc.CallRequest(OtherPath).url;
    assert OccursAt(url, OtherPath, 11);
    got := bmc.Other();
  }

  /** A device that answers every call with 404 and the fixture's body. */
  function MockNotFound(req: Request): Reply
  {
    Response(404, true, FixtureBody)
  }

  /** A status other than 200 fails the call whatever the body holds. */
  method NotFound() returns (got: Result<BmcOther>)
    ensures got == Failure(StatusError(404))
  {
    var transport := new Transport(MockNotFound);
    var bmc := new BMCAPI(EmptyAuth.(username := "user", password := "pass"),
                          "http://mock", transport, "basic");
    got := bmc.Other();
  }

  /** An unknown auth type fails before the transport sees anything. */
  method UnknownAuthType() returns (r: Result<BMCAPI>, ghost sent: seq<Request>)
    ensures r == Failure(ConfigError) && sent == []
  {
    var transport := new Transport(MockOther);
    r := NewBMCAPI("", "digest", "user", "pass", transport);
    sent := transport.sent;
  }

  /** A device that issues the token "tok" to anyone and answers every call with "ok". */
  function MockTokenIssuer(req: Request): Reply
  {
    Response(StatusOK, true, Body(
      WellFormed(EmptyAuth.(accessToken := "tok")),
      WellFormed(WrapResult("ok")),
      Malformed))
  }

  /** A bearer client whose handshake succeeded presents the issued token on later calls. */
  method BearerThenReset() returns (r: Result<string>, ghost last: Request)
    ensures r == Success("ok")
    ensures last.url == DefaultURL + NetworkPath
    ensures PresentedCredential(last.header) == Some(Bearer("tok"))
  {
    var transport := new Transport(MockTokenIssuer);
    var made := NewBMCAPI("", "bearer", "user", "pass", transport);
    match made {
      case Failure(_) =>
        assert false;
      case Success(bmc) =>
        r := bmc.ResetNetwork();
        last := transport.sent[|transport.sent| - 1];
        AuthHeadersPresent("bearer", bmc.auth);
    }
  }

  /** A device that answers the handshake with 200 but no token. */
  function MockNoToken(req: Request): Reply
  {
    Response(StatusOK, true, Body(WellFormed(EmptyAuth), Malformed, Malformed))
  }

  method BearerWithoutToken() returns (r: Result<BMCAPI>)
    ensures r == Failure(MissingToken)
  {
    var transport := new Transport(MockNoToken);
    r := NewBMCAPI("https://bmc", "bearer", "user", "pass", transport);
  }

  /** Out-of-range arguments fail every node-taking operation without a request. */
  method OutOfRange(node: int, powerState: int)
    returns (boot: Result<string>, clear: Result<string>, msd: Result<string>,
             power: Result<string>, ghost sent: seq<Request>)
    requires !ValidNode(node)
    ensures boot == clear == msd == power == Failure(ValidationError)
    ensures sent == []
  {
    var transport := new Transport(MockOther);
    var bmc := new BMCAPI(EmptyAuth, "http://mock", transport, "basic");
    boot := bmc.USBBoot(node);
    clear := bmc.ClearUSBBoot(node);
    msd := bmc.NodetoMSD(node);
    power := bmc.SetPower(node, powerState);
    sent := transport.sent;
  }
}
