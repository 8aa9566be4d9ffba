# Turing Pi 2 BMC API client — a Dafny model

This project models the Go client library for the board-management controller (BMC) of the
Turing Pi 2 (`bmcapi/bmcapi.go`). The client does three things:

- **Construction.** It authenticates once. In bearer mode it fetches a session token from
  `/api/bmc/authenticate`. In basic mode it probes `/api/bmc?opt=get&type=info` with the
  credentials and then keeps them.
- **Operations.** It offers seven of them. Each checks its arguments, then makes one GET against a
  fixed query string. Credentials go in the headers, and any status other than 200 is an error.
- **Envelope parsing.** It unwraps the `{"response":[{"result": ...}]}` envelope into a string
  or a string map.

The modules follow that structure:

- `Outcomes`: `Option`, `Result` and the error kinds. The kinds are config, validation,
  transport, handshake status, missing token, call status, read and parse.
- `Decimal`: `strconv.Itoa` as used to build query strings, and its inverse.
- `Envelope`: the decoded response schemas (`bmcApiAuth`, `bmcResultAPIResponse`,
  `bmcObjectAPIResponse`, `bmcOther`), the two parse helpers and the `Other` field mapping.
- `Endpoints`: the operations, their argument rules and the endpoint strings. It also holds a
  decoder that reads an endpoint back as the operation it requests.
- `Http`: the request object, which the client changes in place, and the caller's transport.
  The transport answers by a function of the request and logs every request in a ghost
  sequence.
- `BmcApi`: the `BMCAPI` class (fields fixed after construction), `NewBMCAPI`, the call helper
  `bmcAPICall` and the seven operations.
- `Scenarios`: mock-transport walkthroughs. They cover the fixture of `bmcapi/bmcapi_test.go`, an
  unknown auth type, a bearer handshake followed by a call, a 200 answer without a token, a 404
  answer, and out-of-range arguments.

"No request is issued" is stated as `client.sent == old(client.sent)`. Every operation that issues
a request states the exact request appended to the log. It also states its result as a function
of the transport's reply to that request.

## Model

| member | source | states |
|---|---|---|
| `Decimal.Itoa` | bmcapi/bmcapi.go:176 | a node number renders as a non-empty numeral; it is all digits exactly when the number is non-negative, and otherwise it is a minus sign followed by digits |
| `Decimal.NatToString` | bmcapi/bmcapi.go:176 | a natural number renders as a non-empty string of digits with no leading zero |
| `Decimal.DecimalRoundTrip` | bmcapi/bmcapi.go:240 | reading back a rendered numeral gives the number (proved by induction) |
| `Decimal.ItoaInjective` | bmcapi/bmcapi.go:193 | two integers with the same rendering are equal |
| `Decimal.ItoaDigit` | bmcapi/bmcapi.go:219 | a validated node or power state (0 to 9) renders as exactly one digit character |
| `Endpoints.ValidNodeRendering` | bmcapi/bmcapi.go:172-174 | `ValidNode`, the node check of USBBoot, ClearUSBBoot, NodetoMSD and SetPower (also lines 189, 215, 232), accepts a node exactly when it is sent as one of the numerals 0, 1, 2, 3 |
| `Endpoints.ValidPowerStateRendering` | bmcapi/bmcapi.go:236-238 | `ValidPowerState` accepts a power state exactly when it is sent as the numeral 0 or 1 |
| `Endpoints.ValidArgsRendering` | bmcapi/bmcapi.go:230-238 | `ValidArgs`, the argument check each operation makes before any request, holds exactly when every number the operation sends is an allowed numeral |
| `Endpoints.Endpoint` | bmcapi/bmcapi.go:144-250 | the query string of every operation (lines 144, 176, 193, 204, 219, 240, 250, and the info probe of line 112) lies in the one endpoint family `/api/bmc?opt=`; `EndpointRoundTrip` ties each string to its operation |
| `Envelope.ResultAPIParse` | bmcapi/bmcapi.go:305-319 | succeeds exactly when the body decodes, has a first entry and that entry's result is non-empty; the value is that result; every failure is a parse error (corrected: an empty envelope fails instead of panicking) |
| `Envelope.ResultAPIParsePanicsOnEmpty` | bmcapi/bmcapi.go:313 | for a decoded envelope with no entries, the code as written panics, while the corrected parser reports a parse error |
| `Envelope.ResultAPIParseAsWritten` | bmcapi/bmcapi.go:305-319 | the parser exactly as written panics exactly on a decoded envelope with no entries; on every other input it returns what the corrected parser returns |
| `Envelope.ObjectAPIParse` | bmcapi/bmcapi.go:324-337 | succeeds exactly when the body decodes and both the outer and inner lists are non-empty; the value is the first object of the first entry; every failure is a parse error |
| `Envelope.ResultRoundTrip` | bmcapi/bmcapi.go:313-318 | a scalar wrapped in the device's envelope parses back to itself, except the empty scalar, which fails |
| `Envelope.ObjectRoundTrip` | bmcapi/bmcapi.go:331-335 | an object wrapped in the device's envelope parses back to itself, whatever further objects or entries follow it |
| `Envelope.Lookup` | bmcapi/bmcapi.go:155-161 | reading a key gives its value, or "" when the key is missing |
| `Envelope.OtherFromMap` | bmcapi/bmcapi.go:154-162 | the record copies each of the seven keys api, build_version, buildroot, buildtime, ip, mac and version into its own field, with "" for a missing key: turned back into the device's object, it is exactly the seven keys of the map with those values |
| `Envelope.OtherRoundTrip` | bmcapi/bmcapi.go:154-162 | the field mapping recovers every record from the device's object for it, so each field comes from its own key |
| `Envelope.OtherIgnoresOtherKeys` | bmcapi/bmcapi.go:154-162 | keys outside the seven do not affect the record |
| `Envelope.OtherMapRoundTrip` | bmcapi/bmcapi.go:154-162 | for an object holding all seven keys, rebuilding the object from the record gives exactly its seven entries |
| `Endpoints.EndpointRoundTrip` | bmcapi/bmcapi.go:144-250 | every endpoint that an operation with valid arguments requests reads back as that same operation and arguments |
| `Endpoints.EndpointInjective` | bmcapi/bmcapi.go:176-240 | two operations with valid arguments that request the same endpoint are the same operation |
| `Endpoints.SetPowerEndpointShape` | bmcapi/bmcapi.go:240 | the power endpoint is `/api/bmc?opt=power&type=set&node` + N + `=` + S with one digit each, and never has `=` directly after `node` |
| `Http.HttpRequest.constructor` | bmcapi/bmcapi.go:78 | a new GET request has the given URL, no headers and an empty body |
| `Http.HttpRequest.SetHeader` | bmcapi/bmcapi.go:279-280 | sets one header, replacing an earlier value, and changes nothing else |
| `Http.HttpRequest.SetBasicAuth` | bmcapi/bmcapi.go:116 | the Authorization header carries the given credentials, and nothing else changes |
| `Http.HttpRequest.SetBody` | bmcapi/bmcapi.go:85 | replaces the body and changes nothing else |
| `Http.Transport.Do` | bmcapi/bmcapi.go:87 | appends the request, as it stands, to the log and returns the transport's answer to it |
| `BmcApi.ResolveBaseURL` | bmcapi/bmcapi.go:66-68 | an empty base URL becomes https://turingpi.local and any other is kept unchanged, so the result is never empty |
| `BmcApi.BearerHandshake` | bmcapi/bmcapi.go:87-108 | succeeds exactly on a readable 200 answer that decodes to a record with a non-empty token, and the client then keeps that decoded record; any other status is a handshake status error; an unreadable body is a read error; an undecodable one is a parse error; a decoded record without a token is a missing-token error even on status 200 |
| `BmcApi.BasicHandshake` | bmcapi/bmcapi.go:118-131 | succeeds exactly on a 200 answer, without reading the body; keeps the supplied username and password verbatim and no token |
| `BmcApi.BearerAuthRequest` | bmcapi/bmcapi.go:78-85 | the bearer handshake is a GET of the base URL plus `/api/bmc/authenticate` with `Content-Type: application/json`; it presents no Authorization credential, because the credentials travel in the body |
| `BmcApi.BasicAuthRequest` | bmcapi/bmcapi.go:112-116 | the basic handshake is a GET of the base URL plus `/api/bmc?opt=get&type=info` with an empty body, presenting the supplied username and password |
| `BmcApi.AuthHeaders` | bmcapi/bmcapi.go:276-281 | an Authorization header is set exactly under a known auth tag, a Content-Type header exactly in bearer mode, and no other header |
| `BmcApi.AuthHeadersPresent` | bmcapi/bmcapi.go:276-281 | in basic mode the headers present the stored username and password; in bearer mode they present `Bearer <token>` and set `Content-Type: application/json`; under any other tag they present nothing |
| `BmcApi.BearerHandshakeThenCall` | bmcapi/bmcapi.go:106-108 | after a successful bearer handshake, every call presents the token the device issued, and that token is non-empty |
| `BmcApi.BasicHandshakeThenCall` | bmcapi/bmcapi.go:129-131 | after a successful basic handshake, every call presents the supplied credentials |
| `BmcApi.CallOutcome` | bmcapi/bmcapi.go:283-299 | the call yields the body exactly on a readable 200 answer; any other status fails with that status, a 200 answer whose body cannot be read fails with a read error, and a transport error fails as such |
| `BmcApi.ScalarOutcome` | bmcapi/bmcapi.go:176-181 | a failed call's error is returned unchanged, and every other failure is a parse error; a scalar operation succeeds exactly on a readable 200 answer whose envelope decodes and has a first entry with a non-empty result, and returns that result |
| `BmcApi.ObjectOutcome` | bmcapi/bmcapi.go:250-262 | a failed call's error is returned unchanged, and every other failure is a parse error; an object operation succeeds exactly on a readable 200 answer whose envelope decodes with non-empty outer and inner lists, and returns the first object of the first entry |
| `BmcApi.OtherOutcome` | bmcapi/bmcapi.go:142-165 | Other succeeds exactly when the object call does, and returns the field mapping of that object; on failure it passes on the call's or the parser's error unchanged |
| `BmcApi.StatusErrorRegardlessOfBody` | bmcapi/bmcapi.go:289-291 | a status other than 200 fails scalar, object and Other calls with that status, whatever the body |
| `BmcApi.BMCAPI.constructor` | bmcapi/bmcapi.go:134-139 | the client holds the given credentials, base URL, transport and auth tag |
| `BmcApi.BMCAPI.BmcAPICall` | bmcapi/bmcapi.go:267-301 | sends exactly one request: a GET of the base URL plus the endpoint, with the auth tag's headers; the result is the call helper's verdict on the answer |
| `BmcApi.BMCAPI.Other` | bmcapi/bmcapi.go:142-166 | requests the "other" endpoint once and returns the record mapped from the answer's object |
| `BmcApi.BMCAPI.USBBoot` | bmcapi/bmcapi.go:169-183 | a node outside 0..3 fails validation with no request; otherwise one request to `usb_boot&node=N` and the scalar result |
| `BmcApi.BMCAPI.ClearUSBBoot` | bmcapi/bmcapi.go:186-200 | a node outside 0..3 fails validation with no request; otherwise one request to `clear_usb_boot&node=N` and the scalar result |
| `BmcApi.BMCAPI.ResetNetwork` | bmcapi/bmcapi.go:203-210 | one request to `opt=set&type=network` and the scalar result |
| `BmcApi.BMCAPI.NodetoMSD` | bmcapi/bmcapi.go:213-226 | a node outside 0..3 fails validation with no request; otherwise one request to `node_to_msd&node=N` and the scalar result |
| `BmcApi.BMCAPI.SetPower` | bmcapi/bmcapi.go:230-246 | a node outside 0..3 or a power state other than 0 or 1 fails validation with no request; otherwise one request to `&nodeN=S` and the scalar result |
| `BmcApi.BMCAPI.GetPower` | bmcapi/bmcapi.go:249-264 | one request to `opt=get&type=power` and the whole first object of the answer |
| `BmcApi.NewBMCAPI` | bmcapi/bmcapi.go:63-140 | an unknown auth type is a config error with no request; bearer and basic each send exactly their handshake request to the resolved base URL; the result follows the handshake's verdict and keeps the resolved URL, transport and tag; a returned client is new and established (known tag, non-empty URL, and a token in bearer mode) |
| `Scenarios.OtherFixture` | bmcapi/bmcapi_test.go:23-51 | against the test's mock transport, Other returns the seven fixture values verbatim |
| `Scenarios.NotFound` | bmcapi/bmcapi.go:289-291 | a 404 answer fails Other with that status even when the body holds a valid envelope |
| `Scenarios.UnknownAuthType` | bmcapi/bmcapi.go:72-74 | constructing with "digest" is a config error, and the transport's log stays empty |
| `Scenarios.BearerThenReset` | bmcapi/bmcapi.go:76-108 | after a bearer handshake that yields the token "tok", a later call goes to the default URL and presents `Bearer tok` |
| `Scenarios.BearerWithoutToken` | bmcapi/bmcapi.go:106-108 | a 200 handshake answer without a token is a missing-token error |
| `Scenarios.OutOfRange` | bmcapi/bmcapi.go:172-174 | for any node outside 0..3, USBBoot, ClearUSBBoot, NodetoMSD and SetPower all fail validation, and the transport's log stays empty |

## Left out

- JSON decoding (`json.Unmarshal`). A body is represented by what it decodes to under each of the
  client's three schemas. Malformed JSON is the `Malformed` case.
- The base64 encoding inside `SetBasicAuth`. The Authorization header holds the username and
  password as an abstract value.
- The bearer handshake body is kept as the unescaped string concatenation the code builds. The
  model makes no claim that it is valid JSON.
- Failure of `http.NewRequest` (an unparsable URL). The model assumes request construction succeeds.
- Closing response bodies and the `net/http` machinery. The transport is a function from request
  to reply, so the model's device answers the same request the same way every time.
- Error message wording. Errors are kinds. A status error carries the status code rather than the
  status line.
- `cmd/main.go` is not part of this model. It is a command-line caller that only prints.
- `bmcapi/bmcapi_test.go` decodes its fixture directly rather than through `Other`. The model
  replays it through `Other` instead (`Scenarios.OtherFixture`).
- USBBoot, ClearUSBBoot, ResetNetwork, NodetoMSD and SetPower use the corrected scalar parser
  `Envelope.ResultAPIParse`, so on one input they differ from the code. On a 200 answer whose
  envelope has no entries they return a parse error. The code panics there, because
  `bmcapi/bmcapi.go:313` indexes `Response[0]` unchecked. The correction follows the source's own
  evidence: the format comment at `bmcapi/bmcapi.go:303-304` and the same case guarded as "no data in
  response" at `bmcapi/bmcapi.go:331`. The code as written is kept as
  `Envelope.ResultAPIParseAsWritten` (see Findings).
- The basic handshake never reads the response body, so a read failure there goes unnoticed. The
  model keeps this behaviour.

## Findings

| source | as written | input that shows it | evidently intended | confidence | as-written member | corrected member |
|---|---|---|---|---|---|---|
| bmcapi/bmcapi.go:313 | `resultAPIParse` reads `Response[0]` without checking that `Response` has an entry | a 200 answer with body `{}` or `{"response":[]}` to USBBoot, ClearUSBBoot, ResetNetwork, NodetoMSD or SetPower makes the code panic with an index out of range | a parse error, as `objectAPIParse` returns for the same case (line 331) | not executed; high | `Envelope.ResultAPIParseAsWritten` | `Envelope.ResultAPIParse` |
