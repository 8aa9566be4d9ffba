/** The decoded shapes of BMC responses and the two envelope parsers.
    JSON text is not modelled: a body is represented by what decoding it into
    each of the client's three schemas yields. */
module Envelope {
  import opened Outcomes

  /** The outcome of decoding a body into one fixed schema. */
  datatype Decoded<T> = Malformed | WellFormed(value: T)

  /** bmcApiAuth: the token record of the bearer handshake, also used to hold basic credentials. */
  datatype AuthRecord = AuthRecord(
    accessToken: string,  // JSON key "id"
    name: string,
    description: string,
    username: string,
    password: string)

  const EmptyAuth := AuthRecord("", "", "", "", "")

  /** bmcResultAPIResponse: {"response":[{"result":"<result>"}]} */
  datatype ResultEntry = ResultEntry(result: string)
  datatype ResultEnvelope = ResultEnvelope(response: seq<ResultEntry>)

  /** bmcObjectAPIResponse: {"response":[{"result":[{<object>}]}]} */
  datatype ObjectEntry = ObjectEntry(result: seq<map<string, string>>)
  datatype ObjectEnvelope = ObjectEnvelope(response: seq<ObjectEntry>)

  /** A response body, seen through each schema the client decodes it into. */
  datatype Body = Body(
    asAuth: Decoded<AuthRecord>,
    asResult: Decoded<ResultEnvelope>,
    asObject: Decoded<ObjectEnvelope>)

  /** A Go call that either returns or panics. */
  datatype Panicking<T> = Returned(value: T) | Panicked

  /** resultAPIParse as written: the first entry is read without a length check,
      so an envelope with no entries panics (index out of range). */
  function ResultAPIParseAsWritten(d: Decoded<ResultEnvelope>): (r: Panicking<Result<string>>)
    ensures r == Panicked <==> d.WellFormed? && d.value.response == []
    ensures r != Panicked ==> r == Returned(ResultAPIParse(d))
  {
    match d
    case Malformed => Returned(Failure(ParseError))
    case WellFormed(env) =>
      if |env.response| == 0 then Panicked
      else if env.response[0].result == "" then Returned(Failure(ParseError))
      else Returned(Success(env.response[0].result))
  }

  /** resultAPIParse with the missing length check: an empty envelope is a parse failure.
      The result is the first entry's string exactly when that string is non-empty. */
  function ResultAPIParse(d: Decoded<ResultEnvelope>): (r: Result<string>)
    ensures r.Success? <==>
      d.WellFormed? && |d.value.response| > 0 && d.value.response[0].result != ""
    ensures r.Success? ==> r.value == d.value.response[0].result && r.value != ""
    ensures r.Failure? ==> r.error == ParseError
  {
    match d
    case Malformed => Failure(ParseError)
    case WellFormed(env) =>
      if |env.response| == 0 || env.response[0].result == "" then Failure(ParseError)
      else Success(env.response[0].result)
  }

  /** A body whose envelope has no entry makes the code as written panic,
      while the corrected parser reports a parse failure. */
  lemma ResultAPIParsePanicsOnEmpty(d: Decoded<ResultEnvelope>)
    requires d.WellFormed? && d.value.response == []
    ensures ResultAPIParseAsWritten(d) == Panicked
    ensures ResultAPIParse(d) == Failure(ParseError)
  {
  }

  /** objectAPIParse: the first object of the first entry, when both lists are non-empty. */
  function ObjectAPIParse(d: Decoded<ObjectEnvelope>): (r: Result<map<string, string>>)
    ensures r.Success? <==>
      d.WellFormed? && |d.value.response| > 0 && |d.value.response[0].result| > 0
    ensures r.Success? ==> r.value == d.value.response[0].result[0]
    ensures r.Failure? ==> r.error == ParseError
  {
    match d
    case Malformed => Failure(ParseError)
    case WellFormed(env) =>
      if |env.response| == 0 || |env.response[0].result| == 0 then Failure(ParseError)
      else Success(env.response[0].result[0])
  }

  /** The envelope the device wraps a scalar result in. */
  function WrapResult(s: string): ResultEnvelope { ResultEnvelope([ResultEntry(s)]) }

  /** The envelope the device wraps an object in, with any further entries or objects. */
  function WrapObject(m: map<string, string>, moreObjects: seq<map<string, string>>,
                      moreEntries: seq<ObjectEntry>): ObjectEnvelope
  {
    ObjectEnvelope([ObjectEntry([m] + moreObjects)] + moreEntries)
  }

  /** Wrapping then parsing gives the scalar back, except the empty one, which is a failure. */
  lemma ResultRoundTrip(s: string)
    ensures ResultAPIParse(WellFormed(WrapResult(s))) ==
      if s == "" then Failure(ParseError) else Success(s)
  {
  }

  /** Wrapping then parsing gives the first object back; later objects and entries are ignored. */
  lemma ObjectRoundTrip(m: map<string, string>, moreObjects: seq<map<string, string>>,
                        moreEntries: seq<ObjectEntry>)
    ensures ObjectAPIParse(WellFormed(WrapObject(m, moreObjects, moreEntries))) == Success(m)
  {
  }

  /** bmcOther: the seven informational fields of the "other" endpoint. */
  datatype BmcOther = BmcOther(
    api: string,
    buildVersion: string,
    buildroot: string,
    buildtime: string,
    ip: string,
    mac: string,
    version: string)

  /** Reading a Go map: a missing key reads as the empty string. */
  function Lookup(m: map<string, string>, key: string): (v: string)
    ensures key in m ==> v == m[key]
    ensures key !in m ==> v == ""
  {
    if key in m then m[key] else ""
  }

  const OtherKeys: set<string> :=
    {"api", "build_version", "buildroot", "buildtime", "ip", "mac", "version"}

  /** The field mapping of Other: each record field is copied from its fixed key. */
  function OtherFromMap(m: map<string, string>): (r: BmcOther)
    ensures OtherToMap(r) == map k | k in OtherKeys :: Lookup(m, k)
  {
    BmcOther(
      Lookup(m, "api"),
      Lookup(m, "build_version"),
      Lookup(m, "buildroot"),
      Lookup(m, "buildtime"),
      Lookup(m, "ip"),
      Lookup(m, "mac"),
      Lookup(m, "version"))
  }

  /** The device-side object for a record, one key per field: the reference the
      field mapping is checked against. */
  function OtherToMap(o: BmcOther): (m: map<string, string>)
    ensures m.Keys == OtherKeys
  {
    map[
      "api" := o.api,
      "build_version" := o.buildVersion,
      "buildroot" := o.buildroot,
      "buildtime" := o.buildtime,
      "ip" := o.ip,
      "mac" := o.mac,
      "version" := o.version]
  }

  /** Every record survives the trip through the device's object. */
  lemma OtherRoundTrip(o: BmcOther)
    ensures OtherFromMap(OtherToMap(o)) == o
  {
  }

  /** Only the seven fixed keys matter: any other key is ignored. */
  lemma OtherIgnoresOtherKeys(m: map<string, string>, key: string, value: string)
    requires key !in OtherKeys
    ensures OtherFromMap(m[key := value]) == OtherFromMap(m)
  {
  }

  /** Restricted to the seven keys, an object holding all of them is rebuilt exactly. */
  lemma OtherMapRoundTrip(m: map<string, string>)
    requires OtherKeys <= m.Keys
    ensures OtherToMap(OtherFromMap(m)) == map k | k in OtherKeys :: m[k]
  {
  }
}
