/** The BMC operations, their argument rules and the query strings they request. */
module Endpoints {
  import opened Outcomes
  import opened Decimal

  /** One request the client knows how to make. Info is the basic-auth handshake's probe. */
  datatype Op =
    | Info
    | Other
    | UsbBoot(node: int)
    | ClearUsbBoot(node: int)
    | ResetNetwork
    | NodeToMsd(node: int)
    | SetPower(node: int, powerState: int)
    | GetPower

  /** One of the four compute nodes, numbered 0 to 3. */
  predicate ValidNode(node: int) { 0 <= node <= 3 }

  /** 0 is off, 1 is on. */
  predicate ValidPowerState(powerState: int) { 0 <= powerState <= 1 }

  /** The arguments an operation checks before issuing any request. */
  predicate ValidArgs(op: Op) {
    match op
    case UsbBoot(n) => ValidNode(n)
    case ClearUsbBoot(n) => ValidNode(n)
    case NodeToMsd(n) => ValidNode(n)
    case SetPower(n, s) => ValidNode(n) && ValidPowerState(s)
    case _ => true
  }

  /** Every operation is a query on this one endpoint family. */
  const QueryPrefix := "/api/bmc?opt="
  const AuthenticatePath := "/api/bmc/authenticate"
  const InfoPath := "/api/bmc?opt=get&type=info"
  const OtherPath := "/api/bmc?opt=get&type=other"
  const NetworkPath := "/api/bmc?opt=set&type=network"
  const PowerPath := "/api/bmc?opt=get&type=power"
  const UsbBootPrefix := "/api/bmc?opt=set&type=usb_boot&node="
  const ClearUsbBootPrefix := "/api/bmc?opt=set&type=clear_usb_boot&node="
  const NodeToMsdPrefix := "/api/bmc?opt=set&type=node_to_msd&node="
  /** No '=' between "node" and the node number: the device expects "&node<N>=<S>". */
  const SetPowerPrefix := "/api/bmc?opt=power&type=set&node"

  /** The numerals a validated node or power state is sent as. */
  const NodeNumerals: set<string> := {"0", "1", "2", "3"}
  const PowerNumerals: set<string> := {"0", "1"}

  /** A node passes validation exactly when it is sent as one of the numerals 0 to 3. */
  lemma ValidNodeRendering(node: int)
    ensures ValidNode(node) <==> Itoa(node) in NodeNumerals
  {
    if ValidNode(node) {
      ItoaDigit(node);
    } else if Itoa(node) in NodeNumerals {
      var k :| 0 <= k <= 3 && Itoa(node) == [DigitChar(k)];
      ItoaDigit(k);
      ItoaInjective(node, k);
    }
  }

  /** A power state passes validation exactly when it is sent as 0 or 1. */
  lemma ValidPowerStateRendering(powerState: int)
    ensures ValidPowerState(powerState) <==> Itoa(powerState) in PowerNumerals
  {
    if ValidPowerState(powerState) {
      ItoaDigit(powerState);
    } else if Itoa(powerState) in PowerNumerals {
      var k :| 0 <= k <= 1 && Itoa(powerState) == [DigitChar(k)];
      ItoaDigit(k);
      ItoaInjective(powerState, k);
    }
  }

  /** An operation passes validation exactly when every number it sends is an allowed numeral. */
  lemma ValidArgsRendering(op: Op)
    ensures ValidArgs(op) <==>
      match op
      case UsbBoot(n) => Itoa(n) in NodeNumerals
      case ClearUsbBoot(n) => Itoa(n) in NodeNumerals
      case NodeToMsd(n) => Itoa(n) in NodeNumerals
      case SetPower(n, s) => Itoa(n) in NodeNumerals && Itoa(s) in PowerNumerals
      case _ => true
  {
    match op
    case UsbBoot(n) => ValidNodeRendering(n);
    case ClearUsbBoot(n) => ValidNodeRendering(n);
    case NodeToMsd(n) => ValidNodeRendering(n);
    case SetPower(n, s) =>
      ValidNodeRendering(n);
      ValidPowerStateRendering(s);
    case _ =>
  }

  /** The path and query string each operation requests. */
  function Endpoint(op: Op): (e: string)
    ensures HasPrefix(e, QueryPrefix)
  {
    match op
    case Info => InfoPath
    case Other => OtherPath
    case UsbBoot(n) => UsbBootPrefix + Itoa(n)
    case ClearUsbBoot(n) => ClearUsbBootPrefix + Itoa(n)
    case ResetNetwork => NetworkPath
    case NodeToMsd(n) => NodeToMsdPrefix + Itoa(n)
    case SetPower(n, s) => SetPowerPrefix + Itoa(n) + "=" + Itoa(s)
    case GetPower => PowerPath
  }

  predicate HasPrefix(s: string, prefix: string) {
    |prefix| <= |s| && s[..|prefix|] == prefix
  }

  /** The position of the first c in s, or |s| when there is none. */
  function IndexOf(s: string, c: char): (i: nat)
    ensures i <= |s|
    ensures i < |s| ==> s[i] == c
    ensures forall j :: 0 <= j < i ==> s[j] != c
  {
    if s == [] then 0 else if s[0] == c then 0 else 1 + IndexOf(s[1..], c)
  }

  /** A non-empty numeral read back as a natural number. */
  function ParseNumeral(s: string): Option<nat>
  {
    if s != [] && AllDigits(s) then Some(DecimalValue(s)) else None
  }

  /** The device's view: which operation an endpoint string requests. */
  function ParseEndpoint(e: string): Option<Op>
  {
    if e == InfoPath then Some(Info)
    else if e == OtherPath then Some(Other)
    else if e == NetworkPath then Some(ResetNetwork)
    else if e == PowerPath then Some(GetPower)
    else if HasPrefix(e, UsbBootPrefix) then
      match ParseNumeral(e[|UsbBootPrefix|..])
      case Some(n) => Some(UsbBoot(n))
      case None => None
    else if HasPrefix(e, ClearUsbBootPrefix) then
      match ParseNumeral(e[|ClearUsbBootPrefix|..])
      case Some(n) => Some(ClearUsbBoot(n))
      case None => None
    else if HasPrefix(e, NodeToMsdPrefix) then
      match ParseNumeral(e[|NodeToMsdPrefix|..])
      case Some(n) => Some(NodeToMsd(n))
      case None => None
    else if HasPrefix(e, SetPowerPrefix) then
      var rest := e[|SetPowerPrefix|..];
      var k := IndexOf(rest, '=');
      if k == |rest| then None
      else
        match (ParseNumeral(rest[..k]), ParseNumeral(rest[k + 1..]))
        case (Some(n), Some(s)) => Some(SetPower(n, s))
        case _ => None
    else None
  }

  lemma NumeralRoundTrip(n: int)
    requires n >= 0
    ensures ParseNumeral(Itoa(n)) == Some(n)
  {
    DecimalRoundTrip(n);
  }

  lemma UsbBootRoundTrip(n: int)
    requires ValidNode(n)
    ensures ParseEndpoint(Endpoint(UsbBoot(n))) == Some(UsbBoot(n))
  {
    var e := Endpoint(UsbBoot(n));
    ItoaDigit(n);
    assert e[..|UsbBootPrefix|] == UsbBootPrefix;
    assert e[|UsbBootPrefix|..] == Itoa(n);
    NumeralRoundTrip(n);
  }

  lemma ClearUsbBootRoundTrip(n: int)
    requires ValidNode(n)
    ensures ParseEndpoint(Endpoint(ClearUsbBoot(n))) == Some(ClearUsbBoot(n))
  {
    var e := Endpoint(ClearUsbBoot(n));
    ItoaDigit(n);
    assert e[|ClearUsbBootPrefix|..] == Itoa(n);
    assert e[..|ClearUsbBootPrefix|] == ClearUsbBootPrefix;
    assert e[22] != UsbBootPrefix[22];
    NumeralRoundTrip(n);
  }

  lemma NodeToMsdRoundTrip(n: int)
    requires ValidNode(n)
    ensures ParseEndpoint(Endpoint(NodeToMsd(n))) == Some(NodeToMsd(n))
  {
    var e := Endpoint(NodeToMsd(n));
    ItoaDigit(n);
    assert e[|NodeToMsdPrefix|..] == Itoa(n);
    assert e[..|NodeToMsdPrefix|] == NodeToMsdPrefix;
    assert e[22] != UsbBootPrefix[22];
    assert e[22] != ClearUsbBootPrefix[22];
    NumeralRoundTrip(n);
  }

  lemma SetPowerRoundTrip(n: int, s: int)
    requires ValidNode(n) && ValidPowerState(s)
    ensures ParseEndpoint(Endpoint(SetPower(n, s))) == Some(SetPower(n, s))
  {
    var e := Endpoint(SetPower(n, s));
    ItoaDigit(n);
    ItoaDigit(s);
    var rest := e[|SetPowerPrefix|..];
    assert rest == Itoa(n) + "=" + Itoa(s);
    assert IndexOf(rest, '=') == 1;
    assert rest[..1] == Itoa(n);
    assert rest[2..] == Itoa(s);
    assert e[..|SetPowerPrefix|] == SetPowerPrefix;
    assert e[13] != UsbBootPrefix[13];
    assert e[13] != ClearUsbBootPrefix[13];
    assert e[13] != NodeToMsdPrefix[13];
    NumeralRoundTrip(n);
    NumeralRoundTrip(s);
  }

  /** Every request a validated operation issues is read back as that operation. */
  lemma {:induction false} EndpointRoundTrip(op: Op)
    requires ValidArgs(op)
    ensures ParseEndpoint(Endpoint(op)) == Some(op)
  {
    match op
    case Info =>
    case Other =>
    case ResetNetwork =>
    case GetPower =>
    case UsbBoot(n) => UsbBootRoundTrip(n);
    case ClearUsbBoot(n) => ClearUsbBootRoundTrip(n);
    case NodeToMsd(n) => NodeToMsdRoundTrip(n);
    case SetPower(n, s) => SetPowerRoundTrip(n, s);
  }

  /** Different validated operations never request the same endpoint. */
  lemma EndpointInjective(a: Op, b: Op)
    requires ValidArgs(a) && ValidArgs(b)
    requires Endpoint(a) == Endpoint(b)
    ensures a == b
  {
    EndpointRoundTrip(a);
    EndpointRoundTrip(b);
  }

  /** The power endpoint carries the node number in the key: "&node<N>=<S>", never "&node=". */
  lemma SetPowerEndpointShape(n: int, s: int)
    requires ValidNode(n) && ValidPowerState(s)
    ensures Endpoint(SetPower(n, s)) ==
      "/api/bmc?opt=power&type=set&node" + [DigitChar(n), '=', DigitChar(s)]
    ensures !HasPrefix(Endpoint(SetPower(n, s)), SetPowerPrefix + "=")
  {
    ItoaDigit(n);
    ItoaDigit(s);
    var e := Endpoint(SetPower(n, s));
    assert e[|SetPowerPrefix|] == DigitChar(n);
  }
}
