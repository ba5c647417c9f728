/**
 * The SSRF guard of the two Python services, `validate_ip_address`: parse the
 * path parameter as an IP address with Python's `ipaddress.ip_address`, then
 * refuse it if it lies in one of the five private IPv4 networks. The two
 * services carry the same function body, modelled once here.
 */
module PyIpGuard {
  import opened Wrappers
  import opened Text
  import opened IPv4

  /**
   * `IPv4Address._parse_octet`: the checks in CPython's order (non-empty,
   * ASCII digits only, at most three characters, no leading zero unless the
   * octet is "0", at most 255). None stands for the ValueError it raises.
   */
  function ParseOctet(s: string): (r: Option<Octet>)
    ensures r.Some? ==> ShortDecimal(r.value) == s
  {
    if |s| == 0 then None
    else if !AllDigits(s) then None
    else if |s| > 3 then None
    else if s != "0" && s[0] == '0' then None
    else if DecimalValue(s) > 255 then None
    else SpelledByValue(s); Some(DecimalValue(s))
  }

  /**
   * `IPv4Address._ip_int_from_string`: refuse the empty string, split on '.',
   * demand exactly four pieces and parse each as an octet.
   */
  function ParseIPv4(s: string): Option<Address>
  {
    if |s| == 0 then None
    else
      var parts := Split(s, '.');
      if |parts| != 4 then None
      else
        match (ParseOctet(parts[0]), ParseOctet(parts[1]), ParseOctet(parts[2]), ParseOctet(parts[3]))
        case (Some(a), Some(b), Some(c), Some(d)) => Some(Address(a, b, c, d))
        case _ => None
  }

  /** `str(IPv4Address)`: the dotted-quad spelling of an address. */
  function Format(x: Address): string
  {
    ShortDecimal(x.a) + "." + ShortDecimal(x.b) + "." + ShortDecimal(x.c) + "." + ShortDecimal(x.d)
  }

  lemma OctetRoundTrip(n: Octet)
    ensures ParseOctet(ShortDecimal(n)) == Some(n)
  {
    ShortDecimalSpells(n);
  }

  /** Every address is accepted in its dotted-quad spelling, and read back as itself. */
  lemma ParseFormat(x: Address)
    ensures ParseIPv4(Format(x)) == Some(x)
  {
    var parts := [ShortDecimal(x.a), ShortDecimal(x.b), ShortDecimal(x.c), ShortDecimal(x.d)];
    ShortDecimalSpells(x.a);
    ShortDecimalSpells(x.b);
    ShortDecimalSpells(x.c);
    ShortDecimalSpells(x.d);
    DigitsAvoid(parts[0], '.');
    DigitsAvoid(parts[1], '.');
    DigitsAvoid(parts[2], '.');
    DigitsAvoid(parts[3], '.');
    SplitJoin(parts, '.');
    JoinFour(parts, '.');
    assert Join(parts, '.') == Format(x);
    OctetRoundTrip(x.a);
    OctetRoundTrip(x.b);
    OctetRoundTrip(x.c);
    OctetRoundTrip(x.d);
  }

  /** Only the dotted-quad spelling is accepted: no leading zeros, no other form. */
  lemma FormatParse(s: string)
    requires ParseIPv4(s).Some?
    ensures Format(ParseIPv4(s).value) == s
  {
    var p := Split(s, '.');
    FourPieces(s, '.');
    var x := ParseIPv4(s).value;
    assert ShortDecimal(x.a) == p[0] && ShortDecimal(x.b) == p[1];
    assert ShortDecimal(x.c) == p[2] && ShortDecimal(x.d) == p[3];
  }

  /** What `ipaddress.ip_address` returns: an IPv4 or an IPv6 address object. */
  datatype IpAddress = V4(addr: Address) | V6

  /**
   * `ipaddress.ip_address(s)`: IPv4 is tried first, then IPv6. The IPv6
   * grammar is the recogniser `isV6`; None stands for the ValueError raised
   * when neither accepts the string.
   */
  function ParseIp(s: string, isV6: string -> bool): Option<IpAddress>
  {
    match ParseIPv4(s)
    case Some(x) => Some(V4(x))
    case None => if isV6(s) then Some(V6) else None
  }

  /** `ip_obj in network`: an address of the other IP version is never a member. */
  predicate InRange(ip: IpAddress, net: Network)
  {
    ip.V4? && InNetwork(ip.addr, net)
  }

  /** The decision `validate_ip_address` makes: the string parses and no private range contains it. */
  predicate IsPublicRoutable(s: string, isV6: string -> bool)
  {
    match ParseIp(s, isV6)
    case None => false
    case Some(ip) => forall i :: 0 <= i < |PrivateRanges| ==> !InRange(ip, PrivateRanges[i])
  }

  /**
   * `validate_ip_address`: parse, then walk the private ranges and return
   * False at the first that contains the address; a parse error is False.
   */
  method ValidateIpAddress(ip: string, isV6: string -> bool) returns (ok: bool)
    ensures ok == IsPublicRoutable(ip, isV6)
  {
    var parsed := ParseIp(ip, isV6);
    if parsed.None? {
      return false;
    }
    var ipObj := parsed.value;
    var ranges := PrivateRanges;
    for i := 0 to |ranges|
      invariant forall j :: 0 <= j < i ==> !InRange(ipObj, ranges[j])
    {
      if InRange(ipObj, ranges[i]) {
        return false;
      }
    }
    return true;
  }

  /**
   * What the guard lets through: no string that fails to parse, every IPv6
   * literal (all five ranges are IPv4), and exactly the IPv4 addresses
   * outside 10/8, 172.16/12, 192.168/16, 127/8 and 169.254/16.
   */
  lemma GuardMeaning(s: string, isV6: string -> bool)
    ensures IsPublicRoutable(s, isV6) <==>
      match ParseIPv4(s)
      case Some(x) => !BlockedByOctets(x)
      case None => isV6(s)
  {
    if ParseIPv4(s).Some? {
      BlockedIffOctets(ParseIPv4(s).value);
    }
  }

  /** The guard on the dotted-quad spelling of any IPv4 address. */
  lemma GuardOnAddress(x: Address, isV6: string -> bool)
    ensures IsPublicRoutable(Format(x), isV6) <==> !BlockedByOctets(x)
  {
    ParseFormat(x);
    GuardMeaning(Format(x), isV6);
  }

  /** The guard on a string known to spell the address x. */
  lemma GuardOnSpelling(x: Address, s: string, isV6: string -> bool)
    requires Format(x) == s
    ensures IsPublicRoutable(s, isV6) <==> !BlockedByOctets(x)
  {
    GuardOnAddress(x, isV6);
  }

  lemma Spells192()
    ensures Format(Address(192, 168, 1, 1)) == "192.168.1.1"
  {
    assert ShortDecimal(1) == "1";
    assert ShortDecimal(168) == "168";
    assert ShortDecimal(192) == "192";
  }

  lemma Spells127()
    ensures Format(Address(127, 0, 0, 1)) == "127.0.0.1"
  {
    assert ShortDecimal(0) == "0";
    assert ShortDecimal(1) == "1";
    assert ShortDecimal(127) == "127";
  }

  lemma Spells10()
    ensures Format(Address(10, 0, 0, 5)) == "10.0.0.5"
  {
    assert ShortDecimal(0) == "0";
    assert ShortDecimal(5) == "5";
    assert ShortDecimal(10) == "10";
  }

  lemma Spells8()
    ensures Format(Address(8, 8, 8, 8)) == "8.8.8.8"
  {
    assert ShortDecimal(8) == "8";
  }

  lemma Spells0()
    ensures Format(Address(0, 0, 0, 0)) == "0.0.0.0"
  {
    assert ShortDecimal(0) == "0";
  }

  /** Sample addresses: private and loopback refused, public and 0.0.0.0 allowed. */
  lemma GuardExamples(isV6: string -> bool)
    ensures !IsPublicRoutable("192.168.1.1", isV6)
    ensures !IsPublicRoutable("127.0.0.1", isV6)
    ensures !IsPublicRoutable("10.0.0.5", isV6)
    ensures IsPublicRoutable("8.8.8.8", isV6)
    ensures IsPublicRoutable("0.0.0.0", isV6)
  {
    Spells192();
    GuardOnSpelling(Address(192, 168, 1, 1), "192.168.1.1", isV6);
    Spells127();
    GuardOnSpelling(Address(127, 0, 0, 1), "127.0.0.1", isV6);
    Spells10();
    GuardOnSpelling(Address(10, 0, 0, 5), "10.0.0.5", isV6);
    Spells8();
    GuardOnSpelling(Address(8, 8, 8, 8), "8.8.8.8", isV6);
    Spells0();
    GuardOnSpelling(Address(0, 0, 0, 0), "0.0.0.0", isV6);
  }

  /** A string that is not an address is refused, unless it is an IPv6 literal. */
  lemma GuardRefusesGarbage(isV6: string -> bool)
    requires !isV6("not-an-ip")
    ensures !IsPublicRoutable("not-an-ip", isV6)
  {
    SplitNone("not-an-ip", '.');
  }

  /** A leading zero makes an octet unreadable, so such a spelling of 10.0.0.1 is refused. */
  lemma GuardRefusesLeadingZero(isV6: string -> bool)
    requires !isV6("010.0.0.1")
    ensures !IsPublicRoutable("010.0.0.1", isV6)
  {
    assert "010.0.0.1" == "010" + ['.'] + "0.0.1";
    SplitCons("010", '.', "0.0.1");
    assert ParseOctet("010").None?;
  }

  /** An accepted IPv4 string holds only digits and dots, so no ':' of an IPv6 literal. */
  lemma IPv4HasNoColon(s: string)
    ensures ParseIPv4(s).Some? ==> ':' !in s
  {
    if ParseIPv4(s).Some? {
      var parts := Split(s, '.');
      JoinSplit(s, '.');
      JoinedDigits(parts, '.');
    }
  }
}
