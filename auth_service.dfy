/**
 * The reputation endpoint of the auth service, `check_ip_reputation`: the
 * bearer token, then the SSRF guard, then the outbound lookup, whose JSON
 * object comes back with a `reputation` label added.
 */
module AuthService {
  import opened Wrappers
  import opened Http
  import opened Tokens
  import opened PyIpGuard
  import Text

  const KnownClean: set<string> := {"1.1.1.1", "8.8.8.8"}
  const KnownThreats: set<string> := {"185.220.101.5", "192.99.1.11"}

  const InvalidIp := Detail(400, "Invalid or private IP address")
  const UpstreamUnavailable := Detail(502, "IP lookup service temporarily unavailable")

  /** `data.get("query", ip_address)`: the address the lookup service reports, or the one asked about. */
  function LookupKey(data: Object, requested: string): Json
  {
    if "query" in data then data["query"] else JStr(requested)
  }

  /**
   * The label ladder, first match wins. `ip in KNOWN_THREATS` raises
   * TypeError when the key is a list or a dict (unhashable); that is None.
   * Any other key that is not a string (a number, a boolean, null) is
   * hashable but equal to no member of either set.
   */
  function Label(data: Object, requested: string): Option<string>
  {
    var ip := LookupKey(data, requested);
    if Unhashable(ip) then None
    else if ip.JStr? && ip.s in KnownThreats then Some("Known Threat")
    else if ip.JStr? && ip.s in KnownClean then Some("Clean")
    else if "status" in data && data["status"] == JStr("success") then Some("Clean")
    else Some("Unknown")
  }

  /** The address a label is decided on, when it is a string. */
  predicate KeyIn(data: Object, requested: string, names: set<string>)
  {
    LookupKey(data, requested).JStr? && LookupKey(data, requested).s in names
  }

  predicate Succeeded(data: Object)
  {
    "status" in data && data["status"] == JStr("success")
  }

  /**
   * What each label means: a listed threat is always "Known Threat", even
   * when it is also reported successful; "Clean" is a listed clean address
   * or any other successful lookup; "Unknown" is the rest.
   */
  lemma LabelLadder(data: Object, requested: string)
    ensures Label(data, requested).None? <==> Unhashable(LookupKey(data, requested))
    ensures Label(data, requested) == Some("Known Threat") <==> KeyIn(data, requested, KnownThreats)
    ensures Label(data, requested) == Some("Clean") <==>
      && !Unhashable(LookupKey(data, requested))
      && !KeyIn(data, requested, KnownThreats)
      && (KeyIn(data, requested, KnownClean) || Succeeded(data))
    ensures Label(data, requested) == Some("Unknown") <==>
      && !Unhashable(LookupKey(data, requested))
      && !KeyIn(data, requested, KnownThreats) && !KeyIn(data, requested, KnownClean) && !Succeeded(data)
    ensures !("query" in data) ==> LookupKey(data, requested) == JStr(requested)
  {
  }

  /**
   * The `try` block once the guard has passed. `raise_for_status` raises
   * for a 4xx or 5xx status, and a body that is not JSON makes `r.json()`
   * raise requests' JSONDecodeError; both are RequestExceptions, as is a
   * failed connection, and give the fixed 502. The TypeError of the ladder
   * escapes the handler: a 500.
   */
  function Lookup(requested: string, upstream: Upstream): Response
  {
    match upstream
    case Unreachable => UpstreamUnavailable
    case Reply(status, body) =>
      if 400 <= status < 600 || body.None? then UpstreamUnavailable
      else
        var data := body.value;
        match Label(data, requested)
        case None => InternalServerError
        case Some(rep) => Ok(data["reputation" := JStr(rep)])
  }

  /** `check_ip_reputation` as a decision: token, guard, lookup, in that order. */
  function ReputationCheck(decoded: Option<Claims>, ipAddress: string, isV6: string -> bool, upstream: Upstream): Handled
  {
    match VerifyToken(decoded)
    case Failure(e) => Handled(e, None)
    case Success(_) =>
      if !IsPublicRoutable(ipAddress, isV6) then Handled(InvalidIp, None)
      else Handled(Lookup(ipAddress, upstream), Some(ipAddress))
  }

  /**
   * `check_ip_reputation`: the dependency verifies the token, the handler
   * runs the guard and then fills in `data["reputation"]` on the freshly
   * decoded reply.
   */
  method CheckIpReputation(decoded: Option<Claims>, ipAddress: string, isV6: string -> bool, upstream: Upstream)
    returns (h: Handled)
    ensures h == ReputationCheck(decoded, ipAddress, isV6, upstream)
  {
    var currentUser := VerifyToken(decoded);
    if currentUser.Failure? {
      return Handled(currentUser.error, None);
    }
    var valid := ValidateIpAddress(ipAddress, isV6);
    if !valid {
      return Handled(InvalidIp, None);
    }
    if upstream.Unreachable? || 400 <= upstream.status < 600 || upstream.body.None? {
      return Handled(UpstreamUnavailable, Some(ipAddress));
    }
    var data := upstream.body.value;
    var rep := Label(data, ipAddress);
    if rep.None? {
      return Handled(InternalServerError, Some(ipAddress));
    }
    data := data["reputation" := JStr(rep.value)];
    h := Handled(Ok(data), Some(ipAddress));
  }

  /**
   * The order of the checks: a bad token is the 401 and nothing is fetched;
   * a valid token with a refused address is the 400 and nothing is fetched;
   * only then is the requested address itself looked up. Any failure of the
   * request (no connection, a 4xx or 5xx status, a body that is not JSON)
   * is the one fixed 502, whatever the lookup service said. Any other reply
   * comes back labelled with a 200, unless its key is a list or a dict,
   * whose TypeError is the 500.
   */
  lemma ReputationOrder(decoded: Option<Claims>, ipAddress: string, isV6: string -> bool, upstream: Upstream)
    ensures var h := ReputationCheck(decoded, ipAddress, isV6, upstream);
      && (VerifyToken(decoded).Failure? ==> h == Handled(CredentialsError, None))
      && (VerifyToken(decoded).Success? && !IsPublicRoutable(ipAddress, isV6) ==> h == Handled(InvalidIp, None))
      && (h.lookedUp.Some? <==> VerifyToken(decoded).Success? && IsPublicRoutable(ipAddress, isV6))
      && (h.lookedUp.Some? ==> h.lookedUp.value == ipAddress)
      && (h.lookedUp.Some? && (upstream.Unreachable? || 400 <= upstream.status < 600 || upstream.body.None?) ==>
            h.response == UpstreamUnavailable)
      && (h.lookedUp.Some? && upstream.Reply? && !(400 <= upstream.status < 600) && upstream.body.Some? ==>
            h.response == (if Unhashable(LookupKey(upstream.body.value, ipAddress)) then InternalServerError
                           else Ok(upstream.body.value["reputation" := JStr(Label(upstream.body.value, ipAddress).value)])))
  {
  }

  /**
   * A 200 returns the lookup service's object unchanged except for the
   * `reputation` key, which holds one of the three labels.
   */
  lemma ReputationOnlyAddsLabel(ipAddress: string, upstream: Upstream)
    requires Lookup(ipAddress, upstream).status == 200
    ensures upstream.Reply? && upstream.body.Some?
    ensures var data := upstream.body.value; var body := Lookup(ipAddress, upstream).body;
      && body.Keys == data.Keys + {"reputation"}
      && (forall k :: k in data && k != "reputation" ==> body[k] == data[k])
      && body["reputation"] in {JStr("Known Threat"), JStr("Clean"), JStr("Unknown")}
      && body["reputation"] == JStr(Label(data, ipAddress).value)
  {
  }

  /** A token naming a user, as `jwt.decode` yields it for a valid login token. */
  function SomeUser(): Option<Claims>
  {
    Some(map["sub" := JStr("alice"), "exp" := JNum(1800)])
  }

  /** A successful reply of the lookup service about `ip`. */
  function SuccessData(ip: string): Object
  {
    map["status" := JStr("success"), "query" := JStr(ip)]
  }

  function SuccessReply(ip: string): Upstream
  {
    Reply(200, Some(SuccessData(ip)))
  }

  lemma Spells1()
    ensures Format(IPv4.Address(1, 1, 1, 1)) == "1.1.1.1"
  {
    assert Text.ShortDecimal(1) == "1";
  }

  lemma Spells185()
    ensures Format(IPv4.Address(185, 220, 101, 5)) == "185.220.101.5"
  {
    assert Text.ShortDecimal(185) == "185";
    assert Text.ShortDecimal(220) == "220";
    assert Text.ShortDecimal(101) == "101";
    assert Text.ShortDecimal(5) == "5";
  }

  /** A listed clean address that is reported successful is labelled "Clean". */
  lemma CleanExample(isV6: string -> bool)
    ensures ReputationCheck(SomeUser(), "1.1.1.1", isV6, SuccessReply("1.1.1.1"))
      == Handled(Ok(SuccessData("1.1.1.1")["reputation" := JStr("Clean")]), Some("1.1.1.1"))
  {
    Spells1();
    GuardOnSpelling(IPv4.Address(1, 1, 1, 1), "1.1.1.1", isV6);
    assert "1.1.1.1" !in KnownThreats;
    assert Label(SuccessData("1.1.1.1"), "1.1.1.1") == Some("Clean");
  }

  lemma ThreatIsPublic(isV6: string -> bool)
    ensures IsPublicRoutable("185.220.101.5", isV6)
  {
    Spells185();
    GuardOnSpelling(IPv4.Address(185, 220, 101, 5), "185.220.101.5", isV6);
  }

  /** A listed threat is labelled "Known Threat" although the lookup succeeded. */
  lemma ThreatExample(isV6: string -> bool)
    ensures ReputationCheck(SomeUser(), "185.220.101.5", isV6, SuccessReply("185.220.101.5"))
      == Handled(Ok(SuccessData("185.220.101.5")["reputation" := JStr("Known Threat")]), Some("185.220.101.5"))
  {
    ThreatIsPublic(isV6);
    assert Label(SuccessData("185.220.101.5"), "185.220.101.5") == Some("Known Threat");
  }

  /**
   * A private address is the 400 with a valid token; without one the token
   * check comes first and it is the 401.
   */
  lemma PrivateExample(isV6: string -> bool)
    ensures ReputationCheck(SomeUser(), "10.0.0.5", isV6, SuccessReply("10.0.0.5")) == Handled(InvalidIp, None)
    ensures ReputationCheck(None, "10.0.0.5", isV6, SuccessReply("10.0.0.5")) == Handled(CredentialsError, None)
  {
    GuardExamples(isV6);
  }
}
