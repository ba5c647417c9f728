/**
 * The API service: `check_ip` and its alias `api_check_ip`. It shares the
 * token check and the SSRF guard with the auth service, and labels the
 * lookup service's reply with a two-way label of its own in `_fetch`.
 */
module ApiService {
  import opened Wrappers
  import opened Http
  import opened Tokens
  import opened PyIpGuard
  import AuthService

  /** The service answers a refused address and a failed lookup with the auth service's two responses. */
  const InvalidIp := AuthService.InvalidIp
  const UpstreamUnavailable := AuthService.UpstreamUnavailable

  /** `data.get("query") in ["8.8.8.8", "1.1.1.1"]`, a list test by equality, so no key can raise. */
  function FetchLabel(data: Object): (rep: string)
    ensures rep == "Clean" <==> "query" in data && data["query"] in {JStr("8.8.8.8"), JStr("1.1.1.1")}
    ensures rep == "Unknown" <==> rep != "Clean"
  {
    if "query" in data && data["query"] in [JStr("8.8.8.8"), JStr("1.1.1.1")] then "Clean" else "Unknown"
  }

  /**
   * `_fetch`: the reply's object with `reputation` set, or None when the
   * request fails, `raise_for_status` raises on a 4xx or 5xx, or the body
   * is not JSON.
   */
  function Fetch(upstream: Upstream): (data: Option<Object>)
    ensures data.Some? <==> upstream.Reply? && !(400 <= upstream.status < 600) && upstream.body.Some?
    ensures data.Some? ==>
      && data.value.Keys == upstream.body.value.Keys + {"reputation"}
      && (forall k :: k in upstream.body.value && k != "reputation" ==> data.value[k] == upstream.body.value[k])
      && data.value["reputation"] == JStr(FetchLabel(upstream.body.value))
  {
    match upstream
    case Unreachable => None
    case Reply(status, body) =>
      if 400 <= status < 600 || body.None? then None
      else Some(body.value["reputation" := JStr(FetchLabel(body.value))])
  }

  /** The body of `check_ip`: the guard, then `_fetch`, whose every exception becomes the fixed 502. */
  function CheckIpBody(ip: string, isV6: string -> bool, upstream: Upstream): Handled
  {
    if !IsPublicRoutable(ip, isV6) then Handled(InvalidIp, None)
    else
      match Fetch(upstream)
      case None => Handled(UpstreamUnavailable, Some(ip))
      case Some(data) => Handled(Ok(data), Some(ip))
  }

  /** The /check-ip/{ip} route: the token dependency, then the body. */
  function CheckIpRoute(decoded: Option<Claims>, ip: string, isV6: string -> bool, upstream: Upstream): Handled
  {
    match VerifyToken(decoded)
    case Failure(e) => Handled(e, None)
    case Success(_) => CheckIpBody(ip, isV6, upstream)
  }

  /*
   * The three handlers keep the source's statement order and early returns,
   * and its call structure: `api_check_ip` calls `check_ip` as a plain
   * function, which runs only the body. Each is proved equal to the decision
   * `CheckIpBody` or `CheckIpRoute`, which the lemmas below are about.
   */

  /** `check_ip` called as a plain function: its `current_user` default is not resolved, so only the body runs. */
  method CheckIpHandler(ip: string, isV6: string -> bool, upstream: Upstream) returns (h: Handled)
    ensures h == CheckIpBody(ip, isV6, upstream)
  {
    var valid := ValidateIpAddress(ip, isV6);
    if !valid {
      return Handled(InvalidIp, None);
    }
    var data := Fetch(upstream);
    if data.None? {
      return Handled(UpstreamUnavailable, Some(ip));
    }
    h := Handled(Ok(data.value), Some(ip));
  }

  /** `check_ip` as a route: FastAPI resolves the token dependency first. */
  method CheckIp(decoded: Option<Claims>, ip: string, isV6: string -> bool, upstream: Upstream) returns (h: Handled)
    ensures h == CheckIpRoute(decoded, ip, isV6, upstream)
  {
    var currentUser := VerifyToken(decoded);
    if currentUser.Failure? {
      return Handled(currentUser.error, None);
    }
    h := CheckIpHandler(ip, isV6, upstream);
  }

  /** `api_check_ip`: its own token dependency, then `check_ip(ip)`; the outcome is exactly the /check-ip route's. */
  method ApiCheckIp(decoded: Option<Claims>, ip: string, isV6: string -> bool, upstream: Upstream) returns (h: Handled)
    ensures h == CheckIpRoute(decoded, ip, isV6, upstream)
  {
    var currentUser := VerifyToken(decoded);
    if currentUser.Failure? {
      return Handled(currentUser.error, None);
    }
    h := CheckIpHandler(ip, isV6, upstream);
  }

  /**
   * The order of the checks: token, guard, then the lookup of the requested
   * address. Every response after the lookup is either the 200 with the
   * labelled reply or the fixed 502, which carries nothing of the upstream.
   */
  lemma CheckIpOrder(decoded: Option<Claims>, ip: string, isV6: string -> bool, upstream: Upstream)
    ensures var h := CheckIpRoute(decoded, ip, isV6, upstream);
      && (VerifyToken(decoded).Failure? ==> h == Handled(CredentialsError, None))
      && (VerifyToken(decoded).Success? && !IsPublicRoutable(ip, isV6) ==> h == Handled(InvalidIp, None))
      && (h.lookedUp.Some? <==> VerifyToken(decoded).Success? && IsPublicRoutable(ip, isV6))
      && (h.lookedUp.Some? ==> h.lookedUp.value == ip)
      && (h.lookedUp.Some? ==>
            if Fetch(upstream).Some? then h.response == Ok(Fetch(upstream).value)
            else h.response == UpstreamUnavailable)
  {
  }

  /**
   * The two services' labels on the same reply: a clean label here is a
   * clean label there, a known threat there is "Unknown" here, and this
   * service never says "Known Threat". Without a `query` key the auth
   * service falls back to the requested address and this one says "Unknown".
   */
  lemma LabelsCompared(data: Object, requested: string)
    ensures FetchLabel(data) != "Known Threat"
    ensures FetchLabel(data) == "Clean" ==> AuthService.Label(data, requested) == Some("Clean")
    ensures AuthService.Label(data, requested) == Some("Known Threat") ==> FetchLabel(data) == "Unknown"
    ensures !("query" in data) ==> FetchLabel(data) == "Unknown"
  {
    if FetchLabel(data) == "Clean" {
      assert data["query"] == JStr("8.8.8.8") || data["query"] == JStr("1.1.1.1");
      assert AuthService.LookupKey(data, requested) == data["query"];
    }
    if AuthService.Label(data, requested) == Some("Known Threat") {
      AuthService.LabelLadder(data, requested);
      var q := AuthService.LookupKey(data, requested);
      assert q.s in AuthService.KnownThreats;
      if "query" in data {
        assert data["query"] == q;
        assert q != JStr("8.8.8.8") && q != JStr("1.1.1.1");
      }
    }
  }
}
