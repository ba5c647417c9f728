/**
 * The analysis service's GET /check-ip handler: trim the `ip` query
 * parameter, refuse an empty, malformed or private address with a 400 of
 * its own, and only then ask the lookup service, whose reply is mapped to a
 * fixed shape.
 */
module AnalysisService {
  import opened Wrappers
  import opened Http
  import opened JsIpGuard
  import IPv4
  import Text

  /** ECMAScript's WhiteSpace and LineTerminator code points, the ones `String.prototype.trim` strips. */
  predicate IsJsWhitespace(c: char)
  {
    var n := c as int;
    || 9 <= n <= 13 || n == 0x20 || n == 0xA0 || n == 0x1680
    || 0x2000 <= n <= 0x200A || n == 0x2028 || n == 0x2029
    || n == 0x202F || n == 0x205F || n == 0x3000 || n == 0xFEFF
  }

  /**
   * Trimming is stated for any set of characters `ws`, so that its lemmas
   * never unfold the long whitespace test; `Trim` fixes `ws` to JavaScript's.
   */
  predicate AllIn(s: string, ws: char -> bool)
  {
    forall i :: 0 <= i < |s| ==> ws(s[i])
  }

  /** How many characters of `ws` the string starts with. */
  function LeadingCount(s: string, ws: char -> bool): (n: nat)
    ensures n <= |s|
    ensures forall i :: 0 <= i < n ==> ws(s[i])
    ensures n == |s| || !ws(s[n])
  {
    if |s| > 0 && ws(s[0]) then 1 + LeadingCount(s[1..], ws) else 0
  }

  /** How many characters of `ws` the string ends with. */
  function TrailingCount(s: string, ws: char -> bool): (n: nat)
    ensures n <= |s|
    ensures forall i :: |s| - n <= i < |s| ==> ws(s[i])
    ensures n == |s| || !ws(s[|s| - 1 - n])
  {
    if |s| > 0 && ws(s[|s| - 1]) then 1 + TrailingCount(s[..|s| - 1], ws) else 0
  }

  /** Drop the leading characters of `ws`, then the trailing ones of what is left. */
  function TrimBy(s: string, ws: char -> bool): string
  {
    var t := s[LeadingCount(s, ws)..];
    t[..|t| - TrailingCount(t, ws)]
  }

  /** `s.trim()`. */
  function Trim(s: string): string
  {
    TrimBy(s, IsJsWhitespace)
  }

  /** The trimmed string neither starts nor ends with a character of `ws`. */
  lemma TrimmedEnds(s: string, ws: char -> bool)
    ensures var r := TrimBy(s, ws); r == [] || (!ws(r[0]) && !ws(r[|r| - 1]))
  {
    var n := LeadingCount(s, ws);
    var t := s[n..];
    var m := TrailingCount(t, ws);
    var r := t[..|t| - m];
    if r != [] {
      assert r[0] == s[n];
      assert r[|r| - 1] == t[|t| - 1 - m];
    }
  }

  /** A prefix whose every character is in `ws`. */
  lemma PrefixIn(s: string, n: nat, ws: char -> bool)
    requires n <= |s| && forall i :: 0 <= i < n ==> ws(s[i])
    ensures AllIn(s[..n], ws)
  {
  }

  /** A suffix whose every character is in `ws`. */
  lemma SuffixIn(t: string, m: nat, ws: char -> bool)
    requires m <= |t| && forall i :: |t| - m <= i < |t| ==> ws(t[i])
    ensures AllIn(t[|t| - m..], ws)
  {
    var post := t[|t| - m..];
    forall k | 0 <= k < |post| ensures ws(post[k]) {
      assert post[k] == t[|t| - m + k];
    }
  }

  /** A string is its first n characters, the middle, and its last m characters. */
  lemma ThreeParts(s: string, n: nat, m: nat)
    requires n <= |s| && m <= |s| - n
    ensures s == s[..n] + s[n..][..|s| - n - m] + s[n..][|s| - n - m..]
  {
    var t := s[n..];
    assert t == t[..|t| - m] + t[|t| - m..];
    assert s == s[..n] + t;
  }

  /** Trimming removes only characters of `ws`, from both ends. */
  lemma TrimmedParts(s: string, ws: char -> bool) returns (pre: string, post: string)
    ensures AllIn(pre, ws) && AllIn(post, ws) && s == pre + TrimBy(s, ws) + post
  {
    var n := LeadingCount(s, ws);
    var t := s[n..];
    var m := TrailingCount(t, ws);
    pre, post := s[..n], t[|t| - m..];
    PrefixIn(s, n, ws);
    SuffixIn(t, m, ws);
    ThreeParts(s, n, m);
  }

  /**
   * What `trim` leaves: the input is whitespace, then the result, then
   * whitespace, and the result neither starts nor ends with whitespace.
   */
  lemma TrimMeaning(s: string)
    ensures var r := Trim(s);
      && (r == [] || (!IsJsWhitespace(r[0]) && !IsJsWhitespace(r[|r| - 1])))
      && exists pre, post :: AllIn(pre, IsJsWhitespace) && AllIn(post, IsJsWhitespace) && s == pre + r + post
  {
    TrimmedEnds(s, IsJsWhitespace);
    var pre, post := TrimmedParts(s, IsJsWhitespace);
  }

  /** A string that neither starts nor ends with a character of `ws` is its own trim. */
  lemma NothingToTrim(s: string, ws: char -> bool)
    requires s != [] && !ws(s[0]) && !ws(s[|s| - 1])
    ensures TrimBy(s, ws) == s
  {
    assert LeadingCount(s, ws) == 0;
    assert s[0..] == s;
    assert TrailingCount(s, ws) == 0;
  }

  /** Trimming a trimmed string changes nothing. */
  lemma TrimIdempotent(s: string)
    ensures Trim(Trim(s)) == Trim(s)
  {
    var r := Trim(s);
    TrimmedEnds(s, IsJsWhitespace);
    if r != [] {
      NothingToTrim(r, IsJsWhitespace);
    }
  }

  const Required := Message(400, "IP address is required")
  const BadFormat := Message(400, "Invalid IP address format")
  const PrivateRefused := Message(400, "Private IP addresses are not allowed")
  const LookupUnavailable := Message(502, "IP lookup service temporarily unavailable")

  /** The 400 for a reply whose `status` is not "success"; it names the address that was asked about. */
  function LookupFailed(ip: string): Response
  {
    Response(400, map["message" := JStr("IP lookup failed"), "query" := JStr(ip)], map[])
  }

  /** `out[key] = data[from]`, where `JSON.stringify` drops a key whose value is undefined. */
  function CopyField(out: Object, key: string, data: Object, from: string): Object
  {
    if from in data then out[key := data[from]] else out
  }

  /** The success shape `{query, reputation: "Good", country, provider: isp, threats: []}`. */
  function Summary(json: Object): (body: Object)
    ensures body.Keys == {"reputation", "threats"}
      + (if "query" in json then {"query"} else {})
      + (if "country" in json then {"country"} else {})
      + (if "isp" in json then {"provider"} else {})
    ensures body["reputation"] == JStr("Good") && body["threats"] == JArr([])
    ensures "query" in json ==> body["query"] == json["query"]
    ensures "country" in json ==> body["country"] == json["country"]
    ensures "isp" in json ==> body["provider"] == json["isp"]
  {
    var fixed := map["reputation" := JStr("Good"), "threats" := JArr([])];
    CopyField(CopyField(CopyField(fixed, "query", json, "query"), "country", json, "country"), "provider", json, "isp")
  }

  /**
   * The `try` block: a status outside 200..299 (`!resp.ok`), a failed
   * request and a body that is not JSON are all thrown and caught as the
   * fixed 502; a reply whose `status` is not the string "success" is the
   * lookup-failed 400; otherwise the summary.
   */
  function Lookup(ip: string, upstream: Upstream): (r: Response)
    ensures r.status == 200 <==>
      upstream.Reply? && 200 <= upstream.status < 300 && upstream.body.Some?
      && "status" in upstream.body.value && upstream.body.value["status"] == JStr("success")
    ensures r.status == 200 ==> r == Ok(Summary(upstream.body.value))
    ensures r.status != 200 ==>
      if upstream.Unreachable? || !(200 <= upstream.status < 300) || upstream.body.None? then r == LookupUnavailable
      else r == LookupFailed(ip)
  {
    match upstream
    case Unreachable => LookupUnavailable
    case Reply(status, body) =>
      if !(200 <= status < 300) || body.None? then LookupUnavailable
      else if !("status" in body.value && body.value["status"] == JStr("success")) then LookupFailed(ip)
      else Ok(Summary(body.value))
  }

  /** The handler, on the query parameter (None when absent) and the lookup service's reply. */
  function CheckIp(query: Option<string>, upstream: Upstream): Handled
  {
    var ip := Trim(match query case Some(s) => s case None => "");
    if ip == "" then Handled(Required, None)
    else if !IsValidIP(ip) then Handled(BadFormat, None)
    else if IsPrivateIP(ip) then Handled(PrivateRefused, None)
    else Handled(Lookup(ip, upstream), Some(ip))
  }

  /**
   * The checks run in order and each has its own 400; the lookup service is
   * asked about the trimmed address exactly when all three pass.
   */
  lemma CheckIpOrder(query: Option<string>, upstream: Upstream)
    ensures var ip := Trim(match query case Some(s) => s case None => "");
      var h := CheckIp(query, upstream);
      && (ip == "" ==> h == Handled(Required, None))
      && (ip != "" && !IsValidIP(ip) ==> h == Handled(BadFormat, None))
      && (IsValidIP(ip) && IsPrivateIP(ip) ==> h == Handled(PrivateRefused, None))
      && (h.lookedUp.Some? <==> IsValidIP(ip) && !IsPrivateIP(ip))
      && (h.lookedUp.Some? ==> h.lookedUp.value == ip && h.response == Lookup(ip, upstream))
    ensures Required != BadFormat && BadFormat != PrivateRefused && Required != PrivateRefused
  {
    assert Required.body["message"].s[1] != BadFormat.body["message"].s[1];
    assert BadFormat.body["message"].s[0] != PrivateRefused.body["message"].s[0];
    assert Required.body["message"].s[0] != PrivateRefused.body["message"].s[0];
    var ip := Trim(match query case Some(s) => s case None => "");
    if ip == "" {
      assert !IsValidIP(ip) by {
        assert Text.Split(ip, '.') == [""];
      }
    }
  }

  /**
   * What reaches the lookup service: a dotted quad surrounded by no
   * whitespace, and, when it has no leading zeros, an address outside all
   * five private blocks.
   */
  lemma LookedUpIsPublic(query: Option<string>, upstream: Upstream)
    requires CheckIp(query, upstream).lookedUp.Some?
    ensures var ip := CheckIp(query, upstream).lookedUp.value;
      && IsValidIP(ip) && !IsJsWhitespace(ip[0]) && !IsJsWhitespace(ip[|ip| - 1])
      && (NoLeadingZeros(ip) ==> !IPv4.InAnyBlock(GroupValues(ip)))
  {
    var raw := match query case Some(s) => s case None => "";
    CheckIpOrder(query, upstream);
    var ip := Trim(raw);
    assert CheckIp(query, upstream).lookedUp.value == ip && ip != "";
    TrimmedEnds(raw, IsJsWhitespace);
    if NoLeadingZeros(ip) {
      GuardsAgreeWithoutLeadingZeros(ip);
    }
  }

  /**
   * A well-formed, non-private string with no whitespace at its ends is
   * looked up exactly as given; with `LeadingZeroBypass` this covers
   * "010.0.0.1", which denotes 10.0.0.1.
   */
  lemma AcceptedAsGiven(ip: string, upstream: Upstream)
    requires ip != [] && !IsJsWhitespace(ip[0]) && !IsJsWhitespace(ip[|ip| - 1])
    requires IsValidIP(ip) && !IsPrivateIP(ip)
    ensures CheckIp(Some(ip), upstream).lookedUp == Some(ip)
  {
    NothingToTrim(ip, IsJsWhitespace);
  }
}
