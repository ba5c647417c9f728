/**
 * The SSRF guard of the Node analysis service: `isValidIP`, a dotted-quad
 * regular expression, and `isPrivateIP`, five textual prefix patterns. The
 * lemmas compare it with the Python guard: the two agree on every string
 * without leading zeros and part ways on leading zeros and on IPv6.
 */
module JsIpGuard {
  import opened Text
  import opened IPv4
  import opened Wrappers
  import PyIpGuard

  /**
   * `[01]?[0-9][0-9]?`, matched against a whole group, one disjunct per way
   * the two optional parts can be present: neither, the trailing digit only,
   * the leading `[01]` only, or both. The third overlaps the second; it is
   * kept so that each branch of the pattern has its own line.
   */
  predicate ShortGroup(g: string)
  {
    || (|g| == 1 && IsDigit(g[0]))
    || (|g| == 2 && IsDigit(g[0]) && IsDigit(g[1]))
    || (|g| == 2 && (g[0] == '0' || g[0] == '1') && IsDigit(g[1]))
    || (|g| == 3 && (g[0] == '0' || g[0] == '1') && IsDigit(g[1]) && IsDigit(g[2]))
  }

  /** One group of `isValidIP`'s pattern: `25[0-5]|2[0-4][0-9]|[01]?[0-9][0-9]?`. */
  predicate OctetPattern(g: string)
  {
    || (|g| == 3 && g[0] == '2' && g[1] == '5' && '0' <= g[2] <= '5')
    || (|g| == 3 && g[0] == '2' && '0' <= g[1] <= '4' && IsDigit(g[2]))
    || ShortGroup(g)
  }

  /** The anchored pattern `^(?:OCTET\.){3}OCTET$`: four groups with '.' between them and nothing around. */
  ghost predicate MatchesIpPattern(s: string)
  {
    exists groups: seq<string> ::
      |groups| == 4 && (forall i :: 0 <= i < 4 ==> OctetPattern(groups[i])) && Join(groups, '.') == s
  }

  /** `isValidIP(ip)`, computed by splitting on '.', a character no group can contain. */
  predicate IsValidIP(s: string)
  {
    var groups := Split(s, '.');
    |groups| == 4 && forall i :: 0 <= i < 4 ==> OctetPattern(groups[i])
  }

  /** A group of the pattern is one to three ASCII digits whose value is at most 255; leading zeros allowed. */
  lemma OctetPatternMeaning(g: string)
    ensures OctetPattern(g) <==> 1 <= |g| <= 3 && AllDigits(g) && DecimalValue(g) <= 255
  {
    if 1 <= |g| <= 3 && AllDigits(g) {
      ShortValue(g);
    }
  }

  /** Python accepts an octet exactly when this pattern does and it has no leading zero. */
  lemma PythonOctetIsPattern(g: string)
    ensures PyIpGuard.ParseOctet(g).Some? <==> OctetPattern(g) && NoLeadingZero(g)
  {
    OctetPatternMeaning(g);
  }

  /** The split-based reading of `isValidIP` is the regular expression's. */
  lemma IsValidIPMatchesPattern(s: string)
    ensures IsValidIP(s) <==> MatchesIpPattern(s)
  {
    if IsValidIP(s) {
      JoinSplit(s, '.');
      assert Join(Split(s, '.'), '.') == s;
    }
    if MatchesIpPattern(s) {
      var groups :| |groups| == 4 && (forall i :: 0 <= i < 4 ==> OctetPattern(groups[i])) && Join(groups, '.') == s;
      forall i | 0 <= i < 4
        ensures '.' !in groups[i]
      {
        OctetPatternMeaning(groups[i]);
        DigitsAvoid(groups[i], '.');
      }
      SplitJoin(groups, '.');
    }
  }

  /** The patterns of `isPrivateIP`: a literal prefix, or `^172\.(1[6-9]|2[0-9]|3[0-1])\.`. */
  datatype PrivatePattern = Prefix(text: string) | Prefix172

  const PrivatePatterns: seq<PrivatePattern> :=
    [Prefix("10."), Prefix172, Prefix("192.168."), Prefix("127."), Prefix("169.254.")]

  /** `1[6-9]|2[0-9]|3[0-1]` on two characters. */
  predicate From16To31(c0: char, c1: char)
  {
    (c0 == '1' && '6' <= c1 <= '9') || (c0 == '2' && IsDigit(c1)) || (c0 == '3' && '0' <= c1 <= '1')
  }

  predicate Test(p: PrivatePattern, s: string)
  {
    match p
    case Prefix(w) => StartsWith(s, w)
    case Prefix172 => StartsWith(s, "172.") && |s| >= 7 && From16To31(s[4], s[5]) && s[6] == '.'
  }

  /** `privateRanges.some(range => range.test(ip))`. */
  predicate IsPrivateIP(s: string)
  {
    exists i :: 0 <= i < |PrivatePatterns| && Test(PrivatePatterns[i], s)
  }

  /** The address the four groups denote, each read as a decimal number (the reading the format check bounds by 255). */
  function GroupValues(s: string): (x: Address)
    requires IsValidIP(s)
  {
    var g := Split(s, '.');
    OctetPatternMeaning(g[0]);
    OctetPatternMeaning(g[1]);
    OctetPatternMeaning(g[2]);
    OctetPatternMeaning(g[3]);
    Address(DecimalValue(g[0]), DecimalValue(g[1]), DecimalValue(g[2]), DecimalValue(g[3]))
  }

  predicate NoLeadingZeros(s: string)
  {
    forall i :: 0 <= i < |Split(s, '.')| ==> NoLeadingZero(Split(s, '.')[i])
  }

  /** A canonical group equals a short literal exactly when their values agree. */
  lemma GroupIs(p: string, w: string)
    requires OctetPattern(p) && NoLeadingZero(p)
    requires AllDigits(w) && 1 <= |w| <= 3 && NoLeadingZero(w)
    ensures p == w <==> DecimalValue(p) == DecimalValue(w)
  {
    OctetPatternMeaning(p);
    CanonicalSpelling(p, w);
  }

  /**
   * With the second group p followed by a '.', the 172 pattern's characters
   * four to six are `1[6-9]|2[0-9]|3[0-1]` and a '.' exactly when the second
   * group's value is between 16 and 31.
   */
  lemma SecondGroup172(r: string, p: string, rest: string)
    requires r == p + "." + rest && OctetPattern(p) && NoLeadingZero(p)
    ensures (|r| >= 3 && From16To31(r[0], r[1]) && r[2] == '.') <==> 16 <= DecimalValue(p) <= 31
  {
    OctetPatternMeaning(p);
    ShortValue(p);
    if |p| == 1 {
      assert r[1] == '.';
    } else if |p| == 3 {
      assert r[2] == p[2];
    } else {
      assert r[0] == p[0] && r[1] == p[1] && r[2] == '.';
    }
  }

  /** A valid string laid out as its first group, '.', and the rest, which is the second group, '.', and the rest. */
  lemma Layout(s: string) returns (r1: string, r2: string)
    requires IsValidIP(s)
    ensures var g := Split(s, '.');
      && s == g[0] + ['.'] + r1 && r1 == g[1] + ['.'] + r2
      && '.' !in g[0] && '.' !in g[1]
  {
    var g := Split(s, '.');
    FourPieces(s, '.');
    r2 := g[2] + "." + g[3];
    r1 := g[1] + "." + r2;
  }

  /** The literal prefix "w." of a valid string without leading zeros names the value of its first group. */
  lemma FirstGroupPrefix(s: string, w: string)
    requires IsValidIP(s) && NoLeadingZeros(s)
    requires AllDigits(w) && 1 <= |w| <= 3 && NoLeadingZero(w)
    ensures StartsWith(s, w + ".") <==> GroupValues(s).a == DecimalValue(w)
  {
    var g := Split(s, '.');
    var r1, r2 := Layout(s);
    DigitsAvoid(w, '.');
    FirstPieceIs(s, g[0], '.', r1, w);
    GroupIs(g[0], w);
  }

  /** The prefix "w.v." names the values of the first two groups. */
  lemma TwoGroupPrefix(s: string, w: string, v: string)
    requires IsValidIP(s) && NoLeadingZeros(s)
    requires AllDigits(w) && 1 <= |w| <= 3 && NoLeadingZero(w)
    requires AllDigits(v) && 1 <= |v| <= 3 && NoLeadingZero(v)
    ensures StartsWith(s, w + "." + v + ".") <==>
      GroupValues(s).a == DecimalValue(w) && GroupValues(s).b == DecimalValue(v)
  {
    var g := Split(s, '.');
    var r1, r2 := Layout(s);
    DigitsAvoid(w, '.');
    DigitsAvoid(v, '.');
    TwoPiecesAre(s, g[0], g[1], '.', r2, w, v);
    GroupIs(g[0], w);
    GroupIs(g[1], v);
  }

  lemma Test172Meaning(s: string)
    requires IsValidIP(s) && NoLeadingZeros(s)
    ensures Test(Prefix172, s) <==> GroupValues(s).a == 172 && 16 <= GroupValues(s).b <= 31
  {
    var g := Split(s, '.');
    var r1, r2 := Layout(s);
    ShortValue("172");
    FirstGroupPrefix(s, "172");
    if StartsWith(s, "172.") {
      assert s[4..] == r1;
    }
    SecondGroup172(r1, g[1], r2);
  }

  /** The patterns "10." and "127.", read as conditions on the first group. */
  lemma OneGroupPatterns(s: string)
    requires IsValidIP(s) && NoLeadingZeros(s)
    ensures Test(PrivatePatterns[0], s) <==> GroupValues(s).a == 10
    ensures Test(PrivatePatterns[3], s) <==> GroupValues(s).a == 127
  {
    assert DecimalValue("10") == 10 by { ShortValue("10"); }
    assert "10." == "10" + ".";
    FirstGroupPrefix(s, "10");
    assert DecimalValue("127") == 127 by { ShortValue("127"); }
    assert "127." == "127" + ".";
    FirstGroupPrefix(s, "127");
  }

  /** The patterns "192.168." and "169.254.", read as conditions on the first two groups. */
  lemma TwoGroupPatterns(s: string)
    requires IsValidIP(s) && NoLeadingZeros(s)
    ensures Test(PrivatePatterns[2], s) <==> GroupValues(s).a == 192 && GroupValues(s).b == 168
    ensures Test(PrivatePatterns[4], s) <==> GroupValues(s).a == 169 && GroupValues(s).b == 254
  {
    assert DecimalValue("192") == 192 && DecimalValue("168") == 168 by { ShortValue("192"); ShortValue("168"); }
    assert "192.168." == "192" + "." + "168" + ".";
    TwoGroupPrefix(s, "192", "168");
    assert DecimalValue("169") == 169 && DecimalValue("254") == 254 by { ShortValue("169"); ShortValue("254"); }
    assert "169.254." == "169" + "." + "254" + ".";
    TwoGroupPrefix(s, "169", "254");
  }

  /** Each of the five patterns, read as a condition on the address. */
  lemma EachPattern(s: string)
    requires IsValidIP(s) && NoLeadingZeros(s)
    ensures var x := GroupValues(s);
      && (Test(PrivatePatterns[0], s) <==> x.a == 10)
      && (Test(PrivatePatterns[1], s) <==> x.a == 172 && 16 <= x.b <= 31)
      && (Test(PrivatePatterns[2], s) <==> x.a == 192 && x.b == 168)
      && (Test(PrivatePatterns[3], s) <==> x.a == 127)
      && (Test(PrivatePatterns[4], s) <==> x.a == 169 && x.b == 254)
  {
    OneGroupPatterns(s);
    Test172Meaning(s);
    TwoGroupPatterns(s);
  }

  /** On a valid string without leading zeros, the prefix test is membership in the five private networks. */
  lemma PrivateMeansBlocked(s: string)
    requires IsValidIP(s) && NoLeadingZeros(s)
    ensures IsPrivateIP(s) <==> InAnyBlock(GroupValues(s))
  {
    EachPattern(s);
    BlockedIffOctets(GroupValues(s));
  }

  /**
   * On strings without leading zeros the two guards read the same addresses,
   * and the prefix test is exactly membership in the five private networks.
   */
  lemma GuardsAgreeWithoutLeadingZeros(s: string)
    requires NoLeadingZeros(s)
    ensures IsValidIP(s) <==> PyIpGuard.ParseIPv4(s).Some?
    ensures IsValidIP(s) ==> PyIpGuard.ParseIPv4(s) == Some(GroupValues(s))
    ensures IsValidIP(s) ==> (IsPrivateIP(s) <==> InAnyBlock(GroupValues(s)))
  {
    var g := Split(s, '.');
    if |g| == 4 {
      forall i | 0 <= i < 4
        ensures PyIpGuard.ParseOctet(g[i]).Some? <==> OctetPattern(g[i])
      {
        PythonOctetIsPattern(g[i]);
      }
    }
    if IsValidIP(s) {
      PrivateMeansBlocked(s);
    }
  }

  /** A string the format check accepts holds only digits and dots. */
  lemma ValidHasNoColon(s: string)
    ensures IsValidIP(s) ==> ':' !in s
  {
    if IsValidIP(s) {
      var groups := Split(s, '.');
      forall i | 0 <= i < 4
        ensures AllDigits(groups[i])
      {
        OctetPatternMeaning(groups[i]);
      }
      JoinSplit(s, '.');
      JoinedDigits(groups, '.');
    }
  }

  /**
   * IPv6: the Python guard passes every IPv6 literal, loopback and
   * link-local included, while the Node format check refuses them all.
   */
  lemma Ipv6Divergence(s: string, isV6: string -> bool)
    requires ':' in s && isV6(s)
    ensures PyIpGuard.IsPublicRoutable(s, isV6) && !IsValidIP(s)
  {
    ValidHasNoColon(s);
    PyIpGuard.IPv4HasNoColon(s);
  }

  lemma SplitLeadingZeroExample()
    ensures Split("010.0.0.1", '.') == ["010", "0", "0", "1"]
  {
    assert "010.0.0.1" == "010" + ['.'] + "0.0.1";
    SplitCons("010", '.', "0.0.1");
    assert "0.0.1" == "0" + ['.'] + "0.1";
    SplitCons("0", '.', "0.1");
    assert "0.1" == "0" + ['.'] + "1";
    SplitCons("0", '.', "1");
    SplitNone("1", '.');
  }

  /** A string that splits into four groups of the pattern is valid and denotes their values. */
  lemma ValidFromGroups(s: string, g: seq<string>)
    requires Split(s, '.') == g && |g| == 4 && forall i :: 0 <= i < 4 ==> OctetPattern(g[i])
    ensures IsValidIP(s)
    ensures GroupValues(s) == Address(DecimalValue(g[0]), DecimalValue(g[1]), DecimalValue(g[2]), DecimalValue(g[3]))
  {
  }

  lemma LeadingZeroValid()
    ensures IsValidIP("010.0.0.1") && GroupValues("010.0.0.1") == Address(10, 0, 0, 1)
  {
    var g := ["010", "0", "0", "1"];
    SplitLeadingZeroExample();
    assert OctetPattern("010") && OctetPattern("0") && OctetPattern("1");
    assert DecimalValue("010") == 10 by { ShortValue("010"); }
    assert DecimalValue("0") == 0 && DecimalValue("1") == 1;
    ValidFromGroups("010.0.0.1", g);
  }

  lemma LeadingZeroNotPrivate()
    ensures !IsPrivateIP("010.0.0.1")
  {
    var s := "010.0.0.1";
    forall i | 0 <= i < |PrivatePatterns|
      ensures !Test(PrivatePatterns[i], s)
    {
      var p := PrivatePatterns[i];
      assert s[0] == '0';
      assert p.Prefix? ==> |p.text| >= 1 && p.text[0] == '1';
    }
  }

  /**
   * Leading zeros: "010.0.0.1" passes the format check, whose groups are
   * decimal numbers up to 255; read in decimal it is 10.0.0.1 in 10.0.0.0/8,
   * yet no prefix pattern matches it; the Python guard refuses the same
   * string. (A resolver that reads a leading zero as octal takes it as
   * 8.0.0.1; under that reading "012.0.0.1" is the same bypass.)
   */
  lemma LeadingZeroBypass()
    ensures IsValidIP("010.0.0.1") && !IsPrivateIP("010.0.0.1")
    ensures GroupValues("010.0.0.1") == Address(10, 0, 0, 1) && InAnyBlock(Address(10, 0, 0, 1))
    ensures PyIpGuard.ParseIPv4("010.0.0.1").None?
  {
    LeadingZeroValid();
    LeadingZeroNotPrivate();
    BlockedIffOctets(Address(10, 0, 0, 1));
    SplitLeadingZeroExample();
    assert PyIpGuard.ParseOctet("010").None?;
  }
}
