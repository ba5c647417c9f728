/**
 * Character-level helpers shared by the IP guards and the input validators:
 * ASCII decimal digits, the value of a digit string, and splitting a string
 * on a separator the way Python's `str.split(sep)` does.
 */
module Text {

  predicate IsDigit(c: char)
  {
    '0' <= c <= '9'
  }

  function DigitValue(c: char): (d: nat)
    requires IsDigit(c)
    ensures d < 10
  {
    c as int - '0' as int
  }

  predicate AllDigits(s: string)
  {
    forall i :: 0 <= i < |s| ==> IsDigit(s[i])
  }

  /** The number a string of decimal digits denotes (Python's `int(s, 10)`). */
  function DecimalValue(s: string): nat
    requires AllDigits(s)
  {
    if |s| == 0 then 0 else DecimalValue(s[..|s| - 1]) * 10 + DigitValue(s[|s| - 1])
  }

  /** The string is "0" or does not start with '0'. */
  predicate NoLeadingZero(s: string)
  {
    |s| <= 1 || s[0] != '0'
  }

  /** A string of one to three digits has the value its place values give it. */
  lemma ShortValue(s: string)
    requires AllDigits(s) && 1 <= |s| <= 3
    ensures |s| == 1 ==> DecimalValue(s) == DigitValue(s[0])
    ensures |s| == 2 ==> DecimalValue(s) == 10 * DigitValue(s[0]) + DigitValue(s[1])
    ensures |s| == 3 ==> DecimalValue(s) == 100 * DigitValue(s[0]) + 10 * DigitValue(s[1]) + DigitValue(s[2])
  {
    var one := s[..1];
    assert DecimalValue(one) == DigitValue(s[0]) by {
      assert one[..0] == [];
    }
    if |s| >= 2 {
      var two := s[..2];
      assert two[..1] == one;
      assert DecimalValue(two) == 10 * DigitValue(s[0]) + DigitValue(s[1]);
      if |s| == 3 {
        assert s[..2] == two;
      } else {
        assert s == two;
      }
    } else {
      assert s == one;
    }
  }

  /**
   * Two digit strings of at most three characters without leading zeros are
   * equal exactly when their values are: such a string is the canonical
   * spelling of its number.
   */
  lemma CanonicalSpelling(p: string, w: string)
    requires AllDigits(p) && 1 <= |p| <= 3 && NoLeadingZero(p)
    requires AllDigits(w) && 1 <= |w| <= 3 && NoLeadingZero(w)
    ensures p == w <==> DecimalValue(p) == DecimalValue(w)
  {
    ShortValue(p);
    ShortValue(w);
    if DecimalValue(p) == DecimalValue(w) {
      assert |p| == |w|;
      forall i | 0 <= i < |p|
        ensures p[i] == w[i]
      {
        assert DigitValue(p[i]) == DigitValue(w[i]);
      }
    }
  }

  /** Python's `s.split(sep)`: the pieces between occurrences of `sep`, empty pieces kept. */
  function Split(s: string, sep: char): (parts: seq<string>)
    ensures |parts| >= 1
    ensures forall i :: 0 <= i < |parts| ==> sep !in parts[i]
  {
    if |s| == 0 then [""]
    else
      var rest := Split(s[1..], sep);
      if s[0] == sep then [""] + rest
      else [[s[0]] + rest[0]] + rest[1..]
  }

  /** A string without the separator is its own single piece. */
  lemma {:induction false} SplitNone(s: string, sep: char)
    requires sep !in s
    ensures Split(s, sep) == [s]
  {
    if |s| > 0 {
      SplitNone(s[1..], sep);
      assert [s[0]] + s[1..] == s;
    }
  }

  /** Lay the pieces out again with `sep` between them (Python's `sep.join(parts)`). */
  function Join(parts: seq<string>, sep: char): string
    requires |parts| >= 1
  {
    if |parts| == 1 then parts[0] else parts[0] + [sep] + Join(parts[1..], sep)
  }

  /** Splitting a piece off the front of a string. */
  lemma {:induction false} SplitCons(p: string, sep: char, rest: string)
    requires sep !in p
    ensures Split(p + [sep] + rest, sep) == [p] + Split(rest, sep)
  {
    var s := p + [sep] + rest;
    if |p| == 0 {
      assert s[1..] == rest;
    } else {
      SplitCons(p[1..], sep, rest);
      assert s[1..] == p[1..] + [sep] + rest;
      assert [p[0]] + p[1..] == p;
    }
  }

  /** Joining the pieces of a split gives the string back. */
  lemma {:induction false} JoinSplit(s: string, sep: char)
    ensures Join(Split(s, sep), sep) == s
  {
    if |s| > 0 {
      var rest := Split(s[1..], sep);
      JoinSplit(s[1..], sep);
      if s[0] == sep {
        assert Split(s, sep)[1..] == rest;
      } else if |rest| > 1 {
        var parts := Split(s, sep);
        assert parts[1..] == rest[1..];
        assert Join(parts, sep) == [s[0]] + rest[0] + [sep] + Join(rest[1..], sep);
      }
    }
  }

  /** Splitting undoes joining, provided no piece contains the separator. */
  lemma {:induction false} SplitJoin(parts: seq<string>, sep: char)
    requires |parts| >= 1
    requires forall i :: 0 <= i < |parts| ==> sep !in parts[i]
    ensures Split(Join(parts, sep), sep) == parts
  {
    if |parts| == 1 {
      SplitNone(parts[0], sep);
    } else {
      SplitJoin(parts[1..], sep);
      SplitCons(parts[0], sep, Join(parts[1..], sep));
    }
  }

  /** Four pieces joined, laid out. */
  lemma JoinFour(p: seq<string>, sep: char)
    requires |p| == 4
    ensures Join(p, sep) == p[0] + [sep] + (p[1] + [sep] + (p[2] + [sep] + p[3]))
  {
    assert Join(p[1..][1..][1..], sep) == p[3];
    assert Join(p[1..][1..], sep) == p[2] + [sep] + p[3];
    assert Join(p[1..], sep) == p[1] + [sep] + (p[2] + [sep] + p[3]);
  }

  /** The pieces of a four-way split, laid out. */
  lemma FourPieces(s: string, sep: char)
    requires |Split(s, sep)| == 4
    ensures var p := Split(s, sep);
      s == p[0] + [sep] + (p[1] + [sep] + (p[2] + [sep] + p[3]))
  {
    JoinSplit(s, sep);
    JoinFour(Split(s, sep), sep);
  }

  /** The canonical decimal spelling of a number below 1000, as Python's `str(n)`. */
  function ShortDecimal(n: nat): (s: string)
    requires n < 1000
  {
    if n < 10 then [Digit(n)]
    else if n < 100 then [Digit(n / 10), Digit(n % 10)]
    else [Digit(n / 100), Digit(n / 10 % 10), Digit(n % 10)]
  }

  function Digit(d: nat): (c: char)
    requires d < 10
    ensures IsDigit(c) && DigitValue(c) == d
  {
    ('0' as int + d) as char
  }

  /** ShortDecimal spells n: its digits, without a leading zero, have value n. */
  lemma ShortDecimalSpells(n: nat)
    requires n < 1000
    ensures var s := ShortDecimal(n);
      1 <= |s| <= 3 && AllDigits(s) && NoLeadingZero(s) && DecimalValue(s) == n
  {
    ShortValue(ShortDecimal(n));
  }

  /** A short canonical digit string is the spelling of its own value. */
  lemma SpelledByValue(s: string)
    requires AllDigits(s) && 1 <= |s| <= 3 && NoLeadingZero(s)
    ensures DecimalValue(s) < 1000 && ShortDecimal(DecimalValue(s)) == s
  {
    ShortValue(s);
    ShortDecimalSpells(DecimalValue(s));
    CanonicalSpelling(s, ShortDecimal(DecimalValue(s)));
  }

  /** A digit string contains no separator that is not itself a digit. */
  lemma DigitsAvoid(s: string, sep: char)
    requires AllDigits(s) && !IsDigit(sep)
    ensures sep !in s
  {
    forall k | 0 <= k < |s|
      ensures s[k] != sep
    {
      assert IsDigit(s[k]);
    }
  }

  /** Joining digit strings leaves only digits and separators. */
  lemma {:induction false} JoinedDigits(parts: seq<string>, sep: char)
    requires |parts| >= 1
    requires forall i :: 0 <= i < |parts| ==> AllDigits(parts[i])
    ensures forall k :: 0 <= k < |Join(parts, sep)| ==> IsDigit(Join(parts, sep)[k]) || Join(parts, sep)[k] == sep
  {
    if |parts| > 1 {
      JoinedDigits(parts[1..], sep);
      var tail := Join(parts[1..], sep);
      assert Join(parts, sep) == parts[0] + [sep] + tail;
      forall k | 0 <= k < |Join(parts, sep)|
        ensures IsDigit(Join(parts, sep)[k]) || Join(parts, sep)[k] == sep
      {
        if k < |parts[0]| {
          assert Join(parts, sep)[k] == parts[0][k];
        } else if k > |parts[0]| {
          assert Join(parts, sep)[k] == tail[k - |parts[0]| - 1];
        }
      }
    }
  }

  predicate StartsWith(s: string, w: string)
  {
    |w| <= |s| && s[..|w|] == w
  }

  /** A string starts with u + v when it starts with u and the rest starts with v. */
  lemma StartsWithConcat(s: string, u: string, v: string)
    ensures StartsWith(s, u + v) <==> StartsWith(s, u) && StartsWith(s[|u|..], v)
  {
    if StartsWith(s, u) && StartsWith(s[|u|..], v) {
      assert s[..|u + v|] == s[..|u|] + s[|u|..][..|v|];
    }
    if StartsWith(s, u + v) {
      assert s[..|u|] == (u + v)[..|u|];
      assert s[|u|..][..|v|] == (u + v)[|u|..];
    }
  }

  /**
   * For s = p, sep, rest with no separator in p: s starts with w followed by
   * the separator (w itself free of it) exactly when w is p.
   */
  lemma FirstPieceIs(s: string, p: string, sep: char, rest: string, w: string)
    requires s == p + [sep] + rest && sep !in p && sep !in w
    ensures StartsWith(s, w + [sep]) <==> p == w
  {
    if StartsWith(s, w + [sep]) {
      assert s[|w|] == sep && s[|p|] == sep;
      assert forall k :: 0 <= k < |p| ==> s[k] == p[k] != sep;
      assert forall k :: 0 <= k < |w| ==> s[k] == w[k] != sep;
      assert p == s[..|p|] == w;
    }
    if p == w {
      assert s[..|w| + 1] == w + [sep];
    }
  }

  /** The same for the first two pieces: s starts with "w, sep, v, sep" exactly when they are w and v. */
  lemma TwoPiecesAre(s: string, p: string, q: string, sep: char, rest: string, w: string, v: string)
    requires s == p + [sep] + (q + [sep] + rest)
    requires sep !in p && sep !in q && sep !in w && sep !in v
    ensures StartsWith(s, w + [sep] + v + [sep]) <==> p == w && q == v
  {
    var r1 := q + [sep] + rest;
    FirstPieceIs(s, p, sep, r1, w);
    FirstPieceIs(r1, q, sep, rest, v);
    assert w + [sep] + v + [sep] == (w + [sep]) + (v + [sep]);
    StartsWithConcat(s, w + [sep], v + [sep]);
    if p == w {
      assert s[|w + [sep]|..] == r1;
    }
  }
}
