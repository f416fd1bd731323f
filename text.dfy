/**
 * The Python string operations the client relies on: `rstrip`, `lstrip` and
 * `strip` over a set of characters, the blank test `not s or not s.strip()`,
 * and `str(n)` for a non-negative integer together with its inverse.
 */
module Text {

  /** The characters for which Python's `str.isspace()` holds; `str.strip()`
      with no argument removes exactly these. */
  const Whitespace: set<char> := {
    '\t', '\n', '\U{000B}', '\U{000C}', '\r',
    '\U{001C}', '\U{001D}', '\U{001E}', '\U{001F}', ' ',
    '\U{0085}', '\U{00A0}', '\U{1680}',
    '\U{2000}', '\U{2001}', '\U{2002}', '\U{2003}', '\U{2004}', '\U{2005}',
    '\U{2006}', '\U{2007}', '\U{2008}', '\U{2009}', '\U{200A}',
    '\U{2028}', '\U{2029}', '\U{202F}', '\U{205F}', '\U{3000}'
  }

  predicate IsWhitespace(c: char) {
    c in Whitespace
  }

  /** `s.rstrip(cs)`: drops trailing characters of `cs`, so what it keeps
      does not end in one. */
  function RStrip(s: string, cs: set<char>): (r: string)
    ensures |r| <= |s|
    ensures r == [] || r[|r| - 1] !in cs
  {
    if s == [] || s[|s| - 1] !in cs then s else RStrip(s[..|s| - 1], cs)
  }

  /** `s.lstrip(cs)`: drops leading characters of `cs`, so what it keeps
      does not start with one. */
  function LStrip(s: string, cs: set<char>): (r: string)
    ensures |r| <= |s|
    ensures r == [] || r[0] !in cs
  {
    if s == [] || s[0] !in cs then s else LStrip(s[1..], cs)
  }

  /** `RStrip` keeps a prefix of `s`. */
  lemma {:induction false} RStripPrefix(s: string, cs: set<char>)
    ensures RStrip(s, cs) <= s
  {
    if s != [] && s[|s| - 1] in cs {
      RStripPrefix(s[..|s| - 1], cs);
    }
  }

  /** Everything `RStrip` drops is in `cs`. */
  lemma {:induction false} RStripDropped(s: string, cs: set<char>)
    ensures forall i :: |RStrip(s, cs)| <= i < |s| ==> s[i] in cs
  {
    if s != [] && s[|s| - 1] in cs {
      RStripDropped(s[..|s| - 1], cs);
    }
  }

  /** `LStrip` keeps a suffix of `s`. */
  lemma {:induction false} LStripSuffix(s: string, cs: set<char>)
    ensures |LStrip(s, cs)| <= |s| && LStrip(s, cs) == s[|s| - |LStrip(s, cs)|..]
  {
    if s != [] && s[0] in cs {
      var r := LStrip(s[1..], cs);
      LStripSuffix(s[1..], cs);
      forall i | 0 <= i < |r| ensures r[i] == s[|s| - |r| + i] {
        assert r[i] == s[1..][|s| - 1 - |r| + i];
      }
    }
  }

  /** Everything `LStrip` drops is in `cs`. */
  lemma {:induction false} LStripDropped(s: string, cs: set<char>)
    ensures forall i :: 0 <= i < |s| - |LStrip(s, cs)| ==> s[i] in cs
  {
    if s != [] && s[0] in cs {
      var r := LStrip(s[1..], cs);
      LStripDropped(s[1..], cs);
      forall i | 0 <= i < |s| - |r| ensures s[i] in cs {
        if i > 0 {
          assert s[i] == s[1..][i - 1];
        }
      }
    }
  }

  /** Extra trailing characters of `cs` are stripped away with the rest. */
  lemma {:induction false} RStripAppend(s: string, t: string, cs: set<char>)
    requires forall i :: 0 <= i < |t| ==> t[i] in cs
    ensures RStrip(s + t, cs) == RStrip(s, cs)
  {
    if t == [] {
      assert s + t == s;
    } else {
      var u := s + t;
      assert u[|u| - 1] == t[|t| - 1];
      assert u[..|u| - 1] == s + t[..|t| - 1];
      RStripAppend(s, t[..|t| - 1], cs);
    }
  }

  /** Extra leading characters of `cs` are stripped away with the rest. */
  lemma {:induction false} LStripPrepend(t: string, s: string, cs: set<char>)
    requires forall i :: 0 <= i < |t| ==> t[i] in cs
    ensures LStrip(t + s, cs) == LStrip(s, cs)
  {
    if t == [] {
      assert t + s == s;
    } else {
      var u := t + s;
      assert u[0] == t[0];
      assert u[1..] == t[1..] + s;
      LStripPrepend(t[1..], s, cs);
    }
  }

  /** `s.strip(cs)`: strips both ends, so what it keeps neither starts nor
      ends with a character of `cs`. */
  function Strip(s: string, cs: set<char>): (r: string)
    ensures |r| <= |s|
    ensures r == [] || (r[0] !in cs && r[|r| - 1] !in cs)
  {
    var t := RStrip(s, cs);
    LStripSuffix(t, cs);
    var r := LStrip(t, cs);
    assert r != [] ==> r[|r| - 1] == t[|t| - 1];
    r
  }

  /** The guard `not s or not s.strip()` of the convenience methods: it
      holds exactly when every character is whitespace, in particular for
      the empty string. */
  predicate IsBlank(s: string)
    ensures IsBlank(s) <==> forall i :: 0 <= i < |s| ==> IsWhitespace(s[i])
  {
    StripEmptyIff(s, Whitespace);
    s == [] || Strip(s, Whitespace) == []
  }

  /** Stripping leaves nothing exactly when every character is in `cs`. */
  lemma StripEmptyIff(s: string, cs: set<char>)
    ensures Strip(s, cs) == [] <==> forall i :: 0 <= i < |s| ==> s[i] in cs
  {
    var r := RStrip(s, cs);
    RStripPrefix(s, cs);
    RStripDropped(s, cs);
    LStripSuffix(r, cs);
    LStripDropped(r, cs);
  }

  predicate IsDigit(c: char) {
    '0' <= c <= '9'
  }

  function DigitValue(c: char): (d: nat)
    requires IsDigit(c)
    ensures d < 10
  {
    c as int - '0' as int
  }

  function DigitChar(d: nat): (c: char)
    requires d < 10
    ensures IsDigit(c) && DigitValue(c) == d
  {
    ('0' as int + d) as char
  }

  /** `str(n)` for a non-negative integer: its decimal digits, most
      significant first, with no leading zero. */
  function Decimal(n: nat): (r: string)
    ensures |r| > 0
    ensures forall i :: 0 <= i < |r| ==> IsDigit(r[i])
    ensures (r[0] == '0') == (n == 0)
  {
    if n < 10 then [DigitChar(n)] else Decimal(n / 10) + [DigitChar(n % 10)]
  }

  /** The value of a string of decimal digits (`int(s)` on such a string). */
  function DigitsValue(s: string): nat
    requires forall i :: 0 <= i < |s| ==> IsDigit(s[i])
  {
    if s == [] then 0 else DigitsValue(s[..|s| - 1]) * 10 + DigitValue(s[|s| - 1])
  }

  /** Reading back the digits `str(n)` writes gives `n`. */
  lemma {:induction false} DecimalRoundTrip(n: nat)
    ensures DigitsValue(Decimal(n)) == n
  {
    if n >= 10 {
      var r := Decimal(n);
      DecimalRoundTrip(n / 10);
      assert r[..|r| - 1] == Decimal(n / 10);
    }
  }

  /** Digits written without a leading zero are what `str` writes for
      their value. */
  lemma {:induction false} DecimalOfDigits(s: string)
    requires |s| > 0 && forall i :: 0 <= i < |s| ==> IsDigit(s[i])
    requires |s| == 1 || s[0] != '0'
    ensures Decimal(DigitsValue(s)) == s
  {
    var n := |s| - 1;
    var c := s[n];
    assert DigitChar(DigitValue(c)) == c;
    if n > 0 {
      var t := s[..n];
      DecimalOfDigits(t);
      var v := DigitsValue(t);
      assert Decimal(v)[0] == s[0];
      assert v != 0;
      assert (v * 10 + DigitValue(c)) / 10 == v && (v * 10 + DigitValue(c)) % 10 == DigitValue(c);
      assert s == t + [c];
    }
  }

  /** The length of the longest prefix of `s` made of decimal digits. */
  function DigitRun(s: string): (k: nat)
    ensures k <= |s|
    ensures forall i :: 0 <= i < k ==> IsDigit(s[i])
    ensures k == |s| || !IsDigit(s[k])
  {
    if s == [] || !IsDigit(s[0]) then 0 else 1 + DigitRun(s[1..])
  }
}
