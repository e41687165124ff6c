/**
 * The parts of Python's `str` that the modelled code relies on, over ASCII:
 * character classes, `lower`, `strip`, `in` (substring), `startswith`, negative
 * slicing, `str(int)` and `split()`.
 */
module Strings {

  /** `c.isspace()` for the ASCII whitespace characters: tab, newline, vertical tab, form feed,
      carriage return, the four separator controls 0x1c-0x1f and space. */
  predicate IsSpace(c: char) {
    c == ' ' || (9 <= c as int <= 13) || (28 <= c as int <= 31)
  }

  predicate IsUpper(c: char) { 'A' <= c <= 'Z' }

  predicate IsLower(c: char) { 'a' <= c <= 'z' }

  predicate IsDigit(c: char) { '0' <= c <= '9' }

  /** `c.isalnum()` for one ASCII character. */
  predicate IsAlnumChar(c: char) { IsUpper(c) || IsLower(c) || IsDigit(c) }

  /** `s.isalnum()`: true iff `s` is non-empty and every character is a letter or a digit. */
  predicate IsAlnum(s: string) {
    |s| > 0 && forall i :: 0 <= i < |s| ==> IsAlnumChar(s[i])
  }

  /** `any(x.isupper() for x in s)`. */
  predicate HasUpper(s: string) {
    exists i :: 0 <= i < |s| && IsUpper(s[i])
  }

  function LowerChar(c: char): (r: char)
    ensures !IsUpper(r)
    ensures IsUpper(c) ==> IsLower(r)
    ensures !IsUpper(c) ==> r == c
  {
    if IsUpper(c) then (c as int + 32) as char else c
  }

  /** `s.lower()`. */
  function Lower(s: string): (r: string)
    ensures |r| == |s|
    ensures forall i :: 0 <= i < |s| ==> r[i] == LowerChar(s[i])
    ensures !HasUpper(r)
  {
    seq(|s|, i requires 0 <= i < |s| => LowerChar(s[i]))
  }

  predicate IsPrefix(p: string, s: string) {
    |p| <= |s| && s[..|p|] == p
  }

  /** `sub in s`, the substring test. */
  predicate Contains(s: string, sub: string)
    decreases |s|
  {
    IsPrefix(sub, s) || (|s| > 0 && Contains(s[1..], sub))
  }

  /** `s.startswith(p)`. */
  predicate StartsWith(s: string, p: string) {
    IsPrefix(p, s)
  }

  lemma {:induction false} ContainsExtendRight(a: string, b: string, sub: string)
    requires Contains(a, sub)
    ensures Contains(a + b, sub)
    decreases |a|
  {
    if IsPrefix(sub, a) {
      assert (a + b)[..|sub|] == a[..|sub|];
    } else {
      ContainsExtendRight(a[1..], b, sub);
      assert (a + b)[1..] == a[1..] + b;
    }
  }

  lemma {:induction false} ContainsExtendLeft(a: string, b: string, sub: string)
    requires Contains(b, sub)
    ensures Contains(a + b, sub)
    decreases |a|
  {
    if a != [] {
      ContainsExtendLeft(a[1..], b, sub);
      assert (a + b)[1..] == a[1..] + b;
    } else {
      assert a + b == b;
    }
  }

  lemma {:induction false} ContainsBound(s: string, sub: string)
    requires Contains(s, sub)
    ensures |sub| <= |s|
    decreases |s|
  {
    if !IsPrefix(sub, s) {
      ContainsBound(s[1..], sub);
    }
  }

  /** `s.lstrip()`. */
  function LStrip(s: string): string
    decreases |s|
  {
    if |s| > 0 && IsSpace(s[0]) then LStrip(s[1..]) else s
  }

  /** `s.rstrip()`. */
  function RStrip(s: string): string
    decreases |s|
  {
    if |s| > 0 && IsSpace(s[|s| - 1]) then RStrip(s[..|s| - 1]) else s
  }

  /** `s.strip()`. */
  function Strip(s: string): string {
    RStrip(LStrip(s))
  }

  /** `lstrip` drops a prefix of whitespace, and what is left does not start with whitespace. */
  lemma {:induction false} LStripSpec(s: string)
    ensures |LStrip(s)| <= |s| && LStrip(s) == s[|s| - |LStrip(s)|..]
    ensures forall i :: 0 <= i < |s| - |LStrip(s)| ==> IsSpace(s[i])
    ensures LStrip(s) == [] || !IsSpace(LStrip(s)[0])
    decreases |s|
  {
    if |s| > 0 && IsSpace(s[0]) {
      LStripSpec(s[1..]);
      var r := LStrip(s[1..]);
      assert s[1..][|s[1..]| - |r|..] == s[|s| - |r|..];
    }
  }

  /** `rstrip` drops a suffix of whitespace, and what is left does not end with whitespace. */
  lemma {:induction false} RStripSpec(s: string)
    ensures |RStrip(s)| <= |s| && RStrip(s) == s[..|RStrip(s)|]
    ensures forall i :: |RStrip(s)| <= i < |s| ==> IsSpace(s[i])
    ensures RStrip(s) == [] || !IsSpace(RStrip(s)[|RStrip(s)| - 1])
    decreases |s|
  {
    if |s| > 0 && IsSpace(s[|s| - 1]) {
      RStripSpec(s[..|s| - 1]);
      var r := RStrip(s[..|s| - 1]);
      assert s[..|s| - 1][..|r|] == s[..|r|];
    }
  }

  /**
   * `strip` leaves the slice `s[k..k + |Strip(s)|]` of `s`, with only whitespace
   * before and after it, and that slice neither starts nor ends with whitespace.
   */
  lemma StripSpec(s: string)
    ensures var k := |s| - |LStrip(s)|;
      && 0 <= k && k + |Strip(s)| <= |s|
      && Strip(s) == s[k..k + |Strip(s)|]
      && (forall i :: 0 <= i < k ==> IsSpace(s[i]))
      && (forall i :: k + |Strip(s)| <= i < |s| ==> IsSpace(s[i]))
    ensures Strip(s) == [] || (!IsSpace(Strip(s)[0]) && !IsSpace(Strip(s)[|Strip(s)| - 1]))
  {
    LStripSpec(s);
    var l := LStrip(s);
    RStripSpec(l);
    var k := |s| - |l|;
    var r := Strip(s);
    assert r == RStrip(l);
    assert l == s[k..];
    assert r == l[..|r|];
    assert r == s[k..k + |r|];
    assert forall i :: k + |r| <= i < |s| ==> s[i] == l[i - k];
    if r != [] {
      assert r[0] == l[0];
    }
  }

  /** `s.strip(c)` for a single character `c`, as in `value.strip("'")`. */
  function StripChar(s: string, c: char): (r: string)
    ensures |r| <= |s|
    ensures r == [] || (r[0] != c && r[|r| - 1] != c)
    decreases |s|
  {
    if |s| > 0 && s[0] == c then StripChar(s[1..], c)
    else if |s| > 0 && s[|s| - 1] == c then StripChar(s[..|s| - 1], c)
    else s
  }

  /** `value.strip("'")`, which the source applies to most configuration values. */
  function StripQuotes(s: string): string {
    StripChar(s, '\'')
  }

  /** `" " * n`, which is empty for `n <= 0`. */
  function Spaces(n: int): (r: string)
    ensures |r| == if n <= 0 then 0 else n
    ensures forall i :: 0 <= i < |r| ==> r[i] == ' '
  {
    if n <= 0 then "" else seq(n, _ => ' ')
  }

  /** `s[:-k]`: all but the last `k` characters, or nothing when `s` is shorter than `k`. */
  function DropLast(s: string, k: nat): (r: string)
    ensures |r| == if |s| >= k then |s| - k else 0
    ensures r == s[..|r|]
  {
    if |s| >= k then s[..|s| - k] else ""
  }

  function DigitChar(d: nat): (c: char)
    requires d < 10
    ensures IsDigit(c) && c as int - '0' as int == d
  {
    ('0' as int + d) as char
  }

  /** `str(n)` for a natural number. */
  function NatToString(n: nat): (s: string)
    ensures |s| > 0
    ensures forall i :: 0 <= i < |s| ==> IsDigit(s[i])
    ensures n >= 10 ==> |s| >= 2
    decreases n
  {
    if n < 10 then [DigitChar(n)] else NatToString(n / 10) + [DigitChar(n % 10)]
  }

  /** `str(n)` for an integer: a minus sign, then the digits of its magnitude. */
  function IntToString(n: int): (s: string)
    ensures |s| > 0
    ensures (s[0] == '-') <==> n < 0
  {
    if n < 0 then "-" + NatToString(-n) else NatToString(n)
  }

  /** Distinct numbers have distinct decimal representations. */
  lemma {:induction false} NatToStringInjective(a: nat, b: nat)
    requires NatToString(a) == NatToString(b)
    ensures a == b
    decreases a
  {
    var sa, sb := NatToString(a), NatToString(b);
    if a < 10 && b < 10 {
      assert sa[0] == DigitChar(a) && sb[0] == DigitChar(b);
    } else if a < 10 || b < 10 {
      assert false;
    } else {
      assert sa[|sa| - 1] == DigitChar(a % 10);
      assert sb[|sb| - 1] == DigitChar(b % 10);
      assert NatToString(a / 10) == sa[..|sa| - 1] == sb[..|sb| - 1] == NatToString(b / 10);
      NatToStringInjective(a / 10, b / 10);
    }
  }

  /** Distinct integers have distinct `str` renderings. */
  lemma IntToStringInjective(a: int, b: int)
    requires IntToString(a) == IntToString(b)
    ensures a == b
  {
    if a < 0 && b < 0 {
      assert NatToString(-a) == IntToString(a)[1..] == IntToString(b)[1..] == NatToString(-b);
      NatToStringInjective(-a, -b);
    } else if a >= 0 && b >= 0 {
      NatToStringInjective(a, b);
    }
  }

  /** Equal strings with a common prefix have equal remainders. */
  lemma CancelPrefix(p: string, x: string, y: string)
    requires p + x == p + y
    ensures x == y
  {
    assert x == (p + x)[|p|..];
    assert y == (p + y)[|p|..];
  }

  /** Equal strings with suffixes of one length have equal prefixes and equal suffixes. */
  lemma CancelSuffix(a1: string, b1: string, a2: string, b2: string)
    requires |b1| == |b2| && a1 + b1 == a2 + b2
    ensures a1 == a2 && b1 == b2
  {
    assert |a1| == |a2|;
    assert a1 == (a1 + b1)[..|a1|] && a2 == (a2 + b2)[..|a2|];
    assert b1 == (a1 + b1)[|a1|..] && b2 == (a2 + b2)[|a2|..];
  }

  /** `k` zero digits. */
  function Zeros(k: nat): (r: string)
    ensures |r| == k
  {
    if k == 0 then "" else Zeros(k - 1) + "0"
  }

  /** Zero-padded rendering (a `02d` format): `str(n)` left-padded with zeros to `width` characters. */
  function PadNat(n: nat, width: nat): (s: string)
    ensures |s| >= width
    ensures |NatToString(n)| <= width ==> |s| == width
  {
    var digits := NatToString(n);
    (if |digits| < width then Zeros(width - |digits|) else "") + digits
  }

  /** The number a string of decimal digits stands for. */
  function DecimalValue(s: string): int
    decreases |s|
  {
    if s == [] then 0 else DecimalValue(s[..|s| - 1]) * 10 + (s[|s| - 1] as int - '0' as int)
  }

  /** Reading back `str(n)` gives `n`. */
  lemma {:induction false} NatToStringValue(n: nat)
    ensures DecimalValue(NatToString(n)) == n
    decreases n
  {
    var s := NatToString(n);
    if n < 10 {
      assert s[..0] == [];
    } else {
      assert s[..|s| - 1] == NatToString(n / 10);
      NatToStringValue(n / 10);
    }
  }

  /** Leading zeros do not change the value. */
  lemma {:induction false} LeadingZerosValue(k: nat, s: string)
    ensures DecimalValue(Zeros(k) + s) == DecimalValue(s)
    decreases |s| + k
  {
    if s == [] {
      assert Zeros(k) + s == Zeros(k);
      if k > 0 {
        assert Zeros(k)[..k - 1] == Zeros(k - 1);
        LeadingZerosValue(k - 1, s);
        assert Zeros(k - 1) + s == Zeros(k - 1);
      }
    } else {
      var t := Zeros(k) + s;
      assert t[..|t| - 1] == Zeros(k) + s[..|s| - 1];
      assert t[|t| - 1] == s[|s| - 1];
      LeadingZerosValue(k, s[..|s| - 1]);
    }
  }

  /** Reading back a zero-padded rendering gives the number: padding to one width is injective. */
  lemma PadNatValue(n: nat, width: nat)
    ensures DecimalValue(PadNat(n, width)) == n
  {
    var digits := NatToString(n);
    NatToStringValue(n);
    if |digits| < width {
      LeadingZerosValue(width - |digits|, digits);
    } else {
      assert PadNat(n, width) == digits;
    }
  }

  function Pow10(k: nat): nat {
    if k == 0 then 1 else 10 * Pow10(k - 1)
  }

  /** A number below `10^w` has at most `w` digits. */
  lemma {:induction false} NatToStringLength(n: nat, w: nat)
    requires 1 <= w && n < Pow10(w)
    ensures |NatToString(n)| <= w
    decreases w
  {
    if n >= 10 {
      assert Pow10(w) == 10 * Pow10(w - 1);
      NatToStringLength(n / 10, w - 1);
    }
  }

  // --- str.split() ---------------------------------------------------------

  /** A word of `str.split()`: non-empty and free of whitespace. */
  predicate IsToken(t: string) {
    |t| > 0 && forall i :: 0 <= i < |t| ==> !IsSpace(t[i])
  }

  /** Length of the leading run of non-whitespace characters. */
  function TokenEnd(s: string): (k: nat)
    ensures k <= |s|
    ensures forall i :: 0 <= i < k ==> !IsSpace(s[i])
    ensures k < |s| ==> IsSpace(s[k])
    decreases |s|
  {
    if s == [] || IsSpace(s[0]) then 0 else 1 + TokenEnd(s[1..])
  }

  /** `s.split()`: the maximal runs of non-whitespace characters, in order. */
  function Words(s: string): (ws: seq<string>)
    ensures forall i :: 0 <= i < |ws| ==> IsToken(ws[i])
    decreases |s|
  {
    if s == [] then []
    else if IsSpace(s[0]) then Words(s[1..])
    else
      var k := TokenEnd(s);
      [s[..k]] + Words(s[k..])
  }

  /** `" ".join(ts)`. */
  function JoinSpaced(ts: seq<string>): string
    decreases |ts|
  {
    if |ts| == 0 then ""
    else if |ts| == 1 then ts[0]
    else ts[0] + " " + JoinSpaced(ts[1..])
  }

  /** A word followed by whitespace or nothing ends where the word ends. */
  lemma {:induction false} TokenEndOfToken(t: string, rest: string)
    requires IsToken(t)
    requires rest == [] || IsSpace(rest[0])
    ensures TokenEnd(t + rest) == |t|
    decreases |t|
  {
    assert (t + rest)[0] == t[0];
    assert (t + rest)[1..] == t[1..] + rest;
    if |t| == 1 {
      assert t[1..] + rest == rest;
    } else {
      TokenEndOfToken(t[1..], rest);
    }
  }

  lemma WordsAtSpace(s: string)
    requires s != [] && IsSpace(s[0])
    ensures Words(s) == Words(s[1..])
  {
  }

  lemma WordsOfToken(t: string)
    requires IsToken(t)
    ensures Words(t) == [t]
  {
    TokenEndOfToken(t, []);
    assert t + [] == t;
    assert t[..|t|] == t;
    assert t[|t|..] == [];
  }

  /** Each of a list of words splits as itself. */
  lemma WordsOfTokens(ts: seq<string>)
    requires forall i :: 0 <= i < |ts| ==> IsToken(ts[i])
    ensures forall i :: 0 <= i < |ts| ==> Words(ts[i]) == [ts[i]]
  {
    forall i | 0 <= i < |ts|
      ensures Words(ts[i]) == [ts[i]]
    {
      WordsOfToken(ts[i]);
    }
  }

  /** A word followed by a space splits off as the first word. */
  lemma WordsCons(t: string, rest: string)
    requires IsToken(t)
    ensures Words(t + " " + rest) == [t] + Words(rest)
  {
    var s := t + (" " + rest);
    assert t + " " + rest == s;
    TokenEndOfToken(t, " " + rest);
    assert s[0] == t[0];
    assert s[..|t|] == t;
    assert s[|t|..] == " " + rest;
    WordsAtSpace(" " + rest);
    assert (" " + rest)[1..] == rest;
  }

  /** Round trip: splitting a space-joined list of words gives the words back. */
  lemma {:induction false} WordsJoinSpaced(ts: seq<string>)
    requires forall i :: 0 <= i < |ts| ==> IsToken(ts[i])
    ensures Words(JoinSpaced(ts)) == ts
    decreases |ts|
  {
    if |ts| == 1 {
      WordsOfToken(ts[0]);
    } else if |ts| > 1 {
      WordsJoinSpaced(ts[1..]);
      WordsCons(ts[0], JoinSpaced(ts[1..]));
      assert ts == [ts[0]] + ts[1..];
    }
  }

  /** The leading word of `a + c` is that of `a` when it ends inside `a` or `c` starts with whitespace. */
  lemma {:induction false} TokenEndPrefix(a: string, c: string)
    requires TokenEnd(a) < |a| || (c != [] && IsSpace(c[0]))
    ensures TokenEnd(a + c) == TokenEnd(a)
    decreases |a|
  {
    if a == [] {
      assert a + c == c;
    } else if IsSpace(a[0]) {
      assert (a + c)[0] == a[0];
    } else {
      assert (a + c)[0] == a[0];
      assert (a + c)[1..] == a[1..] + c;
      TokenEndPrefix(a[1..], c);
    }
  }

  lemma WordsAtWord(s: string)
    requires s != [] && !IsSpace(s[0])
    ensures Words(s) == [s[..TokenEnd(s)]] + Words(s[TokenEnd(s)..])
  {
  }

  lemma WordsSpaceConcatEmpty(b: string)
    ensures Words([] + " " + b) == Words(b)
  {
    var s := [] + " " + b;
    assert s == " " + b;
    WordsAtSpace(s);
    assert s[1..] == b;
  }

  /** Splitting two strings joined by a space gives the words of each, in order. */
  lemma {:induction false} WordsSpaceConcat(a: string, b: string)
    ensures Words(a + " " + b) == Words(a) + Words(b)
    decreases |a|
  {
    if a == [] {
      WordsSpaceConcatEmpty(b);
    } else if IsSpace(a[0]) {
      WordsSpaceConcat(a[1..], b);
      WordsSpaceConcatSpace(a, b);
    } else {
      WordsSpaceConcat(a[TokenEnd(a)..], b);
      WordsSpaceConcatWord(a, b);
    }
  }

  lemma WordsSpaceConcatSpace(a: string, b: string)
    requires a != [] && IsSpace(a[0])
    requires Words(a[1..] + " " + b) == Words(a[1..]) + Words(b)
    ensures Words(a + " " + b) == Words(a) + Words(b)
  {
    var s := a + " " + b;
    assert s[0] == a[0];
    WordsAtSpace(s);
    WordsAtSpace(a);
    assert s[1..] == a[1..] + " " + b;
  }

  lemma SlicesOfConcat(a: string, c: string, k: nat)
    requires k <= |a|
    ensures (a + c)[..k] == a[..k]
    ensures (a + c)[k..] == a[k..] + c
  {
  }

  lemma WordsSpaceConcatWord(a: string, b: string)
    requires a != [] && !IsSpace(a[0])
    requires Words(a[TokenEnd(a)..] + " " + b) == Words(a[TokenEnd(a)..]) + Words(b)
    ensures Words(a + " " + b) == Words(a) + Words(b)
  {
    var k := TokenEnd(a);
    var c := " " + b;
    var s := a + c;
    assert a + " " + b == s;
    TokenEndPrefix(a, c);
    SlicesOfConcat(a, c, k);
    assert s[0] == a[0];
    WordsAtWord(s);
    WordsAtWord(a);
    calc {
      Words(s);
      [s[..k]] + Words(s[k..]);
      [a[..k]] + Words(a[k..] + c);
      { assert a[k..] + c == a[k..] + " " + b; }
      [a[..k]] + (Words(a[k..]) + Words(b));
      ([a[..k]] + Words(a[k..])) + Words(b);
    }
  }

  /** Two words written together form one word. */
  lemma TokenConcat(a: string, b: string)
    requires IsToken(a) && IsToken(b)
    ensures IsToken(a + b)
  {
    assert forall i :: 0 <= i < |a + b| ==> (a + b)[i] == if i < |a| then a[i] else b[i - |a|];
  }

  /** `str(n)` is one word. */
  lemma IntToStringIsToken(n: int)
    ensures IsToken(IntToString(n))
  {
    var s := IntToString(n);
    if n < 0 {
      assert forall i :: 1 <= i < |s| ==> s[i] == NatToString(-n)[i - 1];
    }
  }
}
