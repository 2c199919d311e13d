/**
 * Character-level helpers shared by the editor model: JavaScript's rendering of an
 * integer inside a template literal (`${n}`), `parseInt(s, 10)`, and joining or
 * splitting a string at a separator character.
 */
module Text {
  import opened Wrappers

  predicate IsDigit(c: char) { '0' <= c <= '9' }

  function DigitChar(d: nat): (c: char)
    requires d < 10
    ensures IsDigit(c) && c as int - '0' as int == d
  {
    ('0' as int + d) as char
  }

  function DigitValue(c: char): (d: nat)
    requires IsDigit(c)
    ensures d < 10 && DigitChar(d) == c
  {
    c as int - '0' as int
  }

  /** Decimal digits of a natural number, most significant first, no leading zeros. */
  function NatToString(n: nat): (s: string)
    ensures |s| > 0
    ensures forall i :: 0 <= i < |s| ==> IsDigit(s[i])
    ensures |s| > 1 ==> s[0] != '0'
  {
    if n < 10 then [DigitChar(n)] else NatToString(n / 10) + [DigitChar(n % 10)]
  }

  /** How a JavaScript integer-valued number prints in a template literal. */
  function IntToString(n: int): (s: string)
    ensures |s| > 0
    ensures n < 0 <==> s[0] == '-'
  {
    if n < 0 then "-" + NatToString(-n) else NatToString(n)
  }

  /** The number a string of decimal digits denotes. */
  function DigitsValue(s: string): nat
    requires forall i :: 0 <= i < |s| ==> IsDigit(s[i])
  {
    if |s| == 0 then 0 else DigitsValue(s[..|s| - 1]) * 10 + DigitValue(s[|s| - 1])
  }

  /** The longest prefix of `s` made of decimal digits. */
  function LeadingDigits(s: string): (p: string)
    ensures |p| <= |s| && p == s[..|p|]
    ensures forall i :: 0 <= i < |p| ==> IsDigit(s[i])
    ensures |p| < |s| ==> !IsDigit(s[|p|])
  {
    if |s| > 0 && IsDigit(s[0]) then [s[0]] + LeadingDigits(s[1..]) else []
  }

  /** The characters `parseInt` skips before the number (ECMAScript white space and line terminators). */
  predicate IsJsWhitespace(c: char)
  {
    c == '\t' || c == '\U{B}' || c == '\U{C}' || c == ' ' || c == '\U{A0}' || c == '\U{1680}'
    || ('\U{2000}' <= c <= '\U{200A}') || c == '\U{202F}' || c == '\U{205F}' || c == '\U{3000}'
    || c == '\U{FEFF}' || c == '\n' || c == '\r' || c == '\U{2028}' || c == '\U{2029}'
  }

  function TrimStart(s: string): (t: string)
    ensures |t| <= |s| && t == s[|s| - |t|..]
    ensures |t| > 0 ==> !IsJsWhitespace(t[0])
    ensures forall i :: 0 <= i < |s| - |t| ==> IsJsWhitespace(s[i])
  {
    if |s| > 0 && IsJsWhitespace(s[0]) then TrimStart(s[1..]) else s
  }

  /** The text after an optional leading sign, and whether that sign was `-`. */
  function SplitSign(s: string): (r: (bool, string))
    ensures r.0 <==> |s| > 0 && s[0] == '-'
    ensures r.1 == if |s| > 0 && (s[0] == '-' || s[0] == '+') then s[1..] else s
  {
    if |s| > 0 && s[0] == '-' then (true, s[1..])
    else if |s| > 0 && s[0] == '+' then (false, s[1..])
    else (false, s)
  }

  /**
   * `parseInt(s, 10)` on the integers: skip white space, read an optional sign and the
   * longest run of decimal digits; `None` stands for `NaN` (no digit at all).
   */
  function ParseInt(s: string): (r: Option<int>)
    ensures r.None? <==> LeadingDigits(SplitSign(TrimStart(s)).1) == []
  {
    var (negative, rest) := SplitSign(TrimStart(s));
    var digits := LeadingDigits(rest);
    var magnitude: int := DigitsValue(digits);
    if digits == [] then None
    else if negative then Some(-magnitude)
    else Some(magnitude)
  }

  /** `parseInt(s, 10) || 0`: a string that does not start with a number reads as 0. */
  function ParseIntOrZero(s: string): (n: int)
    ensures ParseInt(s).Some? ==> n == ParseInt(s).value
    ensures ParseInt(s).None? ==> n == 0
  {
    match ParseInt(s)
    case Some(v) => v
    case None => 0
  }

  lemma {:induction false} AllDigitsLeading(s: string)
    requires forall i :: 0 <= i < |s| ==> IsDigit(s[i])
    ensures LeadingDigits(s) == s
  {
    if |s| > 0 {
      AllDigitsLeading(s[1..]);
    }
  }

  lemma {:induction false} NatToStringValue(n: nat)
    ensures DigitsValue(NatToString(n)) == n
  {
    if n >= 10 {
      NatToStringValue(n / 10);
      var s := NatToString(n);
      assert s[..|s| - 1] == NatToString(n / 10);
    }
  }

  /** Printing an integer and reading it back with `parseInt` gives the same integer. */
  lemma ParseIntOfIntToString(n: int)
    ensures ParseInt(IntToString(n)) == Some(n)
    ensures ParseIntOrZero(IntToString(n)) == n
  {
    var m: nat := if n < 0 then -n else n;
    var digits := NatToString(m);
    var s := IntToString(n);
    assert !IsJsWhitespace(s[0]);
    assert TrimStart(s) == s;
    AllDigitsLeading(digits);
    NatToStringValue(m);
    if n < 0 {
      assert s == "-" + digits;
      assert s[1..] == digits;
      assert SplitSign(s) == (true, digits);
    } else {
      assert s == digits;
      assert SplitSign(s) == (false, digits);
    }
  }

  /** `parts` separated by `sep`, as `Array.prototype.join(sep)` does. */
  function Join(parts: seq<string>, sep: char): (s: string)
    ensures |parts| == 1 ==> s == parts[0]
  {
    if |parts| == 0 then ""
    else if |parts| == 1 then parts[0]
    else parts[0] + [sep] + Join(parts[1..], sep)
  }

  /** The pieces of `s` between occurrences of `sep`, as `String.prototype.split(sep)` does. */
  function Split(s: string, sep: char): (parts: seq<string>)
    ensures |parts| > 0
  {
    if |s| == 0 then [""]
    else
      var rest := Split(s[1..], sep);
      if s[0] == sep then [""] + rest else [[s[0]] + rest[0]] + rest[1..]
  }

  lemma {:induction false} SplitPrefix(p: string, sep: char, tail: string)
    requires sep !in p
    ensures Split(p + [sep] + tail, sep) == [p] + Split(tail, sep)
  {
    if |p| == 0 {
      assert p + [sep] + tail == [sep] + tail;
      assert ([sep] + tail)[1..] == tail;
    } else {
      assert (p + [sep] + tail)[1..] == p[1..] + [sep] + tail;
      SplitPrefix(p[1..], sep, tail);
      assert [p[0]] + p[1..] == p;
    }
  }

  lemma {:induction false} SplitNoSeparator(p: string, sep: char)
    requires sep !in p
    ensures Split(p, sep) == [p]
  {
    if |p| > 0 {
      SplitNoSeparator(p[1..], sep);
      assert [p[0]] + p[1..] == p;
    }
  }

  /** Splitting a join gives back the parts, provided no part contains the separator. */
  lemma {:induction false} SplitJoin(parts: seq<string>, sep: char)
    requires |parts| > 0
    requires forall i :: 0 <= i < |parts| ==> sep !in parts[i]
    ensures Split(Join(parts, sep), sep) == parts
  {
    if |parts| == 1 {
      SplitNoSeparator(parts[0], sep);
    } else {
      SplitJoin(parts[1..], sep);
      SplitPrefix(parts[0], sep, Join(parts[1..], sep));
      assert [parts[0]] + parts[1..] == parts;
    }
  }

  /** A character of any part is a character of the join. */
  lemma {:induction false} JoinContains(parts: seq<string>, sep: char, i: nat, c: char)
    requires i < |parts| && c in parts[i]
    ensures c in Join(parts, sep)
  {
    if |parts| > 1 {
      if i == 0 {
        assert Join(parts, sep) == parts[0] + ([sep] + Join(parts[1..], sep));
      } else {
        JoinContains(parts[1..], sep, i - 1, c);
        assert Join(parts, sep) == (parts[0] + [sep]) + Join(parts[1..], sep);
      }
    }
  }

  /** `a` occurs in `s` starting at index `k`. */
  predicate OccursAt(a: string, s: string, k: nat)
  {
    k + |a| <= |s| && s[k..k + |a|] == a
  }

  /** `a` occurs somewhere in `s`. */
  predicate Occurs(a: string, s: string)
  {
    exists k: nat | k <= |s| :: OccursAt(a, s, k)
  }

  lemma OccursInConcat(a: string, s: string, k: nat, pre: string, post: string)
    requires OccursAt(a, s, k)
    ensures OccursAt(a, pre + s + post, |pre| + k)
  {
    assert (pre + s + post)[|pre| + k..|pre| + k + |a|] == s[k..k + |a|];
  }

  lemma OccursTransitive(a: string, b: string, s: string, i: nat, j: nat)
    requires OccursAt(a, b, i) && OccursAt(b, s, j)
    ensures OccursAt(a, s, j + i)
  {
    var w := s[j..j + |b|];
    assert w == b;
    forall m | 0 <= m < |a|
      ensures s[j + i + m] == a[m]
    {
      assert s[j + i + m] == w[i + m] == b[i + m] == b[i..i + |a|][m];
    }
    assert s[j + i..j + i + |a|] == a;
  }
}
