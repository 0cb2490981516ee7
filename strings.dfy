/** String helpers shared by the components: JavaScript's decimal rendering of
    integers (`${n}` in a template literal), `toLowerCase` on ASCII letters,
    `String.prototype.includes` and `Array.prototype.join`. */
module Strings {

  predicate IsDigit(c: char) {
    '0' <= c <= '9'
  }

  function DigitChar(d: nat): (c: char)
    requires d < 10
    ensures IsDigit(c) && (c as int) - ('0' as int) == d
  {
    ('0' as int + d) as char
  }

  function DigitValue(c: char): nat
    requires IsDigit(c)
  {
    (c as int) - ('0' as int)
  }

  /** Decimal digits of a natural number, most significant first, no leading zeros. */
  function NatToString(n: nat): (s: string)
    ensures |s| >= 1
    ensures forall i :: 0 <= i < |s| ==> IsDigit(s[i])
    ensures |s| > 1 ==> s[0] != '0'
    decreases n
  {
    if n < 10 then [DigitChar(n)] else NatToString(n / 10) + [DigitChar(n % 10)]
  }

  /** How a JavaScript integer-valued number prints below 1e21 in magnitude:
      a minus sign, then the digits. Larger magnitudes, which JavaScript
      writes in exponent form, are not distinguished here. */
  function IntToString(n: int): (s: string)
    ensures |s| >= 1 && ' ' !in s
    ensures n < 0 <==> s[0] == '-'
  {
    if n < 0 then "-" + NatToString(-n) else NatToString(n)
  }

  /** Reads back a string of decimal digits (the inverse of NatToString). */
  function ParseNat(s: string): nat
    requires forall i :: 0 <= i < |s| ==> IsDigit(s[i])
  {
    if s == [] then 0 else ParseNat(s[..|s| - 1]) * 10 + DigitValue(s[|s| - 1])
  }

  lemma {:induction false} ParseNatToString(n: nat)
    ensures ParseNat(NatToString(n)) == n
    decreases n
  {
    if n >= 10 {
      var s := NatToString(n);
      assert s[..|s| - 1] == NatToString(n / 10);
      ParseNatToString(n / 10);
    }
  }

  lemma NatToStringInjective(m: nat, n: nat)
    requires NatToString(m) == NatToString(n)
    ensures m == n
  {
    ParseNatToString(m);
    ParseNatToString(n);
  }

  /** Formatting an integer loses nothing: distinct integers print differently. */
  lemma {:induction false} IntToStringInjective(a: int, b: int)
    requires IntToString(a) == IntToString(b)
    ensures a == b
  {
    if a < 0 && b < 0 {
      DropSign(NatToString(-a));
      DropSign(NatToString(-b));
      NatToStringInjective(-a, -b);
    } else if a >= 0 && b >= 0 {
      NatToStringInjective(a, b);
    }
  }

  lemma DropSign(digits: string)
    ensures ("-" + digits)[1..] == digits
  {
  }

  /** `toLowerCase` on one character; only the ASCII letters A-Z change. */
  function Lower(c: char): char {
    if 'A' <= c <= 'Z' then ((c as int) + 32) as char else c
  }

  function ToLower(s: string): (r: string)
    ensures |r| == |s|
    ensures forall i :: 0 <= i < |s| ==> r[i] == Lower(s[i])
  {
    if s == [] then [] else [Lower(s[0])] + ToLower(s[1..])
  }

  lemma ToLowerIdempotent(s: string)
    ensures ToLower(ToLower(s)) == ToLower(s)
  {
  }

  /** `sub` sits in `s` starting at position `i`. */
  predicate OccursAt(sub: string, s: string, i: int) {
    0 <= i <= |s| - |sub| && s[i..i + |sub|] == sub
  }

  /** `s.includes(sub)`: some window of `s` equals `sub`. */
  ghost predicate Occurs(sub: string, s: string) {
    exists i :: OccursAt(sub, s, i)
  }

  /** The scanning search that `includes` performs: try each start position in turn. */
  function Includes(s: string, sub: string): (r: bool)
    ensures r <==> Occurs(sub, s)
    decreases |s|
  {
    if |sub| <= |s| && s[..|sub|] == sub then
      assert OccursAt(sub, s, 0);
      true
    else if |s| <= |sub| then
      assert forall i :: OccursAt(sub, s, i) ==> i == 0;
      false
    else
      var rest := Includes(s[1..], sub);
      assert !OccursAt(sub, s, 0);
      ShiftOccurrence(sub, s);
      if rest then
        var i :| OccursAt(sub, s[1..], i);
        assert OccursAt(sub, s, i + 1);
        true
      else
        assert forall i :: OccursAt(sub, s, i) ==> OccursAt(sub, s[1..], i - 1);
        false
  }

  lemma ShiftOccurrence(sub: string, s: string)
    requires |s| > 0
    ensures forall i :: 0 <= i ==> (OccursAt(sub, s[1..], i) <==> OccursAt(sub, s, i + 1))
  {
    forall i | 0 <= i ensures OccursAt(sub, s[1..], i) <==> OccursAt(sub, s, i + 1) {
      if 0 <= i <= |s| - 1 - |sub| {
        assert s[1..][i..i + |sub|] == s[i + 1..i + 1 + |sub|];
      }
    }
  }

  lemma IncludesEmpty(s: string)
    ensures Includes(s, "")
  {
    assert OccursAt("", s, 0);
  }

  /** `parts.join(sep)`. */
  function Join(parts: seq<string>, sep: string): string
  {
    if |parts| == 0 then "" else if |parts| == 1 then parts[0] else parts[0] + sep + Join(parts[1..], sep)
  }

  /** Joining two lists is joining each and putting one separator between the
      two results, unless one of the lists is empty. */
  lemma {:induction false} JoinAppend(a: seq<string>, b: seq<string>, sep: string)
    ensures Join(a + b, sep) ==
      if a == [] then Join(b, sep)
      else if b == [] then Join(a, sep)
      else Join(a, sep) + sep + Join(b, sep)
  {
    if a == [] {
      assert a + b == b;
    } else if b == [] {
      assert a + b == a;
    } else if |a| == 1 {
      assert (a + b)[1..] == b;
    } else {
      assert (a + b)[1..] == a[1..] + b;
      JoinAppend(a[1..], b, sep);
    }
  }

  /** A join with no separator is plain concatenation. */
  function Concat(parts: seq<string>): string
  {
    if |parts| == 0 then "" else parts[0] + Concat(parts[1..])
  }

  lemma {:induction false} JoinEmptySeparator(parts: seq<string>)
    ensures Join(parts, "") == Concat(parts)
  {
    if |parts| > 1 {
      JoinEmptySeparator(parts[1..]);
    }
  }

  /** `s.startsWith(prefix)`. */
  predicate StartsWith(s: string, prefix: string) {
    |prefix| <= |s| && s[..|prefix|] == prefix
  }

  /** `s.endsWith(suffix)`. */
  predicate EndsWith(s: string, suffix: string) {
    |suffix| <= |s| && s[|s| - |suffix|..] == suffix
  }

  /** A prefix stays a prefix when more text is appended. */
  lemma StartsWithAppend(s: string, prefix: string, t: string)
    requires StartsWith(s, prefix)
    ensures StartsWith(s + t, prefix)
  {
    assert (s + t)[..|prefix|] == s[..|prefix|];
  }

  /** `s.split(sep)[0]`: everything before the first `sep`, or all of `s`. */
  function BeforeFirst(s: string, sep: char): (r: string)
    ensures StartsWith(s, r) && sep !in r
    ensures |r| < |s| ==> s[|r|] == sep
  {
    if s == [] || s[0] == sep then [] else [s[0]] + BeforeFirst(s[1..], sep)
  }
}
