/** Character-level helpers of the gateway: stripping non-digits, decimal
    rendering and reading of integers (PHP's string conversion and
    `intval`), `explode` on one separator character, `strtoupper` on one
    character and PHP's `empty()` on strings. Strings are sequences of
    characters; the byte encoding of the host language is not modelled. */
module Text {

  predicate IsDigit(c: char) {
    '0' <= c <= '9'
  }

  predicate AllDigits(s: string) {
    forall i :: 0 <= i < |s| ==> IsDigit(s[i])
  }

  /** True iff `sep` does not occur in `s`. */
  predicate Lacks(s: string, sep: char) {
    forall i :: 0 <= i < |s| ==> s[i] != sep
  }

  /** PHP's `empty()` on a string value: both "" and "0" count as empty. */
  predicate PhpEmpty(s: string) {
    s == "" || s == "0"
  }

  // ---------------------------------------------------------------------
  // only_numbers
  // ---------------------------------------------------------------------

  /** Removes every character outside `0`-`9`. */
  function OnlyNumbers(s: string): (r: string)
    ensures AllDigits(r)
    ensures |r| <= |s|
    decreases |s|
  {
    if s == [] then []
    else if IsDigit(s[0]) then [s[0]] + OnlyNumbers(s[1..])
    else OnlyNumbers(s[1..])
  }

  /** Stripping distributes over concatenation: the digits that survive keep
      their relative order. Together with the one-character case this fixes
      `OnlyNumbers` completely. */
  lemma {:induction false} OnlyNumbersAppend(a: string, b: string)
    ensures OnlyNumbers(a + b) == OnlyNumbers(a) + OnlyNumbers(b)
    decreases |a|
  {
    if a == [] {
      assert a + b == b;
    } else {
      assert (a + b)[0] == a[0];
      assert (a + b)[1..] == a[1..] + b;
      OnlyNumbersAppend(a[1..], b);
    }
  }

  /** Every digit of the input survives as often as it occurs; nothing else does. */
  lemma {:induction false} OnlyNumbersCounts(s: string)
    ensures forall c :: multiset(OnlyNumbers(s))[c] == if IsDigit(c) then multiset(s)[c] else 0
    decreases |s|
  {
    if s != [] {
      OnlyNumbersCounts(s[1..]);
      assert s == [s[0]] + s[1..];
      assert multiset(s) == multiset([s[0]]) + multiset(s[1..]);
      if IsDigit(s[0]) {
        assert multiset(OnlyNumbers(s)) == multiset([s[0]]) + multiset(OnlyNumbers(s[1..]));
      }
    }
  }

  /** A string is left unchanged exactly when it is made of digits only. */
  lemma {:induction false} OnlyNumbersFixpoint(s: string)
    ensures OnlyNumbers(s) == s <==> AllDigits(s)
    decreases |s|
  {
    if s != [] && AllDigits(s) {
      assert AllDigits(s[1..]);
      OnlyNumbersFixpoint(s[1..]);
    }
  }

  lemma OnlyNumbersIdempotent(s: string)
    ensures OnlyNumbers(OnlyNumbers(s)) == OnlyNumbers(s)
  {
  }

  // ---------------------------------------------------------------------
  // Decimal rendering and reading
  // ---------------------------------------------------------------------

  function DigitChar(d: nat): (c: char)
    requires d < 10
    ensures IsDigit(c)
  {
    ('0' as int + d) as char
  }

  function DigitValue(c: char): (d: nat)
    requires IsDigit(c)
    ensures d < 10
    ensures DigitChar(d) == c
  {
    c as int - '0' as int
  }

  /** The decimal rendering of a natural number, without leading zeros. */
  function NatToString(n: nat): (s: string)
    ensures |s| >= 1 && AllDigits(s)
    ensures s[0] == '0' <==> n == 0
    decreases n
  {
    if n < 10 then [DigitChar(n)] else NatToString(n / 10) + [DigitChar(n % 10)]
  }

  /** The value of a string of decimal digits (leading zeros allowed). */
  function ParseDigits(s: string): nat
    requires AllDigits(s)
    decreases |s|
  {
    if s == [] then 0 else 10 * ParseDigits(s[..|s| - 1]) + DigitValue(s[|s| - 1])
  }

  lemma {:induction false} ParseNatToString(n: nat)
    ensures ParseDigits(NatToString(n)) == n
    decreases n
  {
    if n >= 10 {
      var p := NatToString(n / 10);
      ParseNatToString(n / 10);
      assert (p + [DigitChar(n % 10)])[..|p|] == p;
    }
  }

  lemma {:induction false} ParseDigitsLeading(s: string)
    requires AllDigits(s) && |s| >= 1 && s[0] != '0'
    ensures ParseDigits(s) >= 1
    decreases |s|
  {
    if |s| > 1 {
      var p := s[..|s| - 1];
      assert p[0] == s[0];
      ParseDigitsLeading(p);
    }
  }

  /** The other direction: a digit string without leading zeros is the
      rendering of its own value, so `NatToString` is a bijection between
      the naturals and the canonical digit strings. */
  lemma {:induction false} CanonicalRoundTrip(s: string)
    requires AllDigits(s) && |s| >= 1 && (s[0] != '0' || |s| == 1)
    ensures NatToString(ParseDigits(s)) == s
    decreases |s|
  {
    var last := s[|s| - 1];
    var d := DigitValue(last);
    if |s| == 1 {
      assert s[..0] == [];
      assert s == [last];
    } else {
      var p := s[..|s| - 1];
      assert p[0] == s[0];
      ParseDigitsLeading(p);
      CanonicalRoundTrip(p);
      var n := ParseDigits(s);
      assert n == 10 * ParseDigits(p) + d;
      assert n / 10 == ParseDigits(p) && n % 10 == d;
      assert s == p + [last];
    }
  }

  /** Reading a digit string with two more digits appended. */
  lemma ParseAppendTwo(a: string, b: string)
    requires AllDigits(a) && AllDigits(b) && |b| == 2
    ensures AllDigits(a + b)
    ensures ParseDigits(a + b) == 100 * ParseDigits(a) + ParseDigits(b)
  {
    var ab := a + b;
    var x := a + [b[0]];
    assert ab[..|ab| - 1] == x;
    assert x[..|a|] == a;
    assert b[..1] == [b[0]];
    assert [b[0]][..0] == [];
    assert ParseDigits(ab) == 10 * ParseDigits(x) + DigitValue(b[1]);
    assert ParseDigits(x) == 10 * ParseDigits(a) + DigitValue(b[0]);
    assert ParseDigits([b[0]]) == DigitValue(b[0]);
    assert ParseDigits(b) == 10 * DigitValue(b[0]) + DigitValue(b[1]);
  }

  /** Two digits, zero-padded: the fraction part of a two-decimal amount. */
  function Pad2(k: nat): (s: string)
    requires k < 100
    ensures |s| == 2 && AllDigits(s)
    ensures ParseDigits(s) == k
  {
    var hi, lo := DigitChar(k / 10), DigitChar(k % 10);
    assert DigitValue(hi) == k / 10 && DigitValue(lo) == k % 10;
    assert [hi, lo][..1] == [hi];
    assert [hi][..0] == [];
    assert ParseDigits([hi]) == k / 10;
    [hi, lo]
  }

  /** PHP's string conversion of an integer. */
  function IntToString(i: int): (s: string)
    ensures |s| >= 1
  {
    if i < 0 then "-" + NatToString(-i) else NatToString(i)
  }

  lemma IntToStringShape(i: int)
    ensures i < 0 ==> IntToString(i)[0] == '-' && IntToString(i)[1..] == NatToString(-i)
    ensures i >= 0 ==> IntToString(i) == NatToString(i) && IsDigit(IntToString(i)[0])
  {
  }

  /** The longest prefix of `s` made of decimal digits. */
  function DigitPrefix(s: string): (p: string)
    ensures AllDigits(p) && p <= s
    ensures |p| < |s| ==> !IsDigit(s[|p|])
    decreases |s|
  {
    if s == [] || !IsDigit(s[0]) then [] else [s[0]] + DigitPrefix(s[1..])
  }

  predicate IsSpace(c: char) {
    c == ' ' || c == '\t' || c == '\n' || c == '\r' || c == '\U{000B}' || c == '\U{000C}'
  }

  function SkipSpace(s: string): (t: string)
    ensures t <= s || (|t| <= |s| && t == s[|s| - |t|..])
    ensures t != [] ==> !IsSpace(t[0])
    decreases |s|
  {
    if s != [] && IsSpace(s[0]) then SkipSpace(s[1..]) else s
  }

  /** PHP's `intval` of a string: leading white space, an optional sign and
      the longest run of digits that follows; anything else reads as 0. */
  function IntValOfText(s: string): int {
    var t := SkipSpace(s);
    if t != [] && t[0] == '-' then -(ParseDigits(DigitPrefix(t[1..])) as int)
    else if t != [] && t[0] == '+' then ParseDigits(DigitPrefix(t[1..]))
    else ParseDigits(DigitPrefix(t))
  }

  lemma DigitPrefixOfDigits(s: string)
    requires AllDigits(s)
    ensures DigitPrefix(s) == s
  {
    var p := DigitPrefix(s);
    assert !(|p| < |s|);
  }

  /** `intval` reads back what the string conversion of an integer wrote. */
  lemma IntValOfIntToString(i: int)
    ensures IntValOfText(IntToString(i)) == i
  {
    IntToStringShape(i);
    var s := IntToString(i);
    var n: nat := if i < 0 then -i else i;
    var digits := NatToString(n);
    DigitPrefixOfDigits(digits);
    ParseNatToString(n);
    assert !IsSpace(s[0]);
    assert SkipSpace(s) == s;
    if i < 0 {
      assert s[1..] == digits;
    } else {
      assert s == digits;
      assert s[0] != '-' && s[0] != '+';
    }
  }

  // ---------------------------------------------------------------------
  // explode / join on one separator character
  // ---------------------------------------------------------------------

  /** PHP's `explode(sep, s)` for a one-character separator: the pieces
      between separators, always at least one. */
  function Explode(s: string, sep: char): (parts: seq<string>)
    ensures |parts| >= 1
    decreases |s|
  {
    if s == [] then [[]]
    else
      var rest := Explode(s[1..], sep);
      if s[0] == sep then [[]] + rest
      else [[s[0]] + rest[0]] + rest[1..]
  }

  /** PHP's `implode(sep, parts)` for a non-empty list of parts. */
  function Join(parts: seq<string>, sep: char): string
    requires |parts| >= 1
    decreases |parts|
  {
    if |parts| == 1 then parts[0] else parts[0] + [sep] + Join(parts[1..], sep)
  }

  /** Joining the pieces gives back the original string, and no piece
      contains the separator. */
  lemma {:induction false} JoinExplode(s: string, sep: char)
    ensures Join(Explode(s, sep), sep) == s
    ensures forall k :: 0 <= k < |Explode(s, sep)| ==> Lacks(Explode(s, sep)[k], sep)
    decreases |s|
  {
    if s != [] {
      JoinExplode(s[1..], sep);
      var rest := Explode(s[1..], sep);
      var parts := Explode(s, sep);
      assert s == [s[0]] + s[1..];
      if s[0] == sep {
        assert parts == [[]] + rest;
        assert parts[1..] == rest;
        assert Join(parts, sep) == [] + [sep] + Join(rest, sep);
        forall k | 0 <= k < |parts|
          ensures Lacks(parts[k], sep)
        {
          if k > 0 {
            assert parts[k] == rest[k - 1];
          }
        }
      } else {
        var head := [s[0]] + rest[0];
        assert parts == [head] + rest[1..];
        assert Lacks(rest[0], sep);
        assert Lacks(head, sep);
        if |rest| == 1 {
          assert Join(rest, sep) == rest[0];
        } else {
          assert parts[1..] == rest[1..];
          assert Join(rest, sep) == rest[0] + [sep] + Join(rest[1..], sep);
          assert Join(parts, sep) == head + [sep] + Join(rest[1..], sep);
        }
        forall k | 0 <= k < |parts|
          ensures Lacks(parts[k], sep)
        {
          if k > 0 {
            assert parts[k] == rest[k];
          }
        }
      }
    }
  }

  /** Exploding a string that starts with a separator-free piece. */
  lemma {:induction false} ExplodePrefix(a: string, rest: string, sep: char)
    requires Lacks(a, sep)
    ensures Explode(a + rest, sep) == [a + Explode(rest, sep)[0]] + Explode(rest, sep)[1..]
    decreases |a|
  {
    if a == [] {
      assert a + rest == rest;
      assert a + Explode(rest, sep)[0] == Explode(rest, sep)[0];
      assert Explode(rest, sep) == [Explode(rest, sep)[0]] + Explode(rest, sep)[1..];
    } else {
      var s := a + rest;
      assert s[0] == a[0];
      assert s[1..] == a[1..] + rest;
      ExplodePrefix(a[1..], rest, sep);
      assert [a[0]] + (a[1..] + Explode(rest, sep)[0]) == a + Explode(rest, sep)[0];
    }
  }

  /** Exploding a join of separator-free pieces gives the pieces back. */
  lemma {:induction false} ExplodeJoin(parts: seq<string>, sep: char)
    requires |parts| >= 1
    requires forall k :: 0 <= k < |parts| ==> Lacks(parts[k], sep)
    ensures Explode(Join(parts, sep), sep) == parts
    decreases |parts|
  {
    if |parts| == 1 {
      ExplodePrefix(parts[0], [], sep);
      assert parts[0] + [] == parts[0];
    } else {
      var tail := Join(parts[1..], sep);
      ExplodeJoin(parts[1..], sep);
      var rest := [sep] + tail;
      assert rest[0] == sep && rest[1..] == tail;
      assert Explode(rest, sep) == [[]] + parts[1..];
      ExplodePrefix(parts[0], rest, sep);
      assert Join(parts, sep) == parts[0] + rest;
      assert parts[0] + [] == parts[0];
      assert parts == [parts[0]] + parts[1..];
    }
  }

  // ---------------------------------------------------------------------
  // strtoupper on one character
  // ---------------------------------------------------------------------

  /** ASCII upper-casing of one character; every other character is kept. */
  function ToUpperAscii(c: char): (u: char)
    ensures !('a' <= u <= 'z')
    ensures !('a' <= c <= 'z') ==> u == c
    ensures 'a' <= c <= 'z' ==> u as int == c as int - 32
  {
    if 'a' <= c <= 'z' then (c as int - 32) as char else c
  }
}
