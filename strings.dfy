/** The JavaScript string behaviour the shop depends on: ordering of ids and
    category names, `trim`, `includes`, case folding (as a parameter) and
    decimal display of a count. */
module Strings {
  import opened Lists

  /** Lexicographic order on code points: `a` sorts before or equal to `b`.
      Stands for both the default `Array.prototype.sort` order of strings and
      `localeCompare`. */
  predicate StrLeq(a: string, b: string)
  {
    if a == [] then true
    else if b == [] then false
    else if a[0] != b[0] then a[0] < b[0]
    else StrLeq(a[1..], b[1..])
  }

  lemma {:induction false} StrLeqTotal(a: string, b: string)
    ensures StrLeq(a, b) || StrLeq(b, a)
  {
    if a != [] && b != [] && a[0] == b[0] {
      StrLeqTotal(a[1..], b[1..]);
    }
  }

  lemma {:induction false} StrLeqTransitive(a: string, b: string, c: string)
    requires StrLeq(a, b) && StrLeq(b, c)
    ensures StrLeq(a, c)
  {
    if a != [] && b != [] && c != [] && a[0] == b[0] && b[0] == c[0] {
      StrLeqTransitive(a[1..], b[1..], c[1..]);
    }
  }

  lemma {:induction false} StrLeqAntisymmetric(a: string, b: string)
    requires StrLeq(a, b) && StrLeq(b, a)
    ensures a == b
  {
    if a != [] && b != [] {
      StrLeqAntisymmetric(a[1..], b[1..]);
      assert a == [a[0]] + a[1..] && b == [b[0]] + b[1..];
    }
  }

  /** The order used to sort id lists is a total order, so sorting is canonical. */
  lemma StrLeqIsTotalOrder()
    ensures IsTotalPreorder(StrLeq) && IsAntisymmetric(StrLeq)
  {
    forall a, b ensures StrLeq(a, b) || StrLeq(b, a) {
      StrLeqTotal(a, b);
    }
    forall a, b, c | StrLeq(a, b) && StrLeq(b, c) ensures StrLeq(a, c) {
      StrLeqTransitive(a, b, c);
    }
    forall a, b | StrLeq(a, b) && StrLeq(b, a) ensures a == b {
      StrLeqAntisymmetric(a, b);
    }
  }

  // ---------------------------------------------------------------------------
  // trim

  /** The characters `String.prototype.trim` removes: ECMAScript WhiteSpace and LineTerminator. */
  predicate IsJsSpace(c: char)
  {
    || c == '\t' || c == '\n' || c == '\U{000B}' || c == '\U{000C}' || c == '\r' || c == ' '
    || c == '\U{00A0}' || c == '\U{1680}' || ('\U{2000}' <= c <= '\U{200A}')
    || c == '\U{2028}' || c == '\U{2029}' || c == '\U{202F}' || c == '\U{205F}'
    || c == '\U{3000}' || c == '\U{FEFF}'
  }

  function TrimStart(s: string): (r: string)
    ensures |r| <= |s| && r == s[|s| - |r|..]
    ensures forall i :: 0 <= i < |s| - |r| ==> IsJsSpace(s[i])
    ensures r != [] ==> !IsJsSpace(r[0])
  {
    if s != [] && IsJsSpace(s[0]) then TrimStart(s[1..]) else s
  }

  function TrimEnd(s: string): (r: string)
    ensures |r| <= |s| && r == s[..|r|]
    ensures forall i :: |r| <= i < |s| ==> IsJsSpace(s[i])
    ensures r != [] ==> !IsJsSpace(r[|r| - 1])
  {
    if s != [] && IsJsSpace(s[|s| - 1]) then TrimEnd(s[..|s| - 1]) else s
  }

  /** `r` is `s` with exactly the `k` characters before it and the ones after
      it removed, and all of those are white space. */
  predicate TrimmedAt(s: string, r: string, k: int)
  {
    && OccursAt(s, r, k)
    && (forall i :: 0 <= i < k ==> IsJsSpace(s[i]))
    && (forall i :: k + |r| <= i < |s| ==> IsJsSpace(s[i]))
  }

  /** `String.prototype.trim`: `s` without its leading and trailing white space.
      The result is empty exactly when `s` is nothing but white space. */
  function Trim(s: string): (r: string)
    ensures r == [] <==> forall i :: 0 <= i < |s| ==> IsJsSpace(s[i])
    ensures r != [] ==> !IsJsSpace(r[0]) && !IsJsSpace(r[|r| - 1])
    ensures exists k :: TrimmedAt(s, r, k)
  {
    var front := TrimStart(s);
    var r := TrimEnd(front);
    TrimmedAtOffset(s, front, r);
    r
  }

  /** The trailing-trimmed prefix of the leading-trimmed suffix of `s` sits in
      `s` between white space only. */
  lemma TrimmedAtOffset(s: string, front: string, r: string)
    requires |front| <= |s| && front == s[|s| - |front|..]
    requires forall i :: 0 <= i < |s| - |front| ==> IsJsSpace(s[i])
    requires |r| <= |front| && r == front[..|r|]
    requires forall i :: |r| <= i < |front| ==> IsJsSpace(front[i])
    ensures TrimmedAt(s, r, |s| - |front|)
  {
    var k := |s| - |front|;
    assert forall j :: 0 <= j < |front| ==> front[j] == s[k + j];
    assert forall j :: 0 <= j < |r| ==> r[j] == s[k + j];
    forall i | k + |r| <= i < |s| ensures IsJsSpace(s[i]) {
      assert s[i] == front[i - k];
    }
  }

  // ---------------------------------------------------------------------------
  // toLowerCase and includes

  /** `toLowerCase`, character by character with the given case mapping. */
  function Lowered(s: string, lower: char -> char): (r: string)
    ensures |r| == |s| && forall i :: 0 <= i < |s| ==> r[i] == lower(s[i])
  {
    seq(|s|, i requires 0 <= i < |s| => lower(s[i]))
  }

  /** `needle` occurs in `s` starting at position `i`. */
  predicate OccursAt(s: string, needle: string, i: int)
  {
    0 <= i <= |s| - |needle| && s[i..i + |needle|] == needle
  }

  predicate StartsWith(s: string, prefix: string)
  {
    |prefix| <= |s| && s[..|prefix|] == prefix
  }

  /** `String.prototype.includes`, by scanning the start positions from the left. */
  predicate Contains(s: string, needle: string)
  {
    StartsWith(s, needle) || (s != [] && Contains(s[1..], needle))
  }

  /** `Contains` holds exactly when `needle` occurs at some position of `s`;
      in particular the empty needle occurs in every string. */
  lemma {:induction false} ContainsIffOccurs(s: string, needle: string)
    ensures Contains(s, needle) <==> exists i :: OccursAt(s, needle, i)
  {
    if StartsWith(s, needle) {
      assert OccursAt(s, needle, 0);
    } else if s == [] {
    } else {
      ContainsIffOccurs(s[1..], needle);
      if exists i :: OccursAt(s, needle, i) {
        var i :| OccursAt(s, needle, i);
        assert i != 0;
        assert OccursAt(s[1..], needle, i - 1);
      }
      if exists i :: OccursAt(s[1..], needle, i) {
        var i :| OccursAt(s[1..], needle, i);
        assert OccursAt(s, needle, i + 1);
      }
    }
  }

  // ---------------------------------------------------------------------------
  // Number display

  function DigitChar(d: nat): (c: char)
    requires d < 10
    ensures '0' <= c <= '9' && DigitValue(c) == d
  {
    ('0' as int + d) as char
  }

  /** The value of a decimal digit character. */
  function DigitValue(c: char): int
  {
    c as int - '0' as int
  }

  /** The number a string of decimal digits denotes, read from the left. */
  function DecimalValue(digits: string): int
  {
    if digits == [] then 0
    else DecimalValue(digits[..|digits| - 1]) * 10 + DigitValue(digits[|digits| - 1])
  }

  /** The decimal text JavaScript shows for a non-negative integer. */
  function NatToString(n: nat): (r: string)
    ensures 1 <= |r|
    ensures forall i :: 0 <= i < |r| ==> '0' <= r[i] <= '9'
    ensures n < 100 ==> |r| <= 2
  {
    if n < 10 then [DigitChar(n)] else NatToString(n / 10) + [DigitChar(n % 10)]
  }

  /** The text reads back as the number it shows, with no leading zero. */
  lemma {:induction false} NatToStringReadsBack(n: nat)
    ensures DecimalValue(NatToString(n)) == n
    ensures NatToString(n)[0] == '0' ==> n == 0
  {
    var r := NatToString(n);
    if n >= 10 {
      NatToStringReadsBack(n / 10);
      assert r[..|r| - 1] == NatToString(n / 10);
      assert r[0] == NatToString(n / 10)[0];
    }
  }
}
