/** Small vocabulary shared by every module: optional values, outcomes and substring search. */
module Basics {

  datatype Option<+T> = None | Some(value: T)

  datatype Result<+T, +E> = Ok(value: T) | Err(error: E)

  /** `needle` stands in `haystack` at position `i`. */
  predicate OccursAt(haystack: string, needle: string, i: int) {
    0 <= i && i + |needle| <= |haystack| && haystack[i..i + |needle|] == needle
  }

  /** Substring test: `str::contains` and `slice::windows(..).any(..)`. */
  predicate Contains(haystack: string, needle: string) {
    exists i | 0 <= i <= |haystack| :: OccursAt(haystack, needle, i)
  }

  predicate StartsWith(s: string, prefix: string) {
    |prefix| <= |s| && s[..|prefix|] == prefix
  }

  lemma ContainsMiddle(before: string, needle: string, after: string)
    ensures Contains(before + needle + after, needle)
  {
    var s := before + needle + after;
    assert s[|before|..|before| + |needle|] == needle;
    assert OccursAt(s, needle, |before|);
  }

  lemma ContainsInfix(before: string, inner: string, after: string, needle: string)
    requires Contains(inner, needle)
    ensures Contains(before + inner + after, needle)
  {
    var i :| 0 <= i <= |inner| && OccursAt(inner, needle, i);
    var s := before + inner + after;
    assert s[|before| + i..|before| + i + |needle|] == inner[i..i + |needle|];
    assert OccursAt(s, needle, |before| + i);
  }

  /** A text lacking one character of the needle cannot contain the needle. */
  lemma MissingCharacter(s: string, needle: string, c: char)
    requires c in needle && c !in s
    ensures !Contains(s, needle)
  {
  }

  // ---- Decimal rendering, as `format!("{}", n)` writes a number ----

  function DigitChar(d: nat): (c: char)
    requires d < 10
    ensures '0' <= c <= '9'
  {
    "0123456789"[d]
  }

  function Decimal(n: nat): string {
    if n < 10 then [DigitChar(n)] else Decimal(n / 10) + [DigitChar(n % 10)]
  }

  lemma {:induction false} DecimalHasOnlyDigits(n: nat, c: char)
    requires c < '0' || '9' < c
    ensures c !in Decimal(n)
  {
    if n >= 10 {
      DecimalHasOnlyDigits(n / 10, c);
    }
  }
}
