/**
 * Identifiers and URLs built from a `Date.now()` reading. The reading itself is
 * supplied by the caller as a natural number of milliseconds; this module only
 * turns it into the decimal text JavaScript's template literals produce.
 */
module Ids {

  /** The character of one decimal digit. */
  function DigitChar(d: nat): (c: char)
    requires d < 10
    ensures '0' <= c <= '9'
    ensures c as int - '0' as int == d
  {
    (d + '0' as int) as char
  }

  predicate IsDigits(s: string) {
    forall i :: 0 <= i < |s| ==> '0' <= s[i] <= '9'
  }

  /** `n.toString()` for a non-negative integer: its decimal digits, most significant first. */
  function Decimal(n: nat): (s: string)
    ensures |s| >= 1 && IsDigits(s)
    ensures n < 10 <==> |s| == 1
    decreases n
  {
    if n < 10 then [DigitChar(n)] else Decimal(n / 10) + [DigitChar(n % 10)]
  }

  /** Distinct readings give distinct decimal texts. */
  lemma {:induction false} DecimalInjective(a: nat, b: nat)
    requires Decimal(a) == Decimal(b)
    ensures a == b
    decreases a
  {
    var s := Decimal(a);
    if a >= 10 && b >= 10 {
      assert s[|s| - 1] == DigitChar(a % 10) == DigitChar(b % 10);
      assert Decimal(a / 10) == s[..|s| - 1] == Decimal(b / 10);
      DecimalInjective(a / 10, b / 10);
    }
  }

  /** `` `${prefix}${Date.now()}` ``, the shape of every record id in the dashboard. */
  function StampedId(prefix: string, stamp: nat): (id: string)
    ensures |id| > |prefix| && id[..|prefix|] == prefix
    ensures IsDigits(id[|prefix|..])
  {
    prefix + Decimal(stamp)
  }

  /** Two ids with the same prefix are equal only when their readings are. */
  lemma StampedIdInjective(prefix: string, a: nat, b: nat)
    requires StampedId(prefix, a) == StampedId(prefix, b)
    ensures a == b
  {
    assert Decimal(a) == StampedId(prefix, a)[|prefix|..];
    assert Decimal(b) == StampedId(prefix, b)[|prefix|..];
    DecimalInjective(a, b);
  }

  const PlaceholderPrefix := "https://picsum.photos/seed/"
  const PlaceholderSuffix := "/600/400"

  /** The stand-in image URL a room form submits when no image was chosen. */
  function PlaceholderUrl(stamp: nat): (url: string)
    ensures |url| > |PlaceholderPrefix| + |PlaceholderSuffix|
    ensures url[..|PlaceholderPrefix|] == PlaceholderPrefix
    ensures url[|url| - |PlaceholderSuffix|..] == PlaceholderSuffix
  {
    PlaceholderPrefix + Decimal(stamp) + PlaceholderSuffix
  }
}
