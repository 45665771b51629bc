/** Decimal integers as strconv.FormatInt and ParseInt write and read them (non-negative
    values only: every id of the repository counts up from one). */
module Decimal {
  import opened Prelude

  const INT64_LIMIT: nat := 0x8000_0000_0000_0000

  function Digit(d: nat): char
    requires d < 10
  {
    '0' + d as char
  }

  function Format(n: nat): (s: Bytes)
    ensures s != [] && forall i :: 0 <= i < |s| ==> '0' <= s[i] <= '9'
  {
    if n < 10 then [Digit(n)] else Format(n / 10) + [Digit(n % 10)]
  }

  predicate Digits(s: Bytes) {
    forall i :: 0 <= i < |s| ==> '0' <= s[i] <= '9'
  }

  function Value(s: Bytes): nat
    requires Digits(s)
  {
    if s == [] then 0 else 10 * Value(s[..|s| - 1]) + (s[|s| - 1] as nat - '0' as nat)
  }

  /** ParseInt with its error dropped: zero for anything that is not a decimal number. */
  function Parse(s: Bytes): nat {
    if s != [] && Digits(s) then Value(s) else 0
  }

  lemma {:induction false} ParseFormat(n: nat)
    ensures Parse(Format(n)) == n
  {
    var s := Format(n);
    if n < 10 {
      assert s[..|s| - 1] == [] && Value([]) == 0;
    } else {
      ParseFormat(n / 10);
      assert s[..|s| - 1] == Format(n / 10);
    }
  }

  lemma FormatInjective(m: nat, n: nat)
    requires Format(m) == Format(n)
    ensures m == n
  {
    ParseFormat(m);
    ParseFormat(n);
  }

  function Pow10(k: nat): nat {
    if k == 0 then 1 else 10 * Pow10(k - 1)
  }

  lemma {:induction false} FormatLength(n: nat, k: nat)
    requires 1 <= k && n < Pow10(k)
    ensures |Format(n)| <= k
  {
    if n >= 10 {
      FormatLength(n / 10, k - 1);
    }
  }

  lemma Int64Length(n: nat)
    requires n < INT64_LIMIT
    ensures |Format(n)| <= 19
  {
    assert Pow10(4) == 10_000;
    assert Pow10(8) == 10_000 * Pow10(4);
    assert Pow10(12) == 10_000 * Pow10(8);
    assert Pow10(16) == 10_000 * Pow10(12);
    assert Pow10(19) == 1_000 * Pow10(16);
    FormatLength(n, 19);
  }
}
