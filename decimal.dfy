/** Decimal rendering of integers, as Python's f-string `{ts}` and Go's `%d` print them. */
module Decimal {
  import opened Wrappers

  function DigitChar(d: int): char
    requires 0 <= d < 10
  {
    (48 + d) as char
  }

  function DigitValue(c: char): (r: Option<nat>)
    ensures r.Some? ==> r.value < 10
  {
    if '0' <= c <= '9' then Some(c as int - 48) else None
  }

  function NatString(n: nat): string
    decreases n
  {
    if n < 10 then [DigitChar(n)] else NatString(n / 10) + [DigitChar(n % 10)]
  }

  /** `str(n)` / `fmt.Sprintf("%d", n)`: an optional minus sign, then digits without leading zeros. */
  function IntString(n: int): string {
    if n < 0 then "-" + NatString(-n) else NatString(n)
  }

  /** Reads a non-empty string of decimal digits. */
  function ParseNat(s: string): Option<nat>
    decreases |s|
  {
    if |s| == 0 then None
    else
      var last := DigitValue(s[|s| - 1]);
      if last.None? then None
      else if |s| == 1 then last
      else
        match ParseNat(s[..|s| - 1])
        case None => None
        case Some(high) => Some(high * 10 + last.value)
  }

  function ParseInt(s: string): Option<int> {
    var negative := |s| > 0 && s[0] == '-';
    match ParseNat(if negative then s[1..] else s)
    case None => None
    case Some(n) => Some(if negative then -(n as int) else n as int)
  }

  lemma {:induction false} NatStringRoundTrip(n: nat)
    ensures |NatString(n)| > 0 && NatString(n)[0] != '-'
    ensures ParseNat(NatString(n)) == Some(n)
    decreases n
  {
    if n >= 10 {
      NatStringRoundTrip(n / 10);
      var s := NatString(n);
      assert s[..|s| - 1] == NatString(n / 10);
    }
  }

  /** Reading back what `IntString` prints gives the number again. */
  lemma IntStringRoundTrip(n: int)
    ensures ParseInt(IntString(n)) == Some(n)
  {
    if n < 0 {
      NatStringRoundTrip(-n);
      assert IntString(n)[1..] == NatString(-n);
    } else {
      NatStringRoundTrip(n);
    }
  }

  /** Two numbers print the same only if they are equal, also behind a common prefix. */
  lemma PrefixedIntStringInjective(prefix: string, a: int, b: int)
    requires prefix + IntString(a) == prefix + IntString(b)
    ensures a == b
  {
    assert IntString(a) == (prefix + IntString(a))[|prefix|..];
    assert IntString(b) == (prefix + IntString(b))[|prefix|..];
    IntStringRoundTrip(a);
    IntStringRoundTrip(b);
  }
}
