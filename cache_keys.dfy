/** Cache keys: the cache is keyed by `String(id)`, the decimal rendering of a user id. */
module CacheKeys {

  function DigitChar(d: nat): (c: char)
    requires d < 10
    ensures '0' <= c <= '9'
    ensures c as int - '0' as int == d
  {
    ('0' as int + d) as char
  }

  /** The decimal digits of `n`, most significant first, without leading zeros. */
  function DecimalString(n: nat): (s: string)
    ensures |s| >= 1
    ensures n < 10 <==> |s| == 1
    ensures forall i :: 0 <= i < |s| ==> '0' <= s[i] <= '9'
    decreases n
  {
    if n < 10 then [DigitChar(n)] else DecimalString(n / 10) + [DigitChar(n % 10)]
  }

  /** `String(id)` for an integer id. */
  function IdKey(id: int): (key: string)
    ensures |key| >= 1
    ensures '@' !in key
  {
    if id < 0 then "-" + DecimalString(-id) else DecimalString(id)
  }

  lemma {:induction false} DecimalStringInjective(a: nat, b: nat)
    requires DecimalString(a) == DecimalString(b)
    ensures a == b
    decreases a
  {
    var s := DecimalString(a);
    if a < 10 {
      assert b < 10;
      assert s[0] == DigitChar(a) && s[0] == DigitChar(b);
    } else {
      assert b >= 10;
      assert s == DecimalString(a / 10) + [DigitChar(a % 10)];
      assert s == DecimalString(b / 10) + [DigitChar(b % 10)];
      assert s[|s| - 1] == DigitChar(a % 10) && s[|s| - 1] == DigitChar(b % 10);
      assert DecimalString(a / 10) == s[..|s| - 1] == DecimalString(b / 10);
      DecimalStringInjective(a / 10, b / 10);
    }
  }

  /** Distinct ids never share a cache key. */
  lemma IdKeyInjective(a: int, b: int)
    requires IdKey(a) == IdKey(b)
    ensures a == b
  {
    var k := IdKey(a);
    if a < 0 {
      assert k[0] == '-';
      assert b < 0;
      assert DecimalString(-a) == k[1..] == DecimalString(-b);
      DecimalStringInjective(-a, -b);
    } else {
      assert '0' <= k[0] <= '9';
      assert b >= 0;
      DecimalStringInjective(a, b);
    }
  }
}
