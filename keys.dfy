/**
 * Decimal rendering of user ids (what an f-string does with an int) and the
 * conversation cache key `messages:{min}:{max}` that the live socket handler
 * and the history page both compute for a pair of users.
 */
module Keys {

  predicate IsDigits(s: string) {
    forall i :: 0 <= i < |s| ==> '0' <= s[i] <= '9'
  }

  /** The character of the decimal digit d. */
  function DigitChar(d: nat): (c: char)
    requires d < 10
    ensures '0' <= c <= '9'
    ensures c as int - '0' as int == d
  {
    (('0' as int) + d) as char
  }

  /** The value of a string of decimal digits, most significant first. */
  function ParseNat(s: string): (n: nat)
    requires IsDigits(s)
  {
    if s == [] then 0
    else
      ParseNat(s[..|s| - 1]) * 10 + (s[|s| - 1] as int - '0' as int)
  }

  /** Decimal text of a natural number: digits only, never empty, no leading zero. */
  function NatToString(n: nat): (s: string)
    ensures |s| > 0 && IsDigits(s)
    ensures s[0] == '0' <==> n == 0
    decreases n
  {
    if n < 10 then [DigitChar(n)] else NatToString(n / 10) + [DigitChar(n % 10)]
  }

  /** Reading the text back gives the number: the rendering loses nothing. */
  lemma {:induction false} ParseNatToString(n: nat)
    ensures ParseNat(NatToString(n)) == n
  {
    if n >= 10 {
      var s := NatToString(n);
      assert s[..|s| - 1] == NatToString(n / 10);
      ParseNatToString(n / 10);
    }
  }

  /** f"{n}" for a Python int: a leading '-' for negative numbers, then the digits. */
  function IntToString(n: int): (s: string)
    ensures |s| > 0
    ensures ':' !in s
    ensures s[0] == '-' <==> n < 0
  {
    if n < 0 then "-" + NatToString(-n) else NatToString(n)
  }

  /** Two different naturals never render to the same digits. */
  lemma NatToStringInjective(a: nat, b: nat)
    requires NatToString(a) == NatToString(b)
    ensures a == b
  {
    ParseNatToString(a);
    ParseNatToString(b);
  }

  /** Two different ids never render to the same text. */
  lemma IntToStringInjective(m: int, n: int)
    requires IntToString(m) == IntToString(n)
    ensures m == n
  {
    if m < 0 {
      assert n < 0;
      var s := IntToString(m);
      assert s[1..] == NatToString(-m) by { assert s == "-" + NatToString(-m); }
      assert s[1..] == NatToString(-n) by { assert s == "-" + NatToString(-n); }
      NatToStringInjective(-m, -n);
    } else {
      assert n >= 0;
      NatToStringInjective(m, n);
    }
  }

  const KeyPrefix: string := "messages:"

  /** The key text for an already ordered pair (lo, hi). */
  function KeyOf(lo: int, hi: int): string {
    KeyPrefix + IntToString(lo) + ":" + IntToString(hi)
  }

  /**
   * The cache key of the conversation between userId and otherId, with the
   * same conditional the source uses on both the write and the read path:
   * the smaller id first, and the else branch when the ids are equal.
   */
  function CacheKey(userId: int, otherId: int): (key: string)
    ensures key == KeyOf(if userId <= otherId then userId else otherId,
                         if userId <= otherId then otherId else userId)
  {
    if userId < otherId then KeyOf(userId, otherId) else KeyOf(otherId, userId)
  }

  /** Both participants address the same entry, whoever is the sender. */
  lemma CacheKeySymmetric(a: int, b: int)
    ensures CacheKey(a, b) == CacheKey(b, a)
  {
  }

  /** Text before the first ':' is determined: x + ":" + y splits uniquely when x has no ':'. */
  lemma SplitAtColon(x: string, y: string, z: string, w: string)
    requires ':' !in x && ':' !in z
    requires x + ":" + y == z + ":" + w
    ensures x == z && y == w
  {
    var s := x + ":" + y;
    assert s[|x|] == ':' && s[|z|] == ':';
    assert forall i :: 0 <= i < |x| ==> s[i] == x[i];
    assert forall i :: 0 <= i < |z| ==> s[i] == z[i];
    assert |x| == |z|;
    assert x == s[..|x|];
    assert z == (z + ":" + w)[..|z|];
    assert y == s[|x| + 1..];
    assert w == (z + ":" + w)[|z| + 1..];
  }

  lemma KeyOfInjective(lo1: int, hi1: int, lo2: int, hi2: int)
    requires KeyOf(lo1, hi1) == KeyOf(lo2, hi2)
    ensures lo1 == lo2 && hi1 == hi2
  {
    var x, y := IntToString(lo1), IntToString(hi1);
    var z, w := IntToString(lo2), IntToString(hi2);
    var k := KeyOf(lo1, hi1);
    assert k[|KeyPrefix|..] == x + ":" + y;
    assert KeyOf(lo2, hi2)[|KeyPrefix|..] == z + ":" + w;
    SplitAtColon(x, y, z, w);
    IntToStringInjective(lo1, lo2);
    IntToStringInjective(hi1, hi2);
  }

  /**
   * Two pairs share a cache entry exactly when they are the same unordered
   * pair: the key neither forks one conversation nor merges two.
   */
  lemma CacheKeyInjective(a: int, b: int, c: int, d: int)
    ensures CacheKey(a, b) == CacheKey(c, d) <==>
            (a == c && b == d) || (a == d && b == c)
  {
    if CacheKey(a, b) == CacheKey(c, d) {
      KeyOfInjective(if a <= b then a else b, if a <= b then b else a,
                     if c <= d then c else d, if c <= d then d else c);
    }
  }
}
