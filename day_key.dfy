/** The date key of a calendar day. The application formats a day as
    'yyyy-MM-dd'; all the ledger relies on is that distinct days get distinct
    keys. Here a day is an integer index and its key is that index written in
    decimal, with a leading '-' for days before the epoch. */
module DayKeys {

  function DigitChar(d: int): (c: char)
    requires 0 <= d < 10
    ensures '0' <= c <= '9'
  {
    (48 + d) as char
  }

  /** The decimal digits of n, most significant first, without leading zeros. */
  function Decimal(n: nat): (s: string)
    ensures 1 <= |s|
    ensures forall i :: 0 <= i < |s| ==> '0' <= s[i] <= '9'
    ensures (|s| == 1) == (n < 10)
  {
    if n < 10 then [DigitChar(n)] else Decimal(n / 10) + [DigitChar(n % 10)]
  }

  lemma {:induction false} DecimalInjective(a: nat, b: nat)
    requires Decimal(a) == Decimal(b)
    ensures a == b
  {
    if 10 <= a {
      var sa, sb := Decimal(a), Decimal(b);
      assert sa[..|sa| - 1] == Decimal(a / 10);
      assert sb[..|sb| - 1] == Decimal(b / 10);
      DecimalInjective(a / 10, b / 10);
      assert DigitChar(a % 10) == sa[|sa| - 1] == DigitChar(b % 10);
    }
  }

  /** The key under which day number `day` is stored in the history. */
  function DayKey(day: int): (k: string)
    ensures 1 <= |k|
    ensures k[0] == '-' <==> day < 0
  {
    if day < 0 then "-" + Decimal(-day) else Decimal(day)
  }

  /** Distinct days never share a history key. */
  lemma DayKeyInjective(d1: int, d2: int)
    ensures DayKey(d1) == DayKey(d2) ==> d1 == d2
  {
    var k1, k2 := DayKey(d1), DayKey(d2);
    if (d1 < 0) != (d2 < 0) {
      // exactly one key starts with '-', the other with a digit
      assert (k1[0] == '-') != (k2[0] == '-');
    } else if k1 == k2 {
      if d1 < 0 {
        assert k1[1..] == Decimal(-d1) && k2[1..] == Decimal(-d2);
        DecimalInjective(-d1, -d2);
      } else {
        DecimalInjective(d1, d2);
      }
    }
  }
}
