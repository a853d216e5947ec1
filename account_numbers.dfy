/** Account numbers minted for new accounts: "ABS-2024-" followed by a
    count written in decimal and zero-padded to at least three digits
    (the .NET custom format "000"). */
module AccountNumbers {

  const Prefix: string := "ABS-2024-"

  predicate IsDigit(c: char) {
    '0' <= c <= '9'
  }

  predicate AllDigits(s: string) {
    forall i :: 0 <= i < |s| ==> IsDigit(s[i])
  }

  function DigitChar(d: nat): (c: char)
    requires d < 10
    ensures IsDigit(c) && c as int - '0' as int == d
  {
    ('0' as int + d) as char
  }

  /** The decimal digits of n, most significant first, with no leading zero. */
  function Digits(n: nat): (s: string)
    ensures 0 < |s| && AllDigits(s)
    ensures |s| > 1 ==> s[0] != '0'
    ensures n < 10 <==> |s| == 1
  {
    if n < 10 then [DigitChar(n)] else Digits(n / 10) + [DigitChar(n % 10)]
  }

  function Zeros(k: nat): (s: string)
    ensures |s| == k && AllDigits(s)
  {
    if k == 0 then [] else Zeros(k - 1) + ['0']
  }

  /** n written with at least three digits, as the format "000" writes it. */
  function Padded(n: nat): (s: string)
    ensures |s| == if |Digits(n)| < 3 then 3 else |Digits(n)|
    ensures AllDigits(s)
  {
    var d := Digits(n);
    if |d| < 3 then Zeros(3 - |d|) + d else d
  }

  /** The account number given to the account created when the directory
      holds n - 1 accounts. */
  function AccountNumberFor(n: nat): (s: string)
    ensures Prefix <= s && AllDigits(s[|Prefix|..])
    ensures |s| >= |Prefix| + 3
  {
    Prefix + Padded(n)
  }

  /** The value of a string of decimal digits; leading zeros add nothing. */
  function ValueOf(s: string): int
    requires AllDigits(s)
  {
    if s == [] then 0 else ValueOf(s[..|s| - 1]) * 10 + (s[|s| - 1] as int - '0' as int)
  }

  lemma {:induction false} ValueOfDigits(n: nat)
    ensures ValueOf(Digits(n)) == n
  {
    if n >= 10 {
      var d := Digits(n);
      assert d[..|d| - 1] == Digits(n / 10);
      ValueOfDigits(n / 10);
    }
  }

  lemma {:induction false} ValueOfLeadingZeros(k: nat, s: string)
    requires AllDigits(s)
    ensures AllDigits(Zeros(k) + s)
    ensures ValueOf(Zeros(k) + s) == ValueOf(s)
    decreases |s|, k
  {
    if s == [] {
      assert Zeros(k) + s == Zeros(k);
      if k > 0 {
        assert Zeros(k)[..k - 1] == Zeros(k - 1);
        ValueOfLeadingZeros(k - 1, s);
        assert Zeros(k - 1) + s == Zeros(k - 1);
      }
    } else {
      var t := Zeros(k) + s;
      assert t[..|t| - 1] == Zeros(k) + s[..|s| - 1];
      ValueOfLeadingZeros(k, s[..|s| - 1]);
    }
  }

  /** Reading back the digits after the prefix gives the count the number
      was minted from. */
  lemma {:induction false} AccountNumberRoundTrip(n: nat)
    ensures AccountNumberFor(n)[..|Prefix|] == Prefix
    ensures ValueOf(AccountNumberFor(n)[|Prefix|..]) == n
  {
    var s := AccountNumberFor(n);
    assert s[|Prefix|..] == Padded(n);
    var d := Digits(n);
    ValueOfDigits(n);
    if |d| < 3 {
      ValueOfLeadingZeros(3 - |d|, d);
    }
  }

  /** Two counts give the same account number only when they are equal. */
  lemma AccountNumberInjective(m: nat, n: nat)
    ensures AccountNumberFor(m) == AccountNumberFor(n) <==> m == n
  {
    if AccountNumberFor(m) == AccountNumberFor(n) {
      AccountNumberRoundTrip(m);
      AccountNumberRoundTrip(n);
    }
  }
}
