/** Go's `strconv.Atoi` on a 64-bit platform: an optional `+` or `-`, then one or
    more ASCII decimal digits, and a value that fits in an `int` (64 bits). */
module Strconv {
  import opened Wrappers

  const MinInt: int := -0x8000_0000_0000_0000
  const MaxInt: int := 0x7fff_ffff_ffff_ffff

  predicate IsDigit(c: char) {
    '0' <= c <= '9'
  }

  predicate AllDigits(s: string) {
    forall i :: 0 <= i < |s| ==> IsDigit(s[i])
  }

  /** The number a decimal digit string denotes, most significant digit first. */
  function DecimalValue(s: string): nat
    requires AllDigits(s)
  {
    if s == [] then 0 else DecimalValue(s[..|s| - 1]) * 10 + (s[|s| - 1] as nat - '0' as nat)
  }

  /** The digits of `s` once a leading sign is removed. */
  function Unsigned(s: string): string {
    if |s| > 0 && (s[0] == '-' || s[0] == '+') then s[1..] else s
  }

  predicate WellFormed(s: string) {
    Unsigned(s) != [] && AllDigits(Unsigned(s))
  }

  /** The value of a well-formed numeral, negated when it starts with `-`. */
  function SignedValue(s: string): int
    requires WellFormed(s)
  {
    var v: int := DecimalValue(Unsigned(s));
    if s[0] == '-' then -v else v
  }

  /** `strconv.Atoi`: the value of a sign-and-digits text, or an error for
      anything else and for values outside the 64-bit range. */
  function Atoi(s: string): (r: Option<int>)
    ensures r.Some? ==> WellFormed(s) && MinInt <= r.value <= MaxInt
  {
    if !WellFormed(s) then None
    else if MinInt <= SignedValue(s) <= MaxInt then Some(SignedValue(s))
    else None
  }

  /** Canonical decimal digits of `n` (no leading zeros). */
  function Digits(n: nat): (s: string)
    ensures s != [] && AllDigits(s)
  {
    if n < 10 then [('0' as nat + n) as char] else Digits(n / 10) + [('0' as nat + n % 10) as char]
  }

  /** `strconv.Itoa`: the canonical text of an integer, with `-` for negatives. */
  function Itoa(n: int): (s: string)
  {
    if n < 0 then "-" + Digits(-n) else Digits(n)
  }

  lemma {:induction false} DigitsValue(n: nat)
    ensures DecimalValue(Digits(n)) == n
  {
    if n >= 10 {
      var s := Digits(n);
      assert s[..|s| - 1] == Digits(n / 10);
      DigitsValue(n / 10);
    }
  }

  /** Every in-range integer written the canonical way is accepted and read back. */
  lemma AtoiItoa(n: int)
    requires MinInt <= n <= MaxInt
    ensures Atoi(Itoa(n)) == Some(n)
  {
    var m: nat := if n < 0 then -n else n;
    var d := Digits(m);
    DigitsValue(m);
    assert d[0] != '-' && d[0] != '+';
    if n < 0 {
      assert Itoa(n) == "-" + d;
      assert Unsigned("-" + d) == d;
    } else {
      assert Itoa(n) == d;
      assert Unsigned(d) == d;
    }
  }
}
