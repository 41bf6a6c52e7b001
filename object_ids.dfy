/** MongoDB ObjectIDs: 12-byte identifiers written as 24 hexadecimal digits.
    `FromHex` is what `primitive.ObjectIDFromHex` accepts (exactly 24 digits,
    either letter case); `Hex` is `ObjectID.Hex()` (24 lower-case digits). */
module ObjectIds {
  import opened Wrappers

  /** Number of hex digits in an ObjectID's text form. */
  const HexLength: nat := 24

  /** 16^24 = 2^96: one more than the largest 12-byte value. */
  const IdLimit: nat := Pow16(HexLength)

  type ObjectId = n: nat | n < IdLimit

  /** `primitive.NilObjectID`, the all-zero identifier. */
  const NilObjectId: ObjectId := 0

  predicate IsHexDigit(c: char) {
    '0' <= c <= '9' || 'a' <= c <= 'f' || 'A' <= c <= 'F'
  }

  function DigitValue(c: char): (d: nat)
    requires IsHexDigit(c)
    ensures d < 16
  {
    if '0' <= c <= '9' then c as nat - '0' as nat
    else if 'a' <= c <= 'f' then c as nat - 'a' as nat + 10
    else c as nat - 'A' as nat + 10
  }

  /** The lower-case digit for `d`. */
  function HexChar(d: nat): (c: char)
    requires d < 16
    ensures IsHexDigit(c) && DigitValue(c) == d
    ensures !('A' <= c <= 'F')
  {
    if d < 10 then ('0' as nat + d) as char else ('a' as nat + d - 10) as char
  }

  predicate AllHexDigits(s: string) {
    forall i :: 0 <= i < |s| ==> IsHexDigit(s[i])
  }

  predicate ValidHex(s: string) {
    |s| == HexLength && AllHexDigits(s)
  }

  function Pow16(n: nat): (r: nat)
    ensures r > 0
  {
    if n == 0 then 1 else 16 * Pow16(n - 1)
  }

  /** The number a digit string denotes, most significant digit first. */
  function HexValue(s: string): (v: nat)
    requires AllHexDigits(s)
    ensures v < Pow16(|s|)
  {
    if s == [] then 0 else HexValue(s[..|s| - 1]) * 16 + DigitValue(s[|s| - 1])
  }

  /** `width` lower-case digits of `n` modulo 16^width. */
  function HexDigits(n: nat, width: nat): (s: string)
    ensures |s| == width && AllHexDigits(s)
    ensures forall i :: 0 <= i < |s| ==> !('A' <= s[i] <= 'F')
  {
    if width == 0 then "" else HexDigits(n / 16, width - 1) + [HexChar(n % 16)]
  }

  /** `primitive.ObjectIDFromHex`: fails unless the text is exactly 24 hex digits. */
  function FromHex(s: string): (r: Option<ObjectId>)
    ensures r.Some? <==> ValidHex(s)
  {
    if !ValidHex(s) then None
    else
      Some(HexValue(s))
  }

  /** `ObjectID.Hex()`. */
  function Hex(id: ObjectId): (s: string)
    ensures ValidHex(s)
  {
    HexDigits(id, HexLength)
  }

  lemma {:induction false} HexValueOfDigits(n: nat, width: nat)
    requires n < Pow16(width)
    ensures HexValue(HexDigits(n, width)) == n
  {
    if width > 0 {
      var s := HexDigits(n, width);
      assert s[..|s| - 1] == HexDigits(n / 16, width - 1);
      HexValueOfDigits(n / 16, width - 1);
    }
  }

  /** The text an identifier is rendered as (a response's `id`) parses back to it. */
  lemma HexRoundTrip(id: ObjectId)
    ensures FromHex(Hex(id)) == Some(id)
  {
    HexValueOfDigits(id, HexLength);
  }
}
