/**
 * The text form of a UUID, as `str(uuid.uuid4())` writes it: the 128-bit
 * number as 32 lower-case hexadecimal digits, most significant first, in
 * groups of 8, 4, 4, 4 and 12 joined by hyphens (section 3 of RFC 4122).
 * Drawing the random number is left to the caller.
 */
module UuidFormat {
  import opened Wrappers

  function Pow16(n: nat): (r: nat)
    ensures r >= 1
  {
    if n == 0 then 1 else 16 * Pow16(n - 1)
  }

  /** A 128-bit number. */
  type Uuid = u: nat | u < Pow16(32)

  predicate IsHexDigit(c: char) {
    '0' <= c <= '9' || 'a' <= c <= 'f'
  }

  function HexChar(d: nat): (c: char)
    requires d < 16
    ensures IsHexDigit(c)
  {
    if d < 10 then ('0' as int + d) as char else ('a' as int + d - 10) as char
  }

  function DigitValue(c: char): (d: nat)
    requires IsHexDigit(c)
    ensures d < 16
    ensures HexChar(d) == c
  {
    if c <= '9' then c as int - '0' as int else c as int - 'a' as int + 10
  }

  /** The last `count` hexadecimal digits of n, zero-padded, most significant first. */
  function HexDigits(n: nat, count: nat): (s: string)
    ensures |s| == count
    ensures forall i :: 0 <= i < |s| ==> IsHexDigit(s[i])
  {
    if count == 0 then "" else HexDigits(n / 16, count - 1) + [HexChar(n % 16)]
  }

  /** The number a string of hexadecimal digits denotes. */
  function HexValue(s: string): (n: nat)
    requires forall i :: 0 <= i < |s| ==> IsHexDigit(s[i])
    ensures n < Pow16(|s|)
  {
    if s == [] then 0 else 16 * HexValue(s[..|s| - 1]) + DigitValue(s[|s| - 1])
  }

  /** Reading back the digits of a number that fits gives the number. */
  lemma {:induction false} HexRoundTrip(n: nat, count: nat)
    requires n < Pow16(count)
    ensures HexValue(HexDigits(n, count)) == n
  {
    if count > 0 {
      HexRoundTrip(n / 16, count - 1);
      var s := HexDigits(n, count);
      assert s[..|s| - 1] == HexDigits(n / 16, count - 1);
    }
  }

  predicate IsHyphenPosition(i: int) {
    i == 8 || i == 13 || i == 18 || i == 23
  }

  /** `str(u)`: hyphens at positions 8, 13, 18 and 23, lower-case hex digits everywhere else. */
  function UuidText(u: Uuid): (s: string)
    ensures |s| == 36
    ensures forall i :: 0 <= i < 36 ==> (s[i] == '-' <==> IsHyphenPosition(i))
    ensures forall i :: 0 <= i < 36 && !IsHyphenPosition(i) ==> IsHexDigit(s[i])
  {
    var h := HexDigits(u, 32);
    h[..8] + "-" + h[8..12] + "-" + h[12..16] + "-" + h[16..20] + "-" + h[20..]
  }

  /** The reading of the text form: the digits with the hyphens taken out. */
  function ParseUuidText(s: string): (r: Option<Uuid>)
  {
    if |s| != 36 || exists i :: 0 <= i < 36 && (s[i] == '-') != IsHyphenPosition(i) then None
    else if exists i :: 0 <= i < 36 && !IsHyphenPosition(i) && !IsHexDigit(s[i]) then None
    else
      var h := s[..8] + s[9..13] + s[14..18] + s[19..23] + s[24..];
      assert forall i :: 0 <= i < |h| ==> IsHexDigit(h[i]) by {
        forall i | 0 <= i < |h| ensures IsHexDigit(h[i]) {
          var j := if i < 8 then i else if i < 12 then i + 1 else if i < 16 then i + 2 else if i < 20 then i + 3 else i + 4;
          assert h[i] == s[j] && !IsHyphenPosition(j);
        }
      }
      Some(HexValue(h))
  }

  /** The text form is read back as the number it was made from, so distinct numbers give distinct texts. */
  lemma UuidTextRoundTrip(u: Uuid)
    ensures ParseUuidText(UuidText(u)) == Some(u)
  {
    var h := HexDigits(u, 32);
    var s := UuidText(u);
    assert s == h[..8] + "-" + h[8..12] + "-" + h[12..16] + "-" + h[16..20] + "-" + h[20..];
    assert s[..8] == h[..8];
    assert s[9..13] == h[8..12];
    assert s[14..18] == h[12..16];
    assert s[19..23] == h[16..20];
    assert s[24..] == h[20..];
    assert h == h[..8] + h[8..12] + h[12..16] + h[16..20] + h[20..];
    HexRoundTrip(u, 32);
  }
}
