/** The string operations the handlers use: `toString()` of a non-negative integer,
    `padStart`, `slice(-2)`, `startsWith`, `substring` and `includes`, and the reading
    back of a run of decimal digits. */
module Text {

  predicate IsDigit(c: char) {
    '0' <= c <= '9'
  }

  predicate AllDigits(s: string) {
    forall i :: 0 <= i < |s| ==> IsDigit(s[i])
  }

  function DigitChar(d: nat): (c: char)
    requires d < 10
  {
    ('0' as int + d) as char
  }

  function DigitValue(c: char): (d: nat)
    requires IsDigit(c)
  {
    c as int - '0' as int
  }

  function Pow10(k: nat): (p: nat)
    ensures p >= 1
  {
    if k == 0 then 1 else 10 * Pow10(k - 1)
  }

  /** `n.toString()` for a non-negative integer: decimal, no leading zero. */
  function NatToString(n: nat): (s: string)
    ensures |s| >= 1 && AllDigits(s)
    ensures s[0] == '0' ==> n == 0
  {
    if n < 10 then [DigitChar(n)] else NatToString(n / 10) + [DigitChar(n % 10)]
  }

  /** The number a run of decimal digits denotes. */
  function DigitsValue(s: string): nat
    requires AllDigits(s)
  {
    if s == [] then 0 else DigitsValue(s[..|s| - 1]) * 10 + DigitValue(s[|s| - 1])
  }

  /** Reading back what `toString()` wrote gives the number again. */
  lemma {:induction false} NatToStringRoundTrip(n: nat)
    ensures DigitsValue(NatToString(n)) == n
  {
    if n >= 10 {
      NatToStringRoundTrip(n / 10);
      var s := NatToString(n);
      assert s[..|s| - 1] == NatToString(n / 10);
    }
  }

  /** Different numbers are written differently (so ids built from them are distinct). */
  lemma NatToStringInjective(m: nat, n: nat)
    ensures NatToString(m) == NatToString(n) ==> m == n
  {
    NatToStringRoundTrip(m);
    NatToStringRoundTrip(n);
  }

  /** A number below 10^k takes at most k characters. */
  lemma {:induction false} NatToStringLength(n: nat, k: nat)
    requires 1 <= k && n < Pow10(k)
    ensures |NatToString(n)| <= k
  {
    if n >= 10 {
      assert k >= 2;
      NatToStringLength(n / 10, k - 1);
    }
  }

  /** `s.padStart(width, fill)`: s itself when already wide enough, else s prefixed with fills. */
  function PadStart(s: string, width: nat, fill: char): (r: string)
    ensures |r| == if |s| >= width then |s| else width
    ensures r[|r| - |s|..] == s
    ensures forall i :: 0 <= i < |r| - |s| ==> r[i] == fill
  {
    if |s| >= width then s else seq(width - |s|, _ => fill) + s
  }

  /** Leading zeros do not change the value of a run of digits. */
  lemma {:induction false} LeadingZerosValue(z: string, s: string)
    requires forall i :: 0 <= i < |z| ==> z[i] == '0'
    requires AllDigits(s)
    ensures AllDigits(z + s) && DigitsValue(z + s) == DigitsValue(s)
  {
    if s == [] {
      assert z + s == z;
      ZerosValue(z);
    } else {
      var t := z + s;
      assert t[..|t| - 1] == z + s[..|s| - 1];
      LeadingZerosValue(z, s[..|s| - 1]);
    }
  }

  lemma {:induction false} ZerosValue(z: string)
    requires forall i :: 0 <= i < |z| ==> z[i] == '0'
    ensures AllDigits(z) && DigitsValue(z) == 0
  {
    if z != [] {
      ZerosValue(z[..|z| - 1]);
    }
  }

  /** Zero padding keeps the digits and their value. */
  lemma PadZerosValue(s: string, width: nat)
    requires AllDigits(s)
    ensures AllDigits(PadStart(s, width, '0'))
    ensures DigitsValue(PadStart(s, width, '0')) == DigitsValue(s)
  {
    var r := PadStart(s, width, '0');
    var z := r[..|r| - |s|];
    assert r == z + s;
    LeadingZerosValue(z, s);
  }

  /** `n.toString().padStart(width, "0")` for n below 10^width: exactly width digits worth n. */
  lemma PaddedNumber(n: nat, width: nat)
    requires 1 <= width && n < Pow10(width)
    ensures |PadStart(NatToString(n), width, '0')| == width
    ensures AllDigits(PadStart(NatToString(n), width, '0'))
    ensures DigitsValue(PadStart(NatToString(n), width, '0')) == n
  {
    NatToStringLength(n, width);
    PadZerosValue(NatToString(n), width);
    NatToStringRoundTrip(n);
  }

  /** `s.slice(-2)`: the last two characters, or all of a shorter string. */
  function SliceLast2(s: string): (r: string)
  {
    if |s| >= 2 then s[|s| - 2..] else s
  }

  /** The last two characters of `n.toString()` are the two low digits of n. */
  lemma Last2Digits(n: nat)
    requires n >= 10
    ensures |SliceLast2(NatToString(n))| == 2
    ensures AllDigits(SliceLast2(NatToString(n)))
    ensures DigitsValue(SliceLast2(NatToString(n))) == n % 100
  {
    NatToStringStep(n);
    LastDigit(n / 10);
    SliceOfLastTwo(NatToString(n / 10), DigitChar(n % 10));
    TwoDigits((n / 10) % 10, n % 10);
    ModHundred(n);
  }

  lemma NatToStringStep(n: nat)
    requires n >= 10
    ensures NatToString(n) == NatToString(n / 10) + [DigitChar(n % 10)]
  {
  }

  lemma SliceOfLastTwo(h: string, c: char)
    requires |h| >= 1
    ensures SliceLast2(h + [c]) == [h[|h| - 1], c]
  {
  }

  /** Two digit characters read back as a two-digit number. */
  lemma TwoDigits(a: nat, b: nat)
    requires a < 10 && b < 10
    ensures AllDigits([DigitChar(a), DigitChar(b)])
    ensures DigitsValue([DigitChar(a), DigitChar(b)]) == a * 10 + b
  {
    var r := [DigitChar(a), DigitChar(b)];
    assert DigitValue(DigitChar(a)) == a && DigitValue(DigitChar(b)) == b;
    assert r[..1] == [DigitChar(a)] && r[..1][..0] == [];
    assert DigitsValue(r[..1]) == a;
    assert DigitsValue(r) == DigitsValue(r[..1]) * 10 + DigitValue(r[1]);
  }

  lemma ModHundred(n: nat)
    ensures ((n / 10) % 10) * 10 + n % 10 == n % 100
  {
    var q := n / 100;
    var m := n % 100;
    assert n == 100 * q + m;
    assert n / 10 == 10 * q + m / 10;
    assert (n / 10) % 10 == m / 10;
    assert n % 10 == m % 10;
  }

  /** The last character of `n.toString()` is the digit n % 10. */
  lemma LastDigit(n: nat)
    ensures NatToString(n)[|NatToString(n)| - 1] == DigitChar(n % 10)
  {
  }

  predicate StartsWith(s: string, prefix: string) {
    |prefix| <= |s| && s[..|prefix|] == prefix
  }

  /** `s.substring(k)` for k >= 0: the characters from position k on ("" past the end). */
  function Substring(s: string, k: nat): (r: string)
  {
    if k <= |s| then s[k..] else ""
  }

  predicate OccursAt(s: string, sub: string, i: nat) {
    i + |sub| <= |s| && s[i..i + |sub|] == sub
  }

  /** `s.includes(sub)`, which is how the store's `contains` filter is modelled. */
  predicate Contains(s: string, sub: string) {
    exists i: nat :: i <= |s| && OccursAt(s, sub, i)
  }
}
