/**
 String helpers with Python's meaning: `str(n)` for integers, `int(s)` for plain
 ASCII digit strings, `%0Nd` padding, slicing with negative indices and the
 substring test `x in s`.
 */
module Text {

  const Digits: string := "0123456789"

  predicate IsDigit(c: char)
  {
    '0' <= c <= '9'
  }

  predicate AllDigits(s: string)
  {
    forall i | 0 <= i < |s| :: IsDigit(s[i])
  }

  /** `str(n)` for a non-negative integer: no leading zeros. */
  function NatToString(n: nat): (r: string)
    ensures |r| >= 1 && AllDigits(r)
    ensures n >= 10 ==> |r| >= 2
    ensures n < 10 <==> |r| == 1
    decreases n
  {
    if n < 10 then [Digits[n]] else NatToString(n / 10) + [Digits[n % 10]]
  }

  /** `str(i)` for any integer. */
  function IntToString(i: int): (r: string)
    ensures |r| >= 1
    ensures i < 0 <==> r[0] == '-'
  {
    if i < 0 then "-" + NatToString(-i) else NatToString(i)
  }

  lemma {:induction false} NatToStringInjective(a: nat, b: nat)
    requires NatToString(a) == NatToString(b)
    ensures a == b
    decreases a
  {
    var sa, sb := NatToString(a), NatToString(b);
    if a >= 10 && b >= 10 {
      assert sa[..|sa| - 1] == NatToString(a / 10);
      assert sb[..|sb| - 1] == NatToString(b / 10);
      NatToStringInjective(a / 10, b / 10);
      assert Digits[a % 10] == sa[|sa| - 1] == Digits[b % 10];
    }
  }

  /** Distinct integers print as distinct strings. */
  lemma IntToStringInjective(a: int, b: int)
    requires IntToString(a) == IntToString(b)
    ensures a == b
  {
    if a < 0 {
      assert IntToString(a)[1..] == NatToString(-a);
      assert IntToString(b)[1..] == NatToString(-b);
      NatToStringInjective(-a, -b);
    } else {
      NatToStringInjective(a, b);
    }
  }

  /** The value of a string of ASCII decimal digits. */
  function DigitsValue(s: string): nat
    requires AllDigits(s)
    decreases |s|
  {
    if s == [] then 0 else 10 * DigitsValue(s[..|s| - 1]) + (s[|s| - 1] - '0') as nat
  }

  lemma {:induction false} DigitsValueOfNatToString(n: nat)
    ensures DigitsValue(NatToString(n)) == n
    decreases n
  {
    if n >= 10 {
      var s := NatToString(n);
      assert s[..|s| - 1] == NatToString(n / 10);
      DigitsValueOfNatToString(n / 10);
    }
  }

  /** Leading zeros do not change the value. */
  lemma {:induction false} DigitsValueLeadingZeros(z: string, s: string)
    requires forall i | 0 <= i < |z| :: z[i] == '0'
    requires AllDigits(s)
    ensures AllDigits(z + s) && DigitsValue(z + s) == DigitsValue(s)
    decreases |s|
  {
    if s == [] {
      assert z + s == z;
      ZerosValue(z);
    } else {
      var t := s[..|s| - 1];
      assert (z + s)[..|z + s| - 1] == z + t;
      DigitsValueLeadingZeros(z, t);
    }
  }

  lemma {:induction false} ZerosValue(z: string)
    requires forall i | 0 <= i < |z| :: z[i] == '0'
    ensures AllDigits(z) && DigitsValue(z) == 0
    decreases |z|
  {
    if z != [] {
      ZerosValue(z[..|z| - 1]);
    }
  }

  function Pow10(w: nat): (r: nat)
    ensures r >= 1
  {
    if w == 0 then 1 else 10 * Pow10(w - 1)
  }

  /** A number below `10^w` prints in at most `w` digits. */
  lemma {:induction false} NatToStringShort(n: nat, w: nat)
    requires 1 <= w && n < Pow10(w)
    ensures |NatToString(n)| <= w
    decreases w
  {
    if n >= 10 {
      assert Pow10(1) == 10;
      assert n / 10 < Pow10(w - 1);
      NatToStringShort(n / 10, w - 1);
    }
  }

  /** `s * n` for a string and a non-negative count. */
  function Repeat(s: string, n: nat): (r: string)
    ensures |r| == |s| * n
    ensures AllDigits(s) ==> AllDigits(r)
  {
    if n == 0 then [] else Repeat(s, n - 1) + s
  }

  /** `"%0*d" % (width, n)`: zero-padded on the left, never truncated. */
  function PadNat(n: nat, width: nat): (r: string)
    ensures AllDigits(r)
    ensures |r| == if |NatToString(n)| < width then width else |NatToString(n)|
    ensures DigitsValue(r) == n
  {
    var s := NatToString(n);
    var z := seq(if |s| < width then width - |s| else 0, _ => '0');
    DigitsValueLeadingZeros(z, s);
    DigitsValueOfNatToString(n);
    z + s
  }

  /** Python's bound for slice index `i` on a sequence of length `len`. */
  function SliceIndex(len: nat, i: int): (r: nat)
    ensures r <= len
    ensures 0 <= i <= len ==> r == i
  {
    if i < 0 then (if len + i < 0 then 0 else len + i)
    else if i > len then len
    else i
  }

  /** `s[i:]` */
  function SliceFrom(s: string, i: int): string
  {
    s[SliceIndex(|s|, i)..]
  }

  /** `s[:j]` */
  function SliceTo(s: string, j: int): string
  {
    s[..SliceIndex(|s|, j)]
  }

  /** `x in s` for strings: `x` occurs as a contiguous substring of `s`. */
  predicate Contains(s: string, x: string)
  {
    exists i | 0 <= i <= |s| - |x| :: OccursAt(s, x, i)
  }

  predicate OccursAt(s: string, x: string, i: int)
  {
    0 <= i <= |s| - |x| && s[i..i + |x|] == x
  }
}
