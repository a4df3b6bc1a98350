/** The Python string and integer operations the remittance driver applies to
    its values, with CPython's semantics written out. */
module PyBuiltins {

  function Min(a: int, b: int): int { if a <= b then a else b }

  function Max(a: int, b: int): int { if a >= b then a else b }

  /** `s[i:j]` for non-negative bounds: Python clamps both bounds to the length
      of the string and yields the empty string when they cross. */
  function Slice(s: string, i: nat, j: nat): (r: string)
    ensures |r| == Max(0, Min(j, |s|) - Min(i, |s|))
    ensures forall k :: 0 <= k < |r| ==> i + k < |s| && r[k] == s[i + k]
  {
    var lo := Min(i, |s|);
    s[lo..Max(lo, Min(j, |s|))]
  }

  /** Two adjacent slices of a string join into the slice that spans both,
      whatever the length of the string. */
  lemma SliceJoin(s: string, i: nat, j: nat, k: nat)
    requires i <= j <= k
    ensures Slice(s, i, j) + Slice(s, j, k) == Slice(s, i, k)
    ensures Slice(s, 0, k) == s[..Min(k, |s|)]
  {
    var lo, mid, hi := Min(i, |s|), Min(j, |s|), Min(k, |s|);
    assert Slice(s, i, j) == s[lo..mid] && Slice(s, j, k) == s[mid..hi];
    assert s[lo..mid] + s[mid..hi] == s[lo..hi];
  }

  function Zeros(n: nat): (r: string)
    ensures |r| == n && forall k :: 0 <= k < n ==> r[k] == '0'
  {
    seq(n, _ => '0')
  }

  predicate HasSign(s: string)
  {
    |s| > 0 && (s[0] == '+' || s[0] == '-')
  }

  /** `s.zfill(width)`: pads with '0' on the left up to `width`, keeping a
      leading sign in front of the padding; a string already `width` long or
      longer is returned as it is. */
  function ZFill(s: string, width: nat): (r: string)
    ensures |r| == Max(|s|, width)
    ensures |s| >= width ==> r == s
    ensures |s| < width && !HasSign(s) ==>
      r[width - |s|..] == s && forall k :: 0 <= k < width - |s| ==> r[k] == '0'
    ensures |s| < width && HasSign(s) ==>
      r[0] == s[0] && r[width - |s| + 1..] == s[1..] &&
      forall k :: 1 <= k <= width - |s| ==> r[k] == '0'
  {
    if |s| >= width then s
    else if HasSign(s) then [s[0]] + Zeros(width - |s|) + s[1..]
    else Zeros(width - |s|) + s
  }

  predicate IsDigit(c: char) { '0' <= c <= '9' }

  function DigitChar(d: nat): (c: char)
    requires d < 10
    ensures IsDigit(c)
  {
    ('0' as int + d) as char
  }

  function DigitValue(c: char): nat
  {
    if IsDigit(c) then (c as int - '0' as int) as nat else 0
  }

  /** `str(n)` for a non-negative integer: its decimal digits, most significant
      first, with no leading zero except for zero itself. */
  function NatToDecimal(n: nat): (s: string)
    ensures |s| >= 1 && (n < 10 ==> |s| == 1)
    ensures forall k :: 0 <= k < |s| ==> IsDigit(s[k])
    ensures s[0] == '0' <==> n == 0
  {
    if n < 10 then [DigitChar(n)]
    else NatToDecimal(n / 10) + [DigitChar(n % 10)]
  }

  /** Reads a string of decimal digits back as the number it denotes. */
  function DecimalToNat(s: string): nat
  {
    if s == [] then 0
    else DecimalToNat(s[..|s| - 1]) * 10 + DigitValue(s[|s| - 1])
  }

  /** Reading back the text of `str(n)` yields `n`: a counter written into a
      footer field is recoverable from that field. */
  lemma {:induction false} DecimalRoundTrip(n: nat)
    ensures DecimalToNat(NatToDecimal(n)) == n
  {
    var s := NatToDecimal(n);
    if n < 10 {
      assert s[..|s| - 1] == [];
    } else {
      DecimalRoundTrip(n / 10);
      assert s[..|s| - 1] == NatToDecimal(n / 10);
    }
  }
}
