/**
 * Lower-case hexadecimal text as Python's format specs produce it
 * (`f"{n:08x}"`, `f"{b:02x}"`, `bytes.hex()`) and its reading back.
 */
module HexFormat {
  import opened Text

  function Pow16(k: nat): (r: nat)
    ensures r >= 1
  {
    if k == 0 then 1 else 16 * Pow16(k - 1)
  }

  /** The lower-case digit for a value below 16. */
  function DigitChar(d: nat): (c: char)
    requires d < 16
    ensures IsHexDigit(c) && !('A' <= c <= 'F')
  {
    if d < 10 then '0' + d as char else 'a' + (d - 10) as char
  }

  /** The value of one hexadecimal digit, either case. */
  function DigitValue(c: char): (d: nat)
    requires IsHexDigit(c)
    ensures d < 16
  {
    if '0' <= c <= '9' then (c - '0') as nat
    else if 'a' <= c <= 'f' then (c - 'a') as nat + 10
    else (c - 'A') as nat + 10
  }

  lemma DigitRoundTrip(d: nat)
    requires d < 16
    ensures DigitValue(DigitChar(d)) == d
  {
  }

  /** The value of a string of hexadecimal digits, most significant first. */
  function HexValue(s: string): nat
    requires AllHex(s)
  {
    if s == [] then 0 else 16 * HexValue(s[..|s| - 1]) + DigitValue(s[|s| - 1])
  }

  /** The shortest lower-case hexadecimal spelling of n (`"0"` for zero). */
  function Digits(n: nat): (s: string)
    ensures 1 <= |s| && AllHex(s) && LowerHex(s)
  {
    if n < 16 then [DigitChar(n)] else Digits(n / 16) + [DigitChar(n % 16)]
  }

  /** k zero digits: the padding of a zero-filled format. */
  function Zeros(k: nat): (z: string)
    ensures |z| == k && forall i :: 0 <= i < k ==> z[i] == '0'
  {
    seq(k, _ => '0')
  }

  /** `f"{n:0{width}x}"`: the digits of n, zero-padded on the left to at least `width`. */
  function FormatHex(n: nat, width: nat): (s: string)
    ensures AllHex(s) && LowerHex(s) && |s| >= width
  {
    var d := Digits(n);
    if |d| >= width then d else Zeros(width - |d|) + d
  }

  lemma {:induction false} HexValueDigits(n: nat)
    ensures HexValue(Digits(n)) == n
  {
    if n >= 16 {
      HexValueDigits(n / 16);
      var d := Digits(n);
      assert d[..|d| - 1] == Digits(n / 16);
      DigitRoundTrip(n % 16);
    } else {
      DigitRoundTrip(n);
    }
  }

  /** Zero-padding on the left leaves the value unchanged. */
  lemma {:induction false} HexValueLeadingZeros(k: nat, s: string, t: string)
    requires AllHex(s) && t == Zeros(k) + s
    ensures AllHex(t) && HexValue(t) == HexValue(s)
  {
    assert AllHex(t) by {
      forall i | 0 <= i < |t| ensures IsHexDigit(t[i]) {
        if i < k { assert t[i] == '0'; } else { assert t[i] == s[i - k]; }
      }
    }
    if s == [] {
      if k > 0 {
        HexValueLeadingZeros(k - 1, s, t[..|t| - 1]);
      }
    } else {
      HexValueLeadingZeros(k, s[..|s| - 1], t[..|t| - 1]);
    }
  }

  /** Reading back a formatted number gives the number: formatting is injective. */
  lemma FormatHexRoundTrip(n: nat, width: nat)
    ensures HexValue(FormatHex(n, width)) == n
  {
    var d := Digits(n);
    HexValueDigits(n);
    if |d| < width {
      HexValueLeadingZeros(width - |d|, d, FormatHex(n, width));
    }
  }

  lemma FormatHexInjective(m: nat, n: nat, width: nat)
    requires FormatHex(m, width) == FormatHex(n, width)
    ensures m == n
  {
    FormatHexRoundTrip(m, width);
    FormatHexRoundTrip(n, width);
  }

  lemma {:induction false} DigitsLength(n: nat, k: nat)
    requires 1 <= k && n < Pow16(k)
    ensures |Digits(n)| <= k
  {
    if n >= 16 {
      assert Pow16(1) == 16;
      DigitsLength(n / 16, k - 1);
    }
  }

  /** Numbers below 16^width format to exactly `width` digits. */
  lemma FormatHexWidth(n: nat, width: nat)
    requires 1 <= width && n < Pow16(width)
    ensures |FormatHex(n, width)| == width
  {
    DigitsLength(n, width);
  }

  /** `bytes.hex()`, and `f"{b:02x}"` per byte joined without separator. */
  function HexEncode(bytes: seq<nat>): (s: string)
    requires forall i :: 0 <= i < |bytes| ==> bytes[i] < 256
    ensures |s| == 2 * |bytes| && AllHex(s) && LowerHex(s)
  {
    if bytes == [] then ""
    else
      assert Pow16(2) == 256;
      FormatHexWidth(bytes[0], 2);
      FormatHex(bytes[0], 2) + HexEncode(bytes[1..])
  }

  /** `bytes.fromhex` restricted to an even-length run of digits without spaces. */
  function HexDecode(s: string): (bytes: seq<nat>)
    requires |s| % 2 == 0 && AllHex(s)
    ensures |bytes| == |s| / 2
    ensures forall i :: 0 <= i < |bytes| ==> bytes[i] < 256
  {
    if s == [] then [] else [16 * DigitValue(s[0]) + DigitValue(s[1])] + HexDecode(s[2..])
  }

  /** The two digits written for one byte read back as that byte. */
  lemma ByteDigits(b: nat)
    requires b < 256
    ensures var f := FormatHex(b, 2); |f| == 2 && 16 * DigitValue(f[0]) + DigitValue(f[1]) == b
  {
    var f := FormatHex(b, 2);
    assert Pow16(2) == 256;
    FormatHexWidth(b, 2);
    FormatHexRoundTrip(b, 2);
    assert f[..1] == [f[0]];
  }

  lemma {:induction false} HexDecodeEncode(bytes: seq<nat>)
    requires forall i :: 0 <= i < |bytes| ==> bytes[i] < 256
    ensures HexDecode(HexEncode(bytes)) == bytes
  {
    if bytes != [] {
      var f := FormatHex(bytes[0], 2);
      ByteDigits(bytes[0]);
      var e := HexEncode(bytes);
      assert e == f + HexEncode(bytes[1..]);
      assert e[2..] == HexEncode(bytes[1..]);
      HexDecodeEncode(bytes[1..]);
    }
  }
}
