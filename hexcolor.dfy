/**
 * Colour strings of the design configuration (`hex_para_rgb`): strip every
 * leading `#`, then read the slices `[0:2]`, `[2:4]` and `[4:6]` as base-16
 * integers. A canonical serialiser gives the inverse direction.
 */
module HexColor {

  import opened Wrappers

  type Byte = x: int | 0 <= x < 256

  /** A colour as the `(R, G, B)` tuple handed to the imaging library. */
  datatype Rgb = Rgb(r: Byte, g: Byte, b: Byte)

  predicate IsHexDigit(c: char) {
    ('0' <= c <= '9') || ('a' <= c <= 'f') || ('A' <= c <= 'F')
  }

  predicate AllHex(s: string) {
    forall i :: 0 <= i < |s| ==> IsHexDigit(s[i])
  }

  /** The first `n` characters of `t` (all of them if it is shorter) are hex digits. */
  predicate LeadingHex(t: string, n: nat) {
    forall i :: 0 <= i < |t| && i < n ==> IsHexDigit(t[i])
  }

  /** The value of one hex digit, in either case. */
  function DigitValue(c: char): (v: nat)
    requires IsHexDigit(c)
    ensures v < 16
  {
    if '0' <= c <= '9' then c as int - '0' as int
    else if 'a' <= c <= 'f' then c as int - 'a' as int + 10
    else c as int - 'A' as int + 10
  }

  /** The lower-case digit for a value below 16. */
  function DigitChar(v: nat): (c: char)
    requires v < 16
    ensures IsHexDigit(c) && DigitValue(c) == v
    ensures !('A' <= c <= 'F')
  {
    if v < 10 then ('0' as int + v) as char else ('a' as int + v - 10) as char
  }

  /** The canonical (lower-case) spelling of a hex digit. */
  function LowerDigit(c: char): (d: char)
    requires IsHexDigit(c)
    ensures IsHexDigit(d) && DigitValue(d) == DigitValue(c)
    ensures !('A' <= d <= 'F')
  {
    DigitChar(DigitValue(c))
  }

  function Pow16(n: nat): (p: nat)
    ensures p >= 1
  {
    if n == 0 then 1 else 16 * Pow16(n - 1)
  }

  /** The value of a string of hex digits, most significant first. */
  function HexValue(s: string): (v: nat)
    requires AllHex(s)
    ensures v < Pow16(|s|)
  {
    if s == [] then 0 else 16 * HexValue(s[..|s| - 1]) + DigitValue(s[|s| - 1])
  }

  /** Python's `int(s, 16)`; `None` stands for the `ValueError` raised for an empty or non-hex string. */
  function ParseHex(s: string): (v: Option<nat>)
    ensures v.Some? <==> s != [] && AllHex(s)
    ensures v.Some? ==> v.value < Pow16(|s|)
  {
    if s != [] && AllHex(s) then Some(HexValue(s)) else None
  }

  /** Python's `s.lstrip('#')`. */
  function LStripHash(s: string): (t: string)
    ensures |t| <= |s| && t == s[|s| - |t|..]
    ensures t == [] || t[0] != '#'
    ensures forall i :: 0 <= i < |s| - |t| ==> s[i] == '#'
  {
    if s != [] && s[0] == '#' then LStripHash(s[1..]) else s
  }

  /** Python's slice `s[i:j]` for `0 <= i <= j`: clamped to the end of `s`. */
  function Slice(s: string, i: nat, j: nat): (t: string)
    requires i <= j
    ensures |t| <= j - i
    ensures |s| >= j ==> t == s[i..j]
  {
    var hi := if j <= |s| then j else |s|;
    var lo := if i <= hi then i else hi;
    s[lo..hi]
  }

  /** The three slices `[0:2]`, `[2:4]`, `[4:6]` all parse exactly when five or six hex digits lead. */
  lemma SlicesParse(t: string)
    ensures (ParseHex(Slice(t, 0, 2)).Some? && ParseHex(Slice(t, 2, 4)).Some? && ParseHex(Slice(t, 4, 6)).Some?)
        <==> |t| >= 5 && LeadingHex(t, 6)
  {
    SliceDigits(t, 0);
    SliceDigits(t, 2);
    SliceDigits(t, 4);
  }

  /** `int(s, 16)` of one hex digit. */
  lemma OneDigit(s: string)
    requires |s| == 1 && AllHex(s)
    ensures ParseHex(s) == Some(DigitValue(s[0]))
  {
    assert s[..0] == [];
  }

  /** `int(s, 16)` of two hex digits. */
  lemma TwoDigits(s: string)
    requires |s| == 2 && AllHex(s)
    ensures ParseHex(s) == Some(PairValue(s[0], s[1]))
  {
    assert HexValue(s[..1]) == DigitValue(s[0]) by {
      assert s[..1][..0] == [];
    }
    assert s[..|s| - 1] == s[..1];
  }

  /** What `int(t[i:i+2], 16)` gives, read off the characters at `i` and `i + 1`. */
  lemma SliceDigits(t: string, i: nat)
    ensures var p := ParseHex(Slice(t, i, i + 2));
      && (p.Some? <==> i < |t| && IsHexDigit(t[i]) && (i + 1 < |t| ==> IsHexDigit(t[i + 1])))
      && (p.Some? && i + 1 < |t| ==> p.value == PairValue(t[i], t[i + 1]))
      && (p.Some? && i + 1 == |t| ==> p.value == DigitValue(t[i]))
  {
    var s := Slice(t, i, i + 2);
    if i + 1 < |t| {
      assert s == t[i..i + 2];
      assert s[0] == t[i] && s[1] == t[i + 1];
      if AllHex(s) {
        TwoDigits(s);
      }
    } else if i + 1 == |t| {
      assert s == t[i..i + 1];
      assert s[0] == t[i];
      if AllHex(s) {
        OneDigit(s);
      }
    } else {
      assert s == [];
    }
  }

  /**
   * The slice `[i:i+2]` read as a base-16 integer: two hex digits give their
   * byte, a lone hex digit at the end of the string gives its value, and
   * anything else (a non-hex character, or nothing left) is the `ValueError`.
   */
  function Component(t: string, i: nat): (v: Option<Byte>)
    ensures v.Some? <==> i < |t| && IsHexDigit(t[i]) && (i + 1 < |t| ==> IsHexDigit(t[i + 1]))
    ensures v.Some? && i + 1 < |t| ==> v.value == PairValue(t[i], t[i + 1])
    ensures v.Some? && i + 1 == |t| ==> v.value == DigitValue(t[i])
  {
    var p := ParseHex(Slice(t, i, i + 2));
    SliceDigits(t, i);
    if p.Some? then Some(p.value) else None
  }

  /** The byte written by the hex digits `hi` and `lo`. */
  function PairValue(hi: char, lo: char): (v: Byte)
    requires IsHexDigit(hi) && IsHexDigit(lo)
  {
    16 * DigitValue(hi) + DigitValue(lo)
  }

  /** With six hex digits, each slice is the pair of digits it covers. */
  lemma SixDigits(t: string)
    requires |t| >= 6 && LeadingHex(t, 6)
    ensures Component(t, 0) == Some(PairValue(t[0], t[1]))
    ensures Component(t, 2) == Some(PairValue(t[2], t[3]))
    ensures Component(t, 4) == Some(PairValue(t[4], t[5]))
  {
    assert IsHexDigit(t[0]) && IsHexDigit(t[1]) && IsHexDigit(t[2]);
    assert IsHexDigit(t[3]) && IsHexDigit(t[4]) && IsHexDigit(t[5]);
  }

  /**
   * `hex_para_rgb`. `None` stands for the `ValueError` that `int(..., 16)`
   * raises when one of the three slices is empty or holds a non-hex character.
   */
  function HexToRgb(cor_hex: string): (rgb: Option<Rgb>)
    ensures var t := LStripHash(cor_hex);
      rgb.Some? <==> |t| >= 5 && LeadingHex(t, 6)
    ensures var t := LStripHash(cor_hex);
      |t| >= 6 && LeadingHex(t, 6) ==>
        rgb == Some(Rgb(PairValue(t[0], t[1]), PairValue(t[2], t[3]), PairValue(t[4], t[5])))
    ensures var t := LStripHash(cor_hex);
      |t| == 5 && LeadingHex(t, 6) ==>
        rgb == Some(Rgb(PairValue(t[0], t[1]), PairValue(t[2], t[3]), DigitValue(t[4])))
  {
    HexToRgbOf(LStripHash(cor_hex))
  }

  /**
   * The tuple of the three slices of an already stripped string: there is one
   * exactly when five hex digits lead and a sixth character, if any, is one too.
   */
  function HexToRgbOf(t: string): (rgb: Option<Rgb>)
    ensures rgb.Some? <==> |t| >= 5 && LeadingHex(t, 6)
    ensures rgb.Some? && |t| >= 6 ==> rgb.value == Rgb(PairValue(t[0], t[1]), PairValue(t[2], t[3]), PairValue(t[4], t[5]))
    ensures rgb.Some? && |t| == 5 ==> rgb.value == Rgb(PairValue(t[0], t[1]), PairValue(t[2], t[3]), DigitValue(t[4]))
  {
    var r, g, b := Component(t, 0), Component(t, 2), Component(t, 4);
    assert |t| >= 5 && LeadingHex(t, 6) ==>
      IsHexDigit(t[0]) && IsHexDigit(t[1]) && IsHexDigit(t[2]) && IsHexDigit(t[3]) && IsHexDigit(t[4]);
    if r.Some? && g.Some? && b.Some? then Some(Rgb(r.value, g.value, b.value)) else None
  }

  /** `#` followed by exactly six hex digits, in either case. */
  lemma DigitsColor(s: string)
    requires |s| == 7 && s[0] == '#'
    requires forall i :: 1 <= i < 7 ==> IsHexDigit(s[i])
    ensures HexToRgb(s) == Some(Rgb(PairValue(s[1], s[2]), PairValue(s[3], s[4]), PairValue(s[5], s[6])))
  {
    var t := s[1..];
    NoLeadingHash(t);
    assert LStripHash(s) == t;
    assert LeadingHex(t, 6);
  }

  /** `#` and six given hex digits spell the three bytes of their pairs. */
  lemma SpelledColor(d0: char, d1: char, d2: char, d3: char, d4: char, d5: char)
    requires IsHexDigit(d0) && IsHexDigit(d1) && IsHexDigit(d2)
    requires IsHexDigit(d3) && IsHexDigit(d4) && IsHexDigit(d5)
    ensures HexToRgb(['#', d0, d1, d2, d3, d4, d5]) == Some(Rgb(PairValue(d0, d1), PairValue(d2, d3), PairValue(d4, d5)))
  {
    DigitsColor(['#', d0, d1, d2, d3, d4, d5]);
  }

  /** The canonical `#rrggbb` spelling of a colour. */
  function RgbToHex(c: Rgb): (s: string)
    ensures |s| == 7 && s[0] == '#' && AllHex(s[1..])
  {
    ['#', DigitChar(c.r / 16), DigitChar(c.r % 16), DigitChar(c.g / 16), DigitChar(c.g % 16),
     DigitChar(c.b / 16), DigitChar(c.b % 16)]
  }

  /** Every colour survives serialising and parsing back. */
  lemma RgbRoundTrip(c: Rgb)
    ensures HexToRgb(RgbToHex(c)) == Some(c)
  {
    var s := RgbToHex(c);
    assert LStripHash(s) == s[1..] by {
      NoLeadingHash(s[1..]);
    }
    ByteDigits(c.r);
    ByteDigits(c.g);
    ByteDigits(c.b);
  }

  /** A byte is written back by its two digits. */
  lemma ByteDigits(v: Byte)
    ensures PairValue(DigitChar(v / 16), DigitChar(v % 16)) == v
  {
  }

  /** `lstrip('#')` leaves a string that does not start with `#` as it is. */
  lemma NoLeadingHash(u: string)
    requires u == [] || u[0] != '#'
    ensures LStripHash(u) == u
  {
  }

  /** A byte written from two hex digits is written back as the same digits in lower case. */
  lemma PairRoundTrip(hi: char, lo: char)
    requires IsHexDigit(hi) && IsHexDigit(lo)
    ensures var v := PairValue(hi, lo);
      DigitChar(v / 16) == LowerDigit(hi) && DigitChar(v % 16) == LowerDigit(lo)
  {
  }

  /** The canonical spelling of six hex digits: `#` and the digits in lower case. */
  function Canonical6(t: string): (s: string)
    requires |t| >= 6 && LeadingHex(t, 6)
    ensures |s| == 7 && s[0] == '#'
    ensures forall i :: 0 <= i < 6 ==> IsHexDigit(s[i + 1]) && DigitValue(s[i + 1]) == DigitValue(t[i]) && !('A' <= s[i + 1] <= 'F')
  {
    ['#', LowerDigit(t[0]), LowerDigit(t[1]), LowerDigit(t[2]), LowerDigit(t[3]), LowerDigit(t[4]), LowerDigit(t[5])]
  }

  /**
   * Parsing a colour with six hex digits after its leading `#`s, in either
   * case, and serialising it again gives those six digits in lower case.
   */
  lemma HexRoundTrip(cor_hex: string)
    requires var t := LStripHash(cor_hex); |t| >= 6 && LeadingHex(t, 6)
    ensures HexToRgb(cor_hex).Some?
    ensures RgbToHex(HexToRgb(cor_hex).value) == Canonical6(LStripHash(cor_hex))
  {
    var t := LStripHash(cor_hex);
    PairRoundTrip(t[0], t[1]);
    PairRoundTrip(t[2], t[3]);
    PairRoundTrip(t[4], t[5]);
  }

  /** Characters after the sixth digit are ignored. */
  lemma TrailingIgnored(cor_hex: string)
    requires var t := LStripHash(cor_hex); |t| >= 6 && LeadingHex(t, 6)
    ensures var t := LStripHash(cor_hex); HexToRgb(cor_hex) == HexToRgb(t[..6])
  {
    var t := LStripHash(cor_hex);
    var u := t[..6];
    assert u[0] == t[0] && u[1] == t[1] && u[2] == t[2] && u[3] == t[3] && u[4] == t[4] && u[5] == t[5];
    SixStripped(u);
  }

  /** Six hex digits alone are read as the colour they spell. */
  lemma SixStripped(u: string)
    requires |u| == 6 && LeadingHex(u, 6)
    ensures HexToRgb(u) == Some(Rgb(PairValue(u[0], u[1]), PairValue(u[2], u[3]), PairValue(u[4], u[5])))
  {
    NoLeadingHash(u);
  }

  /** `n` copies of `#`. */
  function Hashes(n: nat): (s: string)
    ensures |s| == n && forall i :: 0 <= i < n ==> s[i] == '#'
  {
    if n == 0 then [] else ['#'] + Hashes(n - 1)
  }

  /** `lstrip` removes every leading `#`, so extra ones change nothing. */
  lemma {:induction false} LeadingHashes(cor_hex: string, n: nat)
    ensures LStripHash(Hashes(n) + cor_hex) == LStripHash(cor_hex)
    ensures HexToRgb(Hashes(n) + cor_hex) == HexToRgb(cor_hex)
  {
    var s := Hashes(n) + cor_hex;
    if n > 0 {
      assert s[0] == '#' && s[1..] == Hashes(n - 1) + cor_hex;
      LeadingHashes(cor_hex, n - 1);
    } else {
      assert s == cor_hex;
    }
  }
}
