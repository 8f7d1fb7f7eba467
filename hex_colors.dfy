/** The `hexToRgba` helper that `lib/statusColors.js`, `lib/statusColors.ts`
    and `src/lib/severityColors.js` each define in the same words: strip the
    '#', trim, double the digits of a three-digit colour, read the three
    channels with `parseInt(…, 16)` and clamp the alpha into [0, 1].

    The result is kept as its four components. A channel that `parseInt`
    cannot read is NaN, here `None`; how JavaScript renders the alpha number
    in the final string is not modelled. */
module HexColors {
  import opened Common

  predicate IsHexDigit(c: char)
  {
    ('0' <= c <= '9') || ('a' <= c <= 'f') || ('A' <= c <= 'F')
  }

  function HexValue(c: char): (v: nat)
    requires IsHexDigit(c)
    ensures v < 16
  {
    if '0' <= c <= '9' then c as int - '0' as int
    else if 'a' <= c <= 'f' then c as int - 'a' as int + 10
    else c as int - 'A' as int + 10
  }

  predicate AllHex(s: string)
  {
    forall i :: 0 <= i < |s| ==> IsHexDigit(s[i])
  }

  /** The number of leading hex digits. */
  function HexRun(s: string): (n: nat)
    ensures n <= |s|
  {
    if s == [] || !IsHexDigit(s[0]) then 0 else HexRun(s[1..]) + 1
  }

  /** `acc` followed by the leading hex digits of `s`, read base 16. */
  function RunValue(s: string, acc: nat): nat
  {
    if s == [] || !IsHexDigit(s[0]) then acc else RunValue(s[1..], acc * 16 + HexValue(s[0]))
  }

  /** Drops leading whitespace. */
  function TrimStart(s: string): string
  {
    if s != [] && IsJsSpace(s[0]) then TrimStart(s[1..]) else s
  }

  /** JavaScript's `parseInt(s, 16)`: leading whitespace, an optional sign
      and an optional "0x" are skipped, then the longest run of hex digits is
      read; without a digit the result is NaN (`None`). */
  function ParseHex(s: string): Option<int>
  {
    var t := TrimStart(s);
    var negative := |t| > 0 && t[0] == '-';
    var unsigned := if |t| > 0 && (t[0] == '-' || t[0] == '+') then t[1..] else t;
    var digits := if StartsWith(unsigned, "0x") || StartsWith(unsigned, "0X") then unsigned[2..] else unsigned;
    if HexRun(digits) == 0 then None
    else if negative then Some(-(RunValue(digits, 0) as int))
    else Some(RunValue(digits, 0))
  }

  /** Two hex digits read as a channel value in 0..255. */
  lemma ParseTwoDigits(s: string)
    requires |s| == 2 && AllHex(s)
    ensures ParseHex(s) == Some(HexValue(s[0]) * 16 + HexValue(s[1]))
    ensures 0 <= HexValue(s[0]) * 16 + HexValue(s[1]) <= 255
  {
    assert !IsJsSpace(s[0]);
    assert TrimStart(s) == s;
    assert !(s[0] == '-' || s[0] == '+');
    assert s[..2][1] == s[1] && !IsHexDigit('x') && !IsHexDigit('X');
    assert !StartsWith(s, "0x") && !StartsWith(s, "0X");
    assert s[1..][1..] == [];
    assert HexRun(s) == 2;
    assert RunValue(s, 0) == RunValue(s[1..], HexValue(s[0]));
    assert RunValue(s[1..], HexValue(s[0])) == RunValue(s[1..][1..], HexValue(s[0]) * 16 + HexValue(s[1]));
  }

  /** A digit-free text is NaN, whatever follows. */
  lemma NoDigitIsNaN(s: string)
    requires s == [] || (!IsJsSpace(s[0]) && !IsHexDigit(s[0]) && s[0] != '-' && s[0] != '+')
    ensures ParseHex(s).None?
  {
  }

  /** JavaScript's `s.slice(a, b)` with 0 <= a <= b. */
  function Slice(s: string, a: nat, b: nat): (r: string)
    requires a <= b
    ensures |r| <= b - a
    ensures b <= |s| ==> r == s[a..b]
  {
    var hi := if b <= |s| then b else |s|;
    var lo := if a <= hi then a else hi;
    s[lo..hi]
  }

  /** A three-digit colour with every digit doubled; any other length as it is. */
  function Expand(h: string): (r: string)
    ensures |h| == 3 ==> r == [h[0], h[0], h[1], h[1], h[2], h[2]]
    ensures |h| != 3 ==> r == h
  {
    if |h| == 3 then [h[0], h[0], h[1], h[1], h[2], h[2]] else h
  }

  /** The digits `hexToRgba` reads: the first '#' removed, trimmed,
      expanded. */
  function Digits(hex: string): string
  {
    Expand(Trim(ReplaceFirst(hex, "#", "")))
  }

  function Clamp01(x: real): (r: real)
    ensures 0.0 <= r <= 1.0
    ensures 0.0 <= x <= 1.0 ==> r == x
    ensures x < 0.0 ==> r == 0.0
    ensures x > 1.0 ==> r == 1.0
  {
    if x < 0.0 then 0.0 else if x > 1.0 then 1.0 else x
  }

  datatype Rgba = Rgba(r: Option<int>, g: Option<int>, b: Option<int>, a: real)

  /** Channel `i` (0 red, 1 green, 2 blue): `parseInt(h.slice(2i, 2i + 2), 16)`. */
  function Channel(h: string, i: nat): Option<int>
  {
    ParseHex(Slice(h, 2 * i, 2 * i + 2))
  }

  function HexToRgba(hex: string, alpha: real): Rgba
  {
    var h := Digits(hex);
    Rgba(Channel(h, 0), Channel(h, 1), Channel(h, 2), Clamp01(alpha))
  }

  /** Channel `i` of six hex digits is the value of its two digits. */
  lemma ChannelOfSix(h: string, i: nat, hi: char, lo: char)
    requires |h| == 6 && AllHex(h) && i < 3
    requires hi == h[2 * i] && lo == h[2 * i + 1]
    ensures IsHexDigit(hi) && IsHexDigit(lo)
    ensures Channel(h, i) == Some(HexValue(hi) * 16 + HexValue(lo))
  {
    var pair := h[2 * i..2 * i + 2];
    assert Slice(h, 2 * i, 2 * i + 2) == pair;
    assert pair[0] == hi && pair[1] == lo;
    ParseTwoDigits(pair);
  }

  /** The alpha always lands in [0, 1], unchanged when it was already there. */
  lemma AlphaClamped(hex: string, alpha: real)
    ensures 0.0 <= HexToRgba(hex, alpha).a <= 1.0
    ensures 0.0 <= alpha <= 1.0 ==> HexToRgba(hex, alpha).a == alpha
  {
  }

  /** The three channels read from six hex digits. */
  lemma ChannelsOfSix(h: string)
    requires |h| == 6 && AllHex(h)
    ensures Channel(h, 0) == Some(HexValue(h[0]) * 16 + HexValue(h[1]))
    ensures Channel(h, 1) == Some(HexValue(h[2]) * 16 + HexValue(h[3]))
    ensures Channel(h, 2) == Some(HexValue(h[4]) * 16 + HexValue(h[5]))
  {
    ChannelOfSix(h, 0, h[0], h[1]);
    ChannelOfSix(h, 1, h[2], h[3]);
    ChannelOfSix(h, 2, h[4], h[5]);
  }

  /** `'#' + six hex digits` gives the three channel values. */
  lemma SixDigits(d: string, alpha: real)
    requires |d| == 6 && AllHex(d)
    ensures var c := HexToRgba("#" + d, alpha);
            && c.r == Some(HexValue(d[0]) * 16 + HexValue(d[1]))
            && c.g == Some(HexValue(d[2]) * 16 + HexValue(d[3]))
            && c.b == Some(HexValue(d[4]) * 16 + HexValue(d[5]))
  {
    ChannelsOfSix(d);
    DigitsOfHash(d);
  }

  /** `'#' + three hex digits` reads each digit doubled, e.g. "#abc" as
      "#aabbcc". */
  lemma ThreeDigits(d: string, alpha: real)
    requires |d| == 3 && AllHex(d)
    ensures var c := HexToRgba("#" + d, alpha);
            && c.r == Some(HexValue(d[0]) * 17)
            && c.g == Some(HexValue(d[1]) * 17)
            && c.b == Some(HexValue(d[2]) * 17)
  {
    ExpandedChannels(d);
    DigitsOfHash(d);
  }

  lemma ExpandedChannels(d: string)
    requires |d| == 3 && AllHex(d)
    ensures Channel(Expand(d), 0) == Some(HexValue(d[0]) * 17)
    ensures Channel(Expand(d), 1) == Some(HexValue(d[1]) * 17)
    ensures Channel(Expand(d), 2) == Some(HexValue(d[2]) * 17)
  {
    var h := Expand(d);
    assert h == [d[0], d[0], d[1], d[1], d[2], d[2]];
    assert AllHex(h);
    ChannelsOfSix(h);
  }

  /** The digits read from `'#' + d`: `d` itself, doubled when it has three. */
  lemma DigitsOfHash(d: string)
    requires AllHex(d)
    ensures Digits("#" + d) == Expand(d)
  {
    HashRemoved(d);
  }

  /** Removing the leading '#' and trimming leaves the digits. */
  lemma HashRemoved(d: string)
    requires AllHex(d)
    ensures Trim(ReplaceFirst("#" + d, "#", "")) == d
  {
    assert StartsWith("#" + d, "#");
    assert ReplaceFirst("#" + d, "#", "") == d;
    if |d| > 0 {
      assert !IsJsSpace(d[0]) && !IsJsSpace(d[|d| - 1]);
    }
  }

  /** '#' followed by six hex digits. */
  predicate IsHexColour(c: string)
  {
    |c| == 7 && c[0] == '#' && AllHex(c[1..])
  }

  lemma HexColourByDigits(c: string)
    requires |c| == 7 && c[0] == '#'
    requires IsHexDigit(c[1]) && IsHexDigit(c[2]) && IsHexDigit(c[3])
    requires IsHexDigit(c[4]) && IsHexDigit(c[5]) && IsHexDigit(c[6])
    ensures IsHexColour(c)
  {
    assert forall i :: 0 <= i < 6 ==> c[1..][i] == c[i + 1];
  }

  /** A '#rrggbb' colour reads back as three channels in 0..255. */
  lemma HexColourParses(c: string, alpha: real)
    requires IsHexColour(c)
    ensures var v := HexToRgba(c, alpha);
            v.r.Some? && v.g.Some? && v.b.Some?
            && 0 <= v.r.value <= 255 && 0 <= v.g.value <= 255 && 0 <= v.b.value <= 255
  {
    assert c == "#" + c[1..];
    ChannelsInRange(c[1..], alpha);
  }

  /** Every channel read from a valid colour is in 0..255. */
  lemma ChannelsInRange(d: string, alpha: real)
    requires (|d| == 6 || |d| == 3) && AllHex(d)
    ensures var c := HexToRgba("#" + d, alpha);
            c.r.Some? && c.g.Some? && c.b.Some?
            && 0 <= c.r.value <= 255 && 0 <= c.g.value <= 255 && 0 <= c.b.value <= 255
  {
    if |d| == 6 {
      SixDigits(d, alpha);
    } else {
      ThreeDigits(d, alpha);
    }
  }
}
