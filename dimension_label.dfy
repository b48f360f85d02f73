/** The "<width>x<height>" badge drawn next to a selection: where it goes,
    what text it shows, and the commands that paint it. */
module DimensionLabel {
  import opened ColorUnpack
  import opened CoordinateMapper
  import opened DrawTrace

  /** `char dimensions[12]`: room for "99999x99999" and the terminator. */
  const DimensionsBufferSize: nat := 12

  /** Badge size in logical units: five 12-unit glyphs plus 6, and 20 plus 4. */
  const BadgeWidth := (12 * 5) + 6
  const BadgeHeight := 20 + 4
  /** How far left of the selection's right edge the badge starts, when it
      is placed on the right: five glyphs plus 10. */
  const BadgeRightOffset := (12 * 5) + 10
  /** Gap above the selection's top edge, and below its bottom edge. */
  const BadgeAboveOffset := 30
  const BadgeBelowGap := 10
  /** Text position relative to the badge's corner, in device pixels. */
  const TextInsetX := 8
  const TextInsetY := 28
  const FontSize := 13
  const BadgeColor: u32 := 0x4f4f4fFF
  const TextColor: u32 := 0xFFFFFFFF

  // ---------------------------------------------------------------- text

  predicate IsDigit(ch: char) {
    '0' <= ch <= '9'
  }

  predicate AllDigits(s: string) {
    forall i :: 0 <= i < |s| ==> IsDigit(s[i])
  }

  function DigitValue(ch: char): int
    requires IsDigit(ch)
  {
    ch as int - '0' as int
  }

  function DigitChar(d: int): (ch: char)
    requires 0 <= d < 10
    ensures IsDigit(ch) && DigitValue(ch) == d
  {
    (d + '0' as int) as char
  }

  /** Base-10 digits of `n`, most significant first, without leading zeros. */
  function NatToDecimal(n: nat): (s: string)
    ensures 1 <= |s| && AllDigits(s)
    ensures (s[0] == '0') == (n == 0)
    decreases n
  {
    if n < 10 then [DigitChar(n)] else NatToDecimal(n / 10) + [DigitChar(n % 10)]
  }

  /** The number a string of digits denotes. */
  function DecimalValue(s: string): nat
    requires AllDigits(s)
  {
    if s == [] then 0 else DecimalValue(s[..|s| - 1]) * 10 + DigitValue(s[|s| - 1])
  }

  /** Reading back the digits of `n` gives `n`. */
  lemma {:induction false} DecimalRoundTrip(n: nat)
    ensures DecimalValue(NatToDecimal(n)) == n
  {
    if n >= 10 {
      var s := NatToDecimal(n);
      assert s[..|s| - 1] == NatToDecimal(n / 10);
      DecimalRoundTrip(n / 10);
    }
  }

  function Pow10(k: nat): nat {
    if k == 0 then 1 else 10 * Pow10(k - 1)
  }

  /** A number below 10^k has at most k digits. */
  lemma {:induction false} DecimalLength(n: nat, k: nat)
    requires 1 <= k && n < Pow10(k)
    ensures |NatToDecimal(n)| <= k
  {
    if n >= 10 {
      DecimalLength(n / 10, k - 1);
    }
  }

  /** `%i`: a minus sign for negative values, then the digits of the magnitude. */
  function FormatInt(n: int): (s: string)
    ensures 1 <= |s|
    ensures (s[0] == '-') == (n < 0)
    ensures n < 0 ==> AllDigits(s[1..]) && DecimalValue(s[1..]) == -n
    ensures n >= 0 ==> AllDigits(s) && DecimalValue(s) == n
    ensures var digits := if n < 0 then s[1..] else s;
      1 <= |digits| && (digits[0] == '0') == (n == 0)
  {
    if n < 0 then
      DecimalRoundTrip(-n);
      assert ("-" + NatToDecimal(-n))[1..] == NatToDecimal(-n);
      "-" + NatToDecimal(-n)
    else
      DecimalRoundTrip(n);
      NatToDecimal(n)
  }

  /** `snprintf(buffer, size, ...)`: the formatted text, cut to the
      `size - 1` characters that fit before the terminating zero. */
  function Truncate(full: string, size: nat): (s: string)
    requires 1 <= size
    ensures s <= full
    ensures |full| < size ==> s == full
    ensures |full| >= size ==> |s| == size - 1
  {
    if |full| < size then full else full[..size - 1]
  }

  /** `snprintf(dimensions, sizeof(dimensions), "%ix%i", width, height)`. */
  function DimensionText(width: int, height: int): (s: string)
    ensures var full := FormatInt(width) + "x" + FormatInt(height);
      && |s| == (if |full| < DimensionsBufferSize then |full| else DimensionsBufferSize - 1)
      && s == full[..|s|]
  {
    Truncate(FormatInt(width) + "x" + FormatInt(height), DimensionsBufferSize)
  }

  /** Up to five digits each, nothing is cut: the text is the width, an 'x',
      and the height, and both numbers can be read back from it. */
  lemma FiveDigitsFit(width: int, height: int)
    requires 0 <= width <= 99999 && 0 <= height <= 99999
    ensures var s := DimensionText(width, height);
      var w := NatToDecimal(width);
      && s == w + "x" + NatToDecimal(height)
      && s[|w|] == 'x'
      && AllDigits(s[..|w|]) && DecimalValue(s[..|w|]) == width
      && AllDigits(s[|w| + 1..]) && DecimalValue(s[|w| + 1..]) == height
  {
    assert Pow10(5) == 100000;
    DecimalLength(width, 5);
    DecimalLength(height, 5);
    DecimalRoundTrip(width);
    DecimalRoundTrip(height);
    var s := DimensionText(width, height);
    var w := NatToDecimal(width);
    assert s[..|w|] == w;
    assert s[|w| + 1..] == NatToDecimal(height);
  }

  /** Sample texts that fit: the largest five-digit size, and a small one. */
  lemma DimensionTextExamples()
    ensures DimensionText(99999, 99999) == "99999x99999"
    ensures DimensionText(5, 10) == "5x10"
  {
    NinesText();
    assert NatToDecimal(10) == "10";
    assert FormatInt(99999) + "x" + FormatInt(99999) == "99999x99999";
    assert FormatInt(5) + "x" + FormatInt(10) == "5x10";
  }

  /** A sample text that is cut: six characters a side do not fit. */
  lemma DimensionTextCutExample()
    ensures DimensionText(-99999, -99999) == "-99999x-999"
  {
    NinesText();
    assert FormatInt(-99999) + "x" + FormatInt(-99999) == "-99999x-99999";
    assert "-99999x-99999"[..11] == "-99999x-999";
  }

  lemma NinesText()
    ensures NatToDecimal(99999) == "99999"
  {
    assert NatToDecimal(9) == "9";
    assert NatToDecimal(99) == "99";
    assert NatToDecimal(999) == "999";
    assert NatToDecimal(9999) == "9999";
  }

  // ---------------------------------------------------------------- placement

  /** The badge's top-left corner and the text's starting point, device pixels. */
  datatype Placement = Placement(borderX: int, borderY: int, textX: int, textY: int)

  /** Where the badge goes for the output-local box `b` of a selection whose
      drag began at (`anchorX`, `anchorY`). The anchor is compared as it is
      stored, without moving it to the output's coordinates. */
  function PlaceLabel(b: Box, anchorX: int, anchorY: int, scale: int): Placement {
    var borderX := if b.x < anchorX then b.x * scale else (b.x + b.width - BadgeRightOffset) * scale;
    var borderY := if b.y < anchorY then (b.y - BadgeAboveOffset) * scale
                   else (b.y + b.height + BadgeBelowGap) * scale;
    Placement(borderX, borderY, borderX + TextInsetX, borderY + TextInsetY)
  }

  /** The badge's edges against the selection's: left edges aligned when the
      box starts left of the anchor, else the badge ends 4 units inside the
      box's right edge; it ends 6 units above the box's top when the box
      starts above the anchor, else it starts 10 units below the box's
      bottom. The text starts at a fixed device-pixel inset from the badge. */
  lemma PlaceLabelEdges(b: Box, anchorX: int, anchorY: int, scale: int)
    ensures var p := PlaceLabel(b, anchorX, anchorY, scale);
      && p.textX == p.borderX + TextInsetX && p.textY == p.borderY + TextInsetY
      && (b.x < anchorX ==> p.borderX == b.x * scale)
      && (b.x >= anchorX ==> p.borderX + BadgeWidth * scale == (b.x + b.width - 4) * scale)
      && (b.y < anchorY ==> p.borderY + BadgeHeight * scale == (b.y - 6) * scale)
      && (b.y >= anchorY ==> p.borderY == (b.y + b.height + BadgeBelowGap) * scale)
  {
    MulDistributes(b.x + b.width - BadgeRightOffset, BadgeWidth, scale);
    MulDistributes(b.y - BadgeAboveOffset, BadgeHeight, scale);
  }

  /** At any positive scale the badge never overlaps the selection
      vertically: it sits wholly above the box when the box's top is above
      the anchor, and wholly below it otherwise. */
  lemma BadgeClearsSelectionVertically(b: Box, anchorX: int, anchorY: int, scale: int)
    requires scale >= 1 && b.height >= 0
    ensures var p := PlaceLabel(b, anchorX, anchorY, scale);
      && (b.y < anchorY ==> p.borderY + BadgeHeight * scale < b.y * scale)
      && (b.y >= anchorY ==> (b.y + b.height) * scale < p.borderY)
  {
    PlaceLabelEdges(b, anchorX, anchorY, scale);
    if b.y < anchorY {
      MulDistributes(b.y, -6, scale);
      MulBounds(-6, scale);
    } else {
      MulDistributes(b.y + b.height, BadgeBelowGap, scale);
      MulBounds(BadgeBelowGap, scale);
    }
  }

  /** A 50 by 50 selection at (100, 100) dragged up and left from (150, 150)
      at scale 1: the badge starts at the box's left edge and ends 6 units
      above its top edge. */
  lemma PlaceLabelUpLeftExample()
    ensures PlaceLabel(Box(100, 100, 50, 50), 150, 150, 1) == Placement(100, 70, 108, 98)
  {
  }

  /** The badge and the text for the output-local box `b`: a filled dark
      rectangle of the badge's size at the placement, then the box's size as
      text in white at the text position, in the scaled font. */
  function LabelCmds(b: Box, anchorX: int, anchorY: int, scale: int): seq<DrawCmd>
  {
    var p := PlaceLabel(b, anchorX, anchorY, scale);
    [ SetSourceU32(BadgeColor), Rectangle(p.borderX, p.borderY, BadgeWidth * scale, BadgeHeight * scale), Fill,
      SelectFontFace("Sans", SlantNormal, WeightNormal), SetFontSize(FontSize * scale),
      SetSourceU32(TextColor), MoveTo(p.textX, p.textY), ShowText(DimensionText(b.width, b.height)) ]
  }

  /** Appending eight commands one at a time appends them as one block. */
  lemma AppendEight(prefix: seq<DrawCmd>, c0: DrawCmd, c1: DrawCmd, c2: DrawCmd, c3: DrawCmd,
                    c4: DrawCmd, c5: DrawCmd, c6: DrawCmd, c7: DrawCmd)
    ensures prefix + [c0] + [c1] + [c2] + [c3] + [c4] + [c5] + [c6] + [c7]
         == prefix + [c0, c1, c2, c3, c4, c5, c6, c7]
  {
  }
}
