/** The drawing commands `render` issues, as opaque entries of a trace, and
    the two small helpers that issue them for one rectangle. */
module DrawTrace {
  import opened ColorUnpack
  import opened CoordinateMapper

  /** The only compositing operator the renderer selects. */
  datatype Operator = OperatorSource

  datatype FontSlant = SlantNormal

  datatype FontWeight = WeightNormal

  /** One call into the drawing backend. Coordinates are device pixels. */
  datatype DrawCmd =
    | SetOperator(op: Operator)
    | SetSourceRgba(color: Rgba)
    | Paint
    | Rectangle(x: int, y: int, width: int, height: int)
    | Fill
    | SetLineWidth(lineWidth: int)
    | Stroke
    | SelectFontFace(family: string, slant: FontSlant, weight: FontWeight)
    | SetFontSize(size: int)
    | MoveTo(x: int, y: int)
    | ShowText(text: string)

  /** `set_source_u32`: make the unpacked colour the current source. The
      source is four bytes that pack back to `color`. */
  function SetSourceU32(color: u32): (cmd: DrawCmd)
    ensures cmd.SetSourceRgba? && IsBytes(cmd.color) && Pack(cmd.color) == color
  {
    SetSourceRgba(Unpack(color))
  }

  /** `draw_rect`: set the colour, then add the box, scaled to device pixels,
      as a rectangle path. */
  function DrawRect(b: Box, color: u32, scale: int): seq<DrawCmd> {
    [SetSourceU32(color), Rectangle(b.x * scale, b.y * scale, b.width * scale, b.height * scale)]
  }

  /** For a positive scale the rectangle `draw_rect` submits is the box grown
      by the scale and nothing else: dividing each coordinate by the scale
      gives the box back, its far edges are the box's far edges scaled, and it
      is empty exactly when the box is. */
  lemma DrawRectScalesBox(b: Box, color: u32, scale: int)
    requires scale >= 1
    ensures var cmds := DrawRect(b, color, scale);
      && |cmds| == 2
      && cmds[0] == SetSourceRgba(Unpack(color))
      && cmds[1].Rectangle?
      && cmds[1].x / scale == b.x && cmds[1].y / scale == b.y
      && cmds[1].width / scale == b.width && cmds[1].height / scale == b.height
      && cmds[1].x + cmds[1].width == (b.x + b.width) * scale
      && cmds[1].y + cmds[1].height == (b.y + b.height) * scale
      && (cmds[1].width > 0 <==> b.width > 0)
      && (cmds[1].height > 0 <==> b.height > 0)
  {
    var r := DrawRect(b, color, scale)[1];
    MulDivCancel(b.x, scale);
    MulDivCancel(b.y, scale);
    MulDivCancel(b.width, scale);
    MulDivCancel(b.height, scale);
    MulPositive(b.width, scale);
    MulPositive(b.height, scale);
    MulDistributes(b.x, b.width, scale);
    MulDistributes(b.y, b.height, scale);
  }

  lemma MulDivCancel(a: int, s: int)
    requires s >= 1
    ensures (a * s) / s == a
  {
    var q, r := (a * s) / s, (a * s) % s;
    assert (a - q) * s == r;
    MulBounds(a - q, s);
  }

  lemma MulBounds(k: int, s: int)
    requires s >= 1
    ensures k >= 1 ==> k * s >= s
    ensures k <= -1 ==> k * s <= -s
    ensures k == 0 ==> k * s == 0
  {
  }

  lemma MulDistributes(a: int, b: int, s: int)
    ensures a * s + b * s == (a + b) * s
  {
  }

  lemma MulPositive(a: int, s: int)
    requires s >= 1
    ensures a * s > 0 <==> a > 0
  {
    MulBounds(a, s);
  }

  /** The selection box of a region picked at (10, 10), 50 by 30, lands at
      (10, 10)-(60, 40) at scale 1 and at (20, 20)-(120, 80) at scale 2. */
  lemma DrawRectScaleExamples(color: u32)
    ensures DrawRect(Box(10, 10, 50, 30), color, 1)[1] == Rectangle(10, 10, 50, 30)
    ensures DrawRect(Box(10, 10, 50, 30), color, 2)[1] == Rectangle(20, 20, 100, 60)
  {
  }
}
