/** Boxes, outputs, and the move from global logical coordinates to the
    coordinates of one output. */
module CoordinateMapper {

  /** `struct slurp_box`: a rectangle in logical coordinates, top-left corner
      first. Width and height may be negative while a drag is in progress. */
  datatype Box = Box(x: int, y: int, width: int, height: int)

  /** The part of `struct slurp_output` the renderer reads: where the output
      lies in the global logical space, and its integer pixel scale. */
  datatype Output = Output(logicalGeometry: Box, scale: int)

  /** A box seen from `output`: its corner relative to the output's top-left
      corner, its size unchanged. */
  function ToOutputLocal(b: Box, output: Output): (r: Box)
    ensures r.width == b.width && r.height == b.height
    ensures r.x + output.logicalGeometry.x == b.x
    ensures r.y + output.logicalGeometry.y == b.y
  {
    b.(x := b.x - output.logicalGeometry.x, y := b.y - output.logicalGeometry.y)
  }

  /** The inverse move: from the coordinates of `output` back to global ones. */
  function FromOutputLocal(b: Box, output: Output): Box {
    b.(x := b.x + output.logicalGeometry.x, y := b.y + output.logicalGeometry.y)
  }

  /** Moving to an output and back is the identity, in both orders. */
  lemma LayoutRoundTrip(b: Box, output: Output)
    ensures FromOutputLocal(ToOutputLocal(b, output), output) == b
    ensures ToOutputLocal(FromOutputLocal(b, output), output) == b
  {
  }

  /** Applying the move twice is harmless exactly on an output at the origin;
      everywhere else it offsets the box a second time. */
  lemma LayoutTwiceOffsetsTwice(b: Box, output: Output)
    ensures ToOutputLocal(ToOutputLocal(b, output), output) == ToOutputLocal(b, output)
        <==> output.logicalGeometry.x == 0 && output.logicalGeometry.y == 0
  {
    if ToOutputLocal(ToOutputLocal(b, output), output) == ToOutputLocal(b, output) {
      assert ToOutputLocal(ToOutputLocal(b, output), output).x == ToOutputLocal(b, output).x;
      assert ToOutputLocal(ToOutputLocal(b, output), output).y == ToOutputLocal(b, output).y;
    }
  }

  /** The local `struct slurp_box b` that `render` copies a stored box into
      before moving it; the stored box itself is a value and never changes. */
  class BoxCell {
    var x: int
    var y: int
    var width: int
    var height: int

    function Value(): Box
      reads this
    {
      Box(x, y, width, height)
    }

    /** `struct slurp_box b = *stored;` */
    constructor (b: Box)
      ensures Value() == b
    {
      x, y, width, height := b.x, b.y, b.width, b.height;
    }
  }

  /** `box_layout_to_output`: moves the box in place into the coordinates of
      `output`, and changes nothing else. */
  method BoxLayoutToOutput(box: BoxCell, output: Output)
    modifies box
    ensures box.Value() == ToOutputLocal(old(box.Value()), output)
  {
    box.x := box.x - output.logicalGeometry.x;
    box.y := box.y - output.logicalGeometry.y;
  }
}
