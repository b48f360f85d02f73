/** `render`: one frame for one output, as the sequence of drawing commands
    it issues. */
module FrameCompositor {
  import opened ColorUnpack
  import opened CoordinateMapper
  import opened DrawTrace
  import opened DimensionLabel

  /** `struct slurp_selection`: the box a seat is marking, whether it holds
      one at all, and where the drag or touch began. */
  datatype Selection = Selection(selection: Box, hasSelection: bool, anchorX: int, anchorY: int)

  /** `struct slurp_seat`: one selection per input kind. */
  datatype Seat = Seat(pointerSelection: Selection, touchSelection: Selection)

  /** The four packed colours of the palette. */
  datatype Colors = Colors(background: u32, border: u32, selection: u32, choice: u32)

  /** The parts of `struct slurp_state` the renderer reads. */
  datatype State = State(
    colors: Colors,
    borderWeight: int,
    displayDimensions: bool,
    boxes: seq<Box>,
    seats: seq<Seat>)

  // ---------------------------------------------------------------- the frame, as a value

  /** Clear: replace whatever is on the surface with the background colour. */
  function ClearCmds(colors: Colors): seq<DrawCmd> {
    [SetOperator(OperatorSource), SetSourceU32(colors.background), Paint]
  }

  /** One choice box, moved to the output and filled with the choice colour. */
  function ChoiceBoxCmds(box: Box, output: Output, colors: Colors): seq<DrawCmd> {
    DrawRect(ToOutputLocal(box, output), colors.choice, output.scale) + [Fill]
  }

  /** The choice-box loop over `boxes`, in list order, appending to the
      commands already issued (`trace`). */
  function ChoiceBoxesOnto(trace: seq<DrawCmd>, boxes: seq<Box>, output: Output, colors: Colors,
                           intersect: (Box, Box) -> bool): seq<DrawCmd>
  {
    if boxes == [] then trace
    else
      var last := boxes[|boxes| - 1];
      var earlier := ChoiceBoxesOnto(trace, boxes[..|boxes| - 1], output, colors, intersect);
      if intersect(output.logicalGeometry, last) then earlier + ChoiceBoxCmds(last, output, colors) else earlier
  }

  /** The choice boxes that meet the output, in list order. */
  function DrawnBoxes(boxes: seq<Box>, geometry: Box, intersect: (Box, Box) -> bool): (drawn: seq<Box>)
    ensures forall b :: b in drawn <==> b in boxes && intersect(geometry, b)
  {
    if boxes == [] then []
    else
      var last := boxes[|boxes| - 1];
      DrawnBoxes(boxes[..|boxes| - 1], geometry, intersect) + (if intersect(geometry, last) then [last] else [])
  }

  /** Touch selection when it holds one, pointer selection otherwise. */
  function CurrentSelection(seat: Seat): Selection {
    if seat.touchSelection.hasSelection then seat.touchSelection else seat.pointerSelection
  }

  /** A selection's box already moved to the output (`b`): filled with the
      selection colour, then stroked with the border colour along the same
      rectangle, the line as wide as the border weight scaled to device
      pixels. */
  function SelectionBoxCmds(b: Box, state: State, scale: int): seq<DrawCmd>
  {
    DrawRect(b, state.colors.selection, scale) + [Fill]
    + [SetLineWidth(state.borderWeight * scale)]
    + DrawRect(b, state.colors.border, scale) + [Stroke]
  }

  /** A selection already moved to the output (`b`): its box, then the
      optional label. */
  function SelectionCmds(b: Box, sel: Selection, state: State, scale: int): seq<DrawCmd>
  {
    SelectionBoxCmds(b, state, scale)
    + (if state.displayDimensions then LabelCmds(b, sel.anchorX, sel.anchorY, scale) else [])
  }

  /** Whether a selection is painted on `output`: it must hold a box, and
      that box must meet the output. */
  predicate Painted(sel: Selection, output: Output, intersect: (Box, Box) -> bool) {
    sel.hasSelection && intersect(output.logicalGeometry, sel.selection)
  }

  /** What one seat contributes: its current selection, moved to the output,
      when that selection is painted, and nothing otherwise. */
  function SeatCmds(seat: Seat, output: Output, state: State, intersect: (Box, Box) -> bool): seq<DrawCmd> {
    var current := CurrentSelection(seat);
    if Painted(current, output, intersect) then
      SelectionCmds(ToOutputLocal(current.selection, output), current, state, output.scale)
    else
      []
  }

  /** The seat loop over `seats`, in list order, appending to the commands
      already issued (`trace`). */
  function SeatsOnto(trace: seq<DrawCmd>, seats: seq<Seat>, output: Output, state: State,
                     intersect: (Box, Box) -> bool): seq<DrawCmd>
  {
    if seats == [] then trace
    else
      SeatsOnto(trace, seats[..|seats| - 1], output, state, intersect) + SeatCmds(seats[|seats| - 1], output, state, intersect)
  }

  /** The whole frame: clear, choice boxes, seats. */
  function Frame(output: Output, state: State, intersect: (Box, Box) -> bool): seq<DrawCmd> {
    var choices := ChoiceBoxesOnto(ClearCmds(state.colors), state.boxes, output, state.colors, intersect);
    SeatsOnto(choices, state.seats, output, state, intersect)
  }

  // ---------------------------------------------------------------- render

  /** The seat loop's body once its current selection is known to be
      painted: copy the selection's box, move the copy to the output, fill
      it, stroke its border, and draw the label when the palette asks for it. */
  method DrawSelection(current: Selection, output: Output, state: State) returns (trace: seq<DrawCmd>)
    ensures trace == SelectionCmds(ToOutputLocal(current.selection, output), current, state, output.scale)
  {
    var scale := output.scale;
    trace := [];
    var b := new BoxCell(current.selection);
    BoxLayoutToOutput(b, output);

    trace := trace + DrawRect(b.Value(), state.colors.selection, scale);
    trace := trace + [Fill];

    // The outline: the same rectangle, stroked at the scaled border weight.
    trace := trace + [SetLineWidth(state.borderWeight * scale)];
    trace := trace + DrawRect(b.Value(), state.colors.border, scale);
    trace := trace + [Stroke];
    assert trace == SelectionBoxCmds(b.Value(), state, scale);

    if state.displayDimensions {
      var badge := DrawDimensions(b, current, scale);
      trace := trace + badge;
    } else {
      assert trace + [] == trace;
    }
  }

  /** The label part of the seat loop's body, for the output-local box `b`:
      place the badge beside the box, fill it, then write the box's size in
      it. */
  method DrawDimensions(b: BoxCell, current: Selection, scale: int) returns (trace: seq<DrawCmd>)
    ensures trace == LabelCmds(b.Value(), current.anchorX, current.anchorY, scale)
  {
    var textX, textY, borderX, borderY := 0, 0, 0, 0;
    if b.x < current.anchorX {
      borderX := b.x * scale;
      textX := borderX + TextInsetX;
    } else {
      borderX := (b.x + b.width - BadgeRightOffset) * scale;
      textX := borderX + TextInsetX;
    }
    if b.y < current.anchorY {
      borderY := (b.y - BadgeAboveOffset) * scale;
      textY := borderY + TextInsetY;
    } else {
      borderY := (b.y + b.height + BadgeBelowGap) * scale;
      textY := borderY + TextInsetY;
    }
    ghost var p := PlaceLabel(b.Value(), current.anchorX, current.anchorY, scale);
    assert borderX == p.borderX && borderY == p.borderY && textX == p.textX && textY == p.textY;

    trace := [];
    trace := trace + [SetSourceU32(BadgeColor)];
    trace := trace + [Rectangle(borderX, borderY, BadgeWidth * scale, BadgeHeight * scale)];
    trace := trace + [Fill];

    trace := trace + [SelectFontFace("Sans", SlantNormal, WeightNormal)];
    trace := trace + [SetFontSize(FontSize * scale)];
    var dimensions := DimensionText(b.width, b.height);
    trace := trace + [SetSourceU32(TextColor)];
    trace := trace + [MoveTo(textX, textY)];
    trace := trace + [ShowText(dimensions)];
    AppendEight([], SetSourceU32(BadgeColor), Rectangle(borderX, borderY, BadgeWidth * scale, BadgeHeight * scale), Fill,
                SelectFontFace("Sans", SlantNormal, WeightNormal), SetFontSize(FontSize * scale),
                SetSourceU32(TextColor), MoveTo(textX, textY), ShowText(dimensions));
  }

  /** `render`: issue the commands of one frame for `output`. `intersect` is
      `box_intersect`, whose definition is not part of this model. */
  method Render(output: Output, state: State, intersect: (Box, Box) -> bool) returns (trace: seq<DrawCmd>)
    ensures trace == Frame(output, state, intersect)
  {
    // Replace the whole surface with the background colour.
    trace := [SetOperator(OperatorSource)];
    trace := trace + [SetSourceU32(state.colors.background)];
    trace := trace + [Paint];
    assert trace == ClearCmds(state.colors);

    trace := DrawChoiceBoxes(trace, output, state, intersect);
    trace := DrawSeats(trace, output, state, intersect);
  }

  /** `render`'s loop over the choice boxes, appending to `trace`: every
      choice box that meets the output, in list order. */
  method DrawChoiceBoxes(trace: seq<DrawCmd>, output: Output, state: State, intersect: (Box, Box) -> bool)
    returns (drawn: seq<DrawCmd>)
    ensures drawn == ChoiceBoxesOnto(trace, state.boxes, output, state.colors, intersect)
  {
    var scale := output.scale;
    drawn := trace;
    for i := 0 to |state.boxes|
      invariant drawn == ChoiceBoxesOnto(trace, state.boxes[..i], output, state.colors, intersect)
    {
      var choiceBox := state.boxes[i];
      ChoiceBoxesOntoPrefix(trace, state.boxes, i, output, state.colors, intersect);
      if intersect(output.logicalGeometry, choiceBox) {
        var b := new BoxCell(choiceBox);
        BoxLayoutToOutput(b, output);
        ghost var earlier := drawn;
        drawn := drawn + DrawRect(b.Value(), state.colors.choice, scale);
        drawn := drawn + [Fill];
        AppendAssociates(earlier, DrawRect(b.Value(), state.colors.choice, scale), [Fill]);
      }
    }
    assert state.boxes[..|state.boxes|] == state.boxes;
  }

  /** `render`'s loop over the seats, appending to `trace`: each seat's
      current selection, in list order. */
  method DrawSeats(trace: seq<DrawCmd>, output: Output, state: State, intersect: (Box, Box) -> bool)
    returns (drawn: seq<DrawCmd>)
    ensures drawn == SeatsOnto(trace, state.seats, output, state, intersect)
  {
    drawn := trace;
    for j := 0 to |state.seats|
      invariant drawn == SeatsOnto(trace, state.seats[..j], output, state, intersect)
    {
      var cmds := DrawSeat(state.seats[j], output, state, intersect);
      SeatsOntoPrefix(trace, state.seats, j, output, state, intersect);
      drawn := drawn + cmds;
    }
    assert state.seats[..|state.seats|] == state.seats;
  }

  /** One pass of the seat loop: pick the seat's current selection, touch
      over pointer, and paint it when it holds a box that meets the output. */
  method DrawSeat(seat: Seat, output: Output, state: State, intersect: (Box, Box) -> bool)
    returns (cmds: seq<DrawCmd>)
    ensures cmds == SeatCmds(seat, output, state, intersect)
  {
    var current := if seat.touchSelection.hasSelection then seat.touchSelection else seat.pointerSelection;
    if !current.hasSelection {
      return [];
    }
    if !intersect(output.logicalGeometry, current.selection) {
      return [];
    }
    cmds := DrawSelection(current, output, state);
  }

  /** One more pass of the choice-box loop adds that box's commands when it
      meets the output, and nothing otherwise. */
  lemma ChoiceBoxesOntoPrefix(trace: seq<DrawCmd>, boxes: seq<Box>, i: int, output: Output, colors: Colors,
                              intersect: (Box, Box) -> bool)
    requires 0 <= i < |boxes|
    ensures ChoiceBoxesOnto(trace, boxes[..i + 1], output, colors, intersect)
         == ChoiceBoxesOnto(trace, boxes[..i], output, colors, intersect)
            + (if intersect(output.logicalGeometry, boxes[i]) then ChoiceBoxCmds(boxes[i], output, colors) else [])
  {
    assert boxes[..i + 1][..i] == boxes[..i];
    var earlier := ChoiceBoxesOnto(trace, boxes[..i], output, colors, intersect);
    assert earlier + [] == earlier;
  }

  /** One more pass of the seat loop adds exactly that seat's commands. */
  lemma SeatsOntoPrefix(trace: seq<DrawCmd>, seats: seq<Seat>, j: int, output: Output, state: State,
                        intersect: (Box, Box) -> bool)
    requires 0 <= j < |seats|
    ensures SeatsOnto(trace, seats[..j + 1], output, state, intersect)
         == SeatsOnto(trace, seats[..j], output, state, intersect) + SeatCmds(seats[j], output, state, intersect)
  {
    assert seats[..j + 1][..j] == seats[..j];
  }

  // ---------------------------------------------------------------- properties of the frame

  /** The selection's commands: the fill colour, the scaled rectangle and a
      fill; the scaled border weight; the border colour, the same rectangle
      and a stroke; then the label's eight commands exactly when the palette
      asks for dimensions. */
  lemma SelectionCmdsShape(b: Box, sel: Selection, state: State, scale: int)
    ensures var cmds := SelectionCmds(b, sel, state, scale);
      var r := Rectangle(b.x * scale, b.y * scale, b.width * scale, b.height * scale);
      && |cmds| == (if state.displayDimensions then 15 else 7)
      && cmds[..7] == [SetSourceU32(state.colors.selection), r, Fill,
                       SetLineWidth(state.borderWeight * scale),
                       SetSourceU32(state.colors.border), r, Stroke]
      && (state.displayDimensions ==> cmds[7..] == LabelCmds(b, sel.anchorX, sel.anchorY, scale))
  {
    var cmds := SelectionCmds(b, sel, state, scale);
    assert cmds[..7] == SelectionBoxCmds(b, state, scale);
  }

  /** The choice-box loop only appends: whatever was issued before stays,
      unchanged, in front. */
  lemma {:induction false} ChoiceBoxesOntoAppends(trace: seq<DrawCmd>, boxes: seq<Box>, output: Output, colors: Colors,
                                                  intersect: (Box, Box) -> bool)
    ensures ChoiceBoxesOnto(trace, boxes, output, colors, intersect)
         == trace + ChoiceBoxesOnto([], boxes, output, colors, intersect)
  {
    if boxes != [] {
      var init := boxes[..|boxes| - 1];
      var last := boxes[|boxes| - 1];
      ChoiceBoxesOntoAppends(trace, init, output, colors, intersect);
      if intersect(output.logicalGeometry, last) {
        var earlier := ChoiceBoxesOnto([], init, output, colors, intersect);
        var added := DrawRect(ToOutputLocal(last, output), colors.choice, output.scale) + [Fill];
        calc {
          ChoiceBoxesOnto(trace, boxes, output, colors, intersect);
          (trace + earlier) + DrawRect(ToOutputLocal(last, output), colors.choice, output.scale) + [Fill];
          { assert (trace + earlier) + added == trace + (earlier + added); }
          trace + ChoiceBoxesOnto([], boxes, output, colors, intersect);
        }
      }
    }
  }

  /** The seat loop only appends: whatever was issued before stays,
      unchanged, in front. */
  lemma {:induction false} SeatsOntoAppends(trace: seq<DrawCmd>, seats: seq<Seat>, output: Output, state: State,
                                            intersect: (Box, Box) -> bool)
    ensures SeatsOnto(trace, seats, output, state, intersect) == trace + SeatsOnto([], seats, output, state, intersect)
  {
    if seats != [] {
      var init := seats[..|seats| - 1];
      SeatsOntoAppends(trace, init, output, state, intersect);
      var current := CurrentSelection(seats[|seats| - 1]);
      if Painted(current, output, intersect) {
        var earlier := SeatsOnto([], init, output, state, intersect);
        var added := SelectionCmds(ToOutputLocal(current.selection, output), current, state, output.scale);
        AppendAssociates(trace, earlier, added);
      }
    }
  }

  lemma AppendNothing(a: seq<DrawCmd>)
    ensures a + [] == a
  {
  }

  lemma AppendAssociates(a: seq<DrawCmd>, b: seq<DrawCmd>, c: seq<DrawCmd>)
    ensures (a + b) + c == a + (b + c)
  {
  }

  /** One seat more adds exactly what that seat contributes. */
  lemma SeatsOntoStep(trace: seq<DrawCmd>, seats: seq<Seat>, seat: Seat, output: Output, state: State,
                      intersect: (Box, Box) -> bool)
    ensures SeatsOnto(trace, seats + [seat], output, state, intersect)
         == SeatsOnto(trace, seats, output, state, intersect) + SeatCmds(seat, output, state, intersect)
  {
    assert (seats + [seat])[..|seats|] == seats;
  }

  /** Which selection a seat paints: the touch selection whenever it holds a
      box, whatever the pointer holds; the pointer selection otherwise; and
      nothing when the chosen one holds no box or misses the output. */
  lemma SeatPaintsCurrentSelection(seat: Seat, output: Output, state: State, intersect: (Box, Box) -> bool)
    ensures var cmds := SeatCmds(seat, output, state, intersect);
      var t := seat.touchSelection;
      var p := seat.pointerSelection;
      && (t.hasSelection && intersect(output.logicalGeometry, t.selection) ==>
            cmds == SelectionCmds(ToOutputLocal(t.selection, output), t, state, output.scale))
      && (t.hasSelection && !intersect(output.logicalGeometry, t.selection) ==> cmds == [])
      && (!t.hasSelection && p.hasSelection && intersect(output.logicalGeometry, p.selection) ==>
            cmds == SelectionCmds(ToOutputLocal(p.selection, output), p, state, output.scale))
      && (!t.hasSelection && !p.hasSelection ==> cmds == [])
      && (cmds == [] <==> !Painted(CurrentSelection(seat), output, intersect))
  {
    var current := CurrentSelection(seat);
    if Painted(current, output, intersect) {
      SelectionCmdsShape(ToOutputLocal(current.selection, output), current, state, output.scale);
    }
  }

  /** The choice boxes appear as one fill of three commands each, for
      exactly the boxes that meet the output, in list order. */
  lemma {:induction false} ChoiceBoxesInOrder(boxes: seq<Box>, output: Output, colors: Colors,
                                              intersect: (Box, Box) -> bool)
    ensures var cmds := ChoiceBoxesOnto([], boxes, output, colors, intersect);
      var drawn := DrawnBoxes(boxes, output.logicalGeometry, intersect);
      && |cmds| == 3 * |drawn|
      && forall k :: 0 <= k < |drawn| ==> cmds[3 * k..3 * k + 3] == ChoiceBoxCmds(drawn[k], output, colors)
  {
    if boxes != [] {
      var init := boxes[..|boxes| - 1];
      var last := boxes[|boxes| - 1];
      ChoiceBoxesInOrder(init, output, colors, intersect);
      var earlier := ChoiceBoxesOnto([], init, output, colors, intersect);
      var earlierDrawn := DrawnBoxes(init, output.logicalGeometry, intersect);
      var cmds := ChoiceBoxesOnto([], boxes, output, colors, intersect);
      var drawn := DrawnBoxes(boxes, output.logicalGeometry, intersect);
      if intersect(output.logicalGeometry, last) {
        var added := ChoiceBoxCmds(last, output, colors);
        assert cmds == earlier + added;
        assert drawn == earlierDrawn + [last];
        forall k | 0 <= k < |drawn|
          ensures cmds[3 * k..3 * k + 3] == ChoiceBoxCmds(drawn[k], output, colors)
        {
          if k < |earlierDrawn| {
            assert cmds[3 * k..3 * k + 3] == earlier[3 * k..3 * k + 3];
          } else {
            assert cmds[3 * k..3 * k + 3] == added;
          }
        }
      } else {
        assert drawn == earlierDrawn + [];
      }
    }
  }

  predicate NoOperatorChange(cmds: seq<DrawCmd>) {
    forall c :: c in cmds ==> !c.SetOperator?
  }

  predicate NoText(cmds: seq<DrawCmd>) {
    forall c :: c in cmds ==> !c.ShowText?
  }

  /** The choice-box loop sets no operator and draws no text. */
  lemma {:induction false} ChoiceBoxesAddNoOperatorOrText(trace: seq<DrawCmd>, boxes: seq<Box>, output: Output,
                                                          colors: Colors, intersect: (Box, Box) -> bool)
    ensures var cmds := ChoiceBoxesOnto(trace, boxes, output, colors, intersect);
      && (NoOperatorChange(trace) ==> NoOperatorChange(cmds))
      && (NoText(trace) ==> NoText(cmds))
  {
    if boxes != [] {
      ChoiceBoxesAddNoOperatorOrText(trace, boxes[..|boxes| - 1], output, colors, intersect);
    }
  }

  /** The seat loop sets no operator, and draws no text unless the
      dimensions flag is on. */
  lemma {:induction false} SeatsAddNoOperator(trace: seq<DrawCmd>, seats: seq<Seat>, output: Output, state: State,
                                              intersect: (Box, Box) -> bool)
    ensures var cmds := SeatsOnto(trace, seats, output, state, intersect);
      && (NoOperatorChange(trace) ==> NoOperatorChange(cmds))
      && (NoText(trace) && !state.displayDimensions ==> NoText(cmds))
  {
    if seats != [] {
      var init := seats[..|seats| - 1];
      SeatsAddNoOperator(trace, init, output, state, intersect);
      var current := CurrentSelection(seats[|seats| - 1]);
      if Painted(current, output, intersect) {
        var earlier := SeatsOnto(trace, init, output, state, intersect);
        var added := SelectionCmds(ToOutputLocal(current.selection, output), current, state, output.scale);
        SelectionAddsNoOperator(ToOutputLocal(current.selection, output), current, state, output.scale);
        AppendKeeps(earlier, added);
      }
    }
  }

  /** A selection sets no operator, and draws text only for its label. */
  lemma SelectionAddsNoOperator(b: Box, sel: Selection, state: State, scale: int)
    ensures var cmds := SelectionCmds(b, sel, state, scale);
      && NoOperatorChange(cmds)
      && (!state.displayDimensions ==> NoText(cmds))
  {
    var box := SelectionBoxCmds(b, state, scale);
    var badge := if state.displayDimensions then LabelCmds(b, sel.anchorX, sel.anchorY, scale) else [];
    assert NoOperatorChange(box) && NoText(box);
    assert NoOperatorChange(badge);
    AppendKeeps(box, badge);
  }

  lemma AppendKeeps(a: seq<DrawCmd>, b: seq<DrawCmd>)
    ensures NoOperatorChange(a) && NoOperatorChange(b) ==> NoOperatorChange(a + b)
    ensures NoText(a) && NoText(b) ==> NoText(a + b)
  {
  }

  /** The frame is three layers in a fixed order: the clear, then every
      choice box, then every seat. */
  lemma FrameLayers(output: Output, state: State, intersect: (Box, Box) -> bool)
    ensures Frame(output, state, intersect)
         == ClearCmds(state.colors)
            + ChoiceBoxesOnto([], state.boxes, output, state.colors, intersect)
            + SeatsOnto([], state.seats, output, state, intersect)
  {
    var clear := ClearCmds(state.colors);
    var choices := ChoiceBoxesOnto(clear, state.boxes, output, state.colors, intersect);
    ChoiceBoxesOntoAppends(clear, state.boxes, output, state.colors, intersect);
    SeatsOntoAppends(choices, state.seats, output, state, intersect);
  }

  /** The frame begins by clearing to the background colour with the SOURCE
      operator, and the operator is never set again, in particular not back
      to the default after the clear. */
  lemma FrameClearsFirst(output: Output, state: State, intersect: (Box, Box) -> bool)
    ensures var frame := Frame(output, state, intersect);
      && |frame| >= 3
      && frame[..3] == [SetOperator(OperatorSource), SetSourceRgba(Unpack(state.colors.background)), Paint]
      && forall k :: 1 <= k < |frame| ==> !frame[k].SetOperator?
  {
    var clear := ClearCmds(state.colors);
    var frame := Frame(output, state, intersect);
    var rest := ChoiceBoxesOnto([], state.boxes, output, state.colors, intersect);
    var seatsRest := SeatsOnto([], state.seats, output, state, intersect);
    FrameLayers(output, state, intersect);
    ChoiceBoxesAddNoOperatorOrText([], state.boxes, output, state.colors, intersect);
    SeatsAddNoOperator([], state.seats, output, state, intersect);
    AppendKeeps(rest, seatsRest);
    AppendAssociates(clear, rest, seatsRest);
    ClearThenNoOperator(state.colors, rest + seatsRest);
  }

  /** The clear followed by commands that set no operator. */
  lemma ClearThenNoOperator(colors: Colors, tail: seq<DrawCmd>)
    requires NoOperatorChange(tail)
    ensures var f := ClearCmds(colors) + tail;
      && |f| >= 3
      && f[..3] == [SetOperator(OperatorSource), SetSourceRgba(Unpack(colors.background)), Paint]
      && forall k :: 1 <= k < |f| ==> !f[k].SetOperator?
  {
    var f := ClearCmds(colors) + tail;
    forall k | 1 <= k < |f|
      ensures !f[k].SetOperator?
    {
      if k >= 3 {
        assert f[k] == tail[k - 3];
      }
    }
  }

  /** Without the dimensions flag no text is drawn at all. */
  lemma NoTextWithoutDimensions(output: Output, state: State, intersect: (Box, Box) -> bool)
    requires !state.displayDimensions
    ensures NoText(Frame(output, state, intersect))
  {
    var clear := ClearCmds(state.colors);
    ChoiceBoxesAddNoOperatorOrText(clear, state.boxes, output, state.colors, intersect);
    var choices := ChoiceBoxesOnto(clear, state.boxes, output, state.colors, intersect);
    SeatsAddNoOperator(choices, state.seats, output, state, intersect);
  }

  /** With the flag, a painted selection's label shows the selection's own
      size: moving the box to the output does not change it. */
  lemma LabelShowsSelectionSize(seat: Seat, output: Output, state: State, intersect: (Box, Box) -> bool)
    requires state.displayDimensions && Painted(CurrentSelection(seat), output, intersect)
    ensures var sel := CurrentSelection(seat).selection;
      var cmds := SeatCmds(seat, output, state, intersect);
      |cmds| == 15 && cmds[14] == ShowText(DimensionText(sel.width, sel.height))
  {
    var current := CurrentSelection(seat);
    var b := ToOutputLocal(current.selection, output);
    SelectionCmdsShape(b, current, state, output.scale);
    var cmds := SeatCmds(seat, output, state, intersect);
    assert cmds[14] == cmds[7..][7];
  }

  /** A frame on an output at the origin with no choice boxes and one seat
      whose touch selection is empty and whose pointer holds the 50 by 30 box
      at (10, 10), without dimensions, where the output's geometry meets that
      box: the black background, then that box filled and stroked, grown by
      the scale; at scale 1 it covers (10, 10)-(60, 40). */
  lemma PointerSelectionScenario(colors: Colors, scale: int, intersect: (Box, Box) -> bool)
    requires colors.background == 0x000000FF
    requires intersect(Box(0, 0, 1920, 1080), Box(10, 10, 50, 30))
    ensures var sel := Selection(Box(10, 10, 50, 30), true, 10, 10);
      var noTouch := Selection(Box(0, 0, 0, 0), false, 0, 0);
      var state := State(colors, 2, false, [], [Seat(sel, noTouch)]);
      var output := Output(Box(0, 0, 1920, 1080), scale);
      var r := Rectangle(10 * scale, 10 * scale, 50 * scale, 30 * scale);
      Frame(output, state, intersect)
        == [SetOperator(OperatorSource), SetSourceRgba(Rgba(0, 0, 0, 255)), Paint,
            SetSourceU32(colors.selection), r, Fill, SetLineWidth(2 * scale),
            SetSourceU32(colors.border), r, Stroke]
  {
    var sel := Selection(Box(10, 10, 50, 30), true, 10, 10);
    var noTouch := Selection(Box(0, 0, 0, 0), false, 0, 0);
    var state := State(colors, 2, false, [], [Seat(sel, noTouch)]);
    var output := Output(Box(0, 0, 1920, 1080), scale);
    var clear := ClearCmds(colors);
    var cmds := SeatCmds(Seat(sel, noTouch), output, state, intersect);
    PointerSeatCmds(state, scale, intersect);
    assert ChoiceBoxesOnto(clear, [], output, colors, intersect) == clear;
    assert [Seat(sel, noTouch)][..0] == [];
    assert SeatsOnto(clear, [Seat(sel, noTouch)], output, state, intersect) == clear + cmds;
    assert Unpack(0x000000FF) == Rgba(0, 0, 0, 255);
  }

  /** The scenario's one seat: its pointer box filled and stroked. */
  lemma PointerSeatCmds(state: State, scale: int, intersect: (Box, Box) -> bool)
    requires !state.displayDimensions && state.borderWeight == 2
    requires intersect(Box(0, 0, 1920, 1080), Box(10, 10, 50, 30))
    ensures var sel := Selection(Box(10, 10, 50, 30), true, 10, 10);
      var noTouch := Selection(Box(0, 0, 0, 0), false, 0, 0);
      var r := Rectangle(10 * scale, 10 * scale, 50 * scale, 30 * scale);
      SeatCmds(Seat(sel, noTouch), Output(Box(0, 0, 1920, 1080), scale), state, intersect)
        == [SetSourceU32(state.colors.selection), r, Fill, SetLineWidth(2 * scale),
            SetSourceU32(state.colors.border), r, Stroke]
  {
    var sel := Selection(Box(10, 10, 50, 30), true, 10, 10);
    var output := Output(Box(0, 0, 1920, 1080), scale);
    var b := ToOutputLocal(sel.selection, output);
    assert b == Box(10, 10, 50, 30);
    SelectionCmdsShape(b, sel, state, scale);
  }
}
