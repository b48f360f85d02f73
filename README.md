# slurp frame renderer, modelled in Dafny

slurp lets the user pick a region of the screen. For every output (monitor)
it paints an overlay frame:

- it clears the surface to the background colour;
- it fills every predefined "choice" box that meets the output;
- for every seat (input device group) it fills and outlines the seat's current
  selection, touch over pointer, and optionally adds a badge that shows the
  selection's size as `<width>x<height>`.

The model covers `render.c` as five modules:

- `ColorUnpack` (`color_unpack.dfy`) splits a packed `0xRRGGBBAA` value into
  its four channel bytes. This is `set_source_u32`.
- `CoordinateMapper` (`coordinate_mapper.dfy`) holds boxes and outputs. It
  moves a box from global logical coordinates to one output's coordinates,
  in place, on a copy. This is `box_layout_to_output`.
- `DrawTrace` (`draw_trace.dfy`) lists the drawing calls as data. `DrawRect`
  is `draw_rect`.
- `DimensionLabel` (`dimension_label.dfy`) places the badge, formats the text
  with `snprintf` into a 12-byte buffer, and gives the badge's commands.
- `FrameCompositor` (`frame_compositor.dfy`) has the `render` loop itself.

The drawing context is modelled as the sequence of calls made on it, one
`DrawCmd` per Cairo call. `Render` is a method that clears and then runs the
two loops of the source, `DrawChoiceBoxes` and `DrawSeats`. Each loop appends
to that sequence. Its postcondition ties the result to the function `Frame`,
and the lemmas state what the frame contains.

Two behaviours of the code are kept exactly as written:

- After the clear, the code never switches back from `CAIRO_OPERATOR_SOURCE`.
  `FrameClearsFirst` proves that no later command sets an operator.
- The label's side is chosen by comparing the output-local corner `b.x`,
  `b.y` with the selection's anchor as stored, without moving the anchor to
  the output. `PlaceLabel` makes the same comparison.

## Model

| member | source | states |
|---|---|---|
| ColorUnpack.Unpack | render.c:9-14 | each of the four channels is a byte (0..255), and packing them again, red in the top byte and alpha in the lowest, gives the original 32-bit value |
| ColorUnpack.ByteDigits | render.c:10-13 | a 32-bit value equals the sum of its four shifted-and-masked bytes, each at its position |
| ColorUnpack.PackUnpack | render.c:9-14 | for any four bytes, the packed value fits in 32 bits and unpacks to those same bytes, so unpacking is a bijection |
| ColorUnpack.UnpackRedHalfAlpha | render.c:9-14 | 0xFF000080 gives red 255, green 0, blue 0, alpha 128 |
| DrawTrace.DrawRectScalesBox | render.c:16-20 | draw_rect issues the colour and then one rectangle; at a positive scale, dividing each field by the scale gives the box back, the far edges are the box's far edges scaled, and the rectangle is empty in a direction exactly when the box is |
| DrawTrace.DrawRectScaleExamples | render.c:16-20 | box (10,10,50,30) gives rectangle (10,10,50,30) at scale 1 and (20,20,100,60) at scale 2 |
| CoordinateMapper.ToOutputLocal | render.c:22-25 | the moved box keeps its size, and adding the output's origin to its corner gives the global corner |
| CoordinateMapper.LayoutRoundTrip | render.c:22-25 | moving to the output and back, in either order, is the identity |
| CoordinateMapper.LayoutTwiceOffsetsTwice | render.c:22-25 | moving a box twice gives the same result as moving it once exactly when the output lies at the origin |
| CoordinateMapper.BoxCell.constructor | render.c:43 | the local copy `b` holds the stored box's four fields |
| CoordinateMapper.BoxLayoutToOutput | render.c:22-25 | the box is updated in place to its output-local value; nothing else is modified |
| DimensionLabel.NatToDecimal | render.c:111-112 | `%i` digits of a non-negative number: at least one digit, only digits, and a leading zero only for zero |
| DimensionLabel.DecimalRoundTrip | render.c:111-112 | reading the decimal digits of n back gives n |
| DimensionLabel.DecimalLength | render.c:109-112 | a number below 10^k has at most k digits |
| DimensionLabel.FormatInt | render.c:111-112 | `%i`: starts with '-' exactly for negative values, the digits after the sign read back as the magnitude, and the first digit is '0' only for zero, so there are no leading zeros |
| DimensionLabel.Truncate | render.c:110-112 | snprintf's output is a prefix of the full text; it is the full text when that fits in size-1 characters and has exactly size-1 characters otherwise |
| DimensionLabel.DimensionText | render.c:110-112 | the label text is the first characters of width, 'x', height: all of them when they fit in the 12-byte buffer with its terminator (at most 11), and exactly the first 11 otherwise |
| DimensionLabel.FiveDigitsFit | render.c:109-112 | for sizes from 0 to 99999 nothing is cut: the text is width, 'x', height, and both numbers read back from their parts |
| DimensionLabel.DimensionTextExamples | render.c:109-112 | 99999x99999 fits exactly and 5 by 10 gives "5x10" |
| DimensionLabel.DimensionTextCutExample | render.c:109-112 | -99999 by -99999 is cut to "-99999x-999" |
| DimensionLabel.PlaceLabelEdges | render.c:82-95 | the text is at (8, 28) device pixels from the badge's corner; left of the anchor the badge's left edge is the box's left edge, otherwise its right edge is 4 units inside the box's right edge; above the anchor it ends 6 units above the box's top, otherwise it starts 10 units below the box's bottom |
| DimensionLabel.BadgeClearsSelectionVertically | render.c:89-101 | at a positive scale and a non-negative height the badge lies entirely above or entirely below the box, never across it |
| DimensionLabel.PlaceLabelUpLeftExample | render.c:82-95 | box (100,100,50,50) dragged from (150,150) at scale 1 puts the badge at (100, 70), above and aligned left, with the text at (108, 98) |
| FrameCompositor.DrawnBoxes | render.c:40-42 | a choice box is drawn exactly when it is in the list and meets the output |
| FrameCompositor.DrawSelection | render.c:65-116 | once the selection is known to be painted, the rest of the seat loop's body issues exactly the selection's commands for its output-local box |
| FrameCompositor.DrawDimensions | render.c:76-116 | the label part of the body issues the badge's rectangle at the computed placement and the size text, exactly LabelCmds |
| FrameCompositor.Render | render.c:27-118 | the calls render makes are exactly Frame: the clear, then the choice-box loop, then the seat loop |
| FrameCompositor.DrawChoiceBoxes | render.c:38-48 | the choice-box loop appends exactly ChoiceBoxesOnto of the whole box list to what was issued before |
| FrameCompositor.DrawSeats | render.c:50-117 | the seat loop appends exactly SeatsOnto of the whole seat list to what was issued before |
| FrameCompositor.DrawSeat | render.c:52-116 | one pass of the seat loop issues exactly SeatCmds for that seat, nothing for a skipped seat |
| FrameCompositor.ChoiceBoxesOntoPrefix | render.c:40-47 | one more pass of the choice-box loop adds that box's three commands when it meets the output and nothing otherwise |
| FrameCompositor.SeatsOntoPrefix | render.c:51-116 | one more pass of the seat loop adds exactly that seat's commands after those of the seats before it |
| FrameCompositor.SelectionCmdsShape | render.c:68-116 | a painted selection gives 7 commands, or 15 with the dimensions flag: fill colour, rectangle, fill, scaled border width, border colour, the same rectangle, stroke, then the label |
| FrameCompositor.ChoiceBoxesOntoAppends | render.c:39-48 | the choice-box loop only appends: what was issued before stays in front unchanged |
| FrameCompositor.SeatsOntoAppends | render.c:50-117 | the seat loop only appends: what was issued before stays in front unchanged |
| FrameCompositor.SeatsOntoStep | render.c:50-117 | one more seat adds exactly that seat's commands, after those of the seats before it |
| FrameCompositor.SeatPaintsCurrentSelection | render.c:52-64 | a valid touch selection is used whatever the pointer holds; the pointer selection is used only when touch has none; a seat adds nothing exactly when its current selection is invalid or misses the output |
| FrameCompositor.ChoiceBoxesInOrder | render.c:39-48 | the choice-box commands are three per drawn box, and the k-th group fills the k-th box that meets the output, in list order |
| FrameCompositor.ChoiceBoxesAddNoOperatorOrText | render.c:39-48 | the choice-box loop sets no compositing operator and draws no text |
| FrameCompositor.SeatsAddNoOperator | render.c:50-117 | the seat loop sets no compositing operator, and draws no text unless the dimensions flag is set |
| FrameCompositor.SelectionAddsNoOperator | render.c:65-116 | a selection's commands set no operator, and contain no text without the dimensions flag |
| FrameCompositor.FrameLayers | render.c:27-118 | the frame is the clear, then every choice box, then every seat, in that order |
| FrameCompositor.FrameClearsFirst | render.c:33-36 | the frame starts with the SOURCE operator, the background colour and a paint, and the operator is never set again |
| FrameCompositor.NoTextWithoutDimensions | render.c:76 | without the dimensions flag the frame shows no text |
| FrameCompositor.LabelShowsSelectionSize | render.c:105-115 | with the flag, a painted seat's last command shows the text for its selection's own width and height, unchanged by the move to the output |
| FrameCompositor.PointerSelectionScenario | render.c:27-118 | one output at the origin, no choice boxes, an empty touch and a pointer selection (10,10,50,30), no dimensions, and any intersect that reports that box meeting the output: the frame is the black clear, then that box, grown by the output's scale, filled and then stroked with twice the scale as line width |
| FrameCompositor.PointerSeatCmds | render.c:51-74 | in that scenario the seat paints its pointer selection: fill colour, scaled rectangle, fill, line width 2 times the scale, border colour, the same rectangle, stroke |
| FrameCompositor.ClearThenNoOperator | render.c:33-36 | the three clearing calls followed by commands that set no operator give a frame whose operator is set only by its first command |
| DrawTrace.SetSourceU32 | render.c:9-14 | the source colour set is four bytes that pack back to the given 32-bit value |
| DrawTrace.DrawRect | render.c:16-20 | the colour, then one rectangle; `DrawRectScalesBox` proves the rectangle is the box times the scale |
| DimensionLabel.PlaceLabel | render.c:78-95 | the badge corner and text position; `PlaceLabelEdges` and `BadgeClearsSelectionVertically` state where they lie against the box |
| DimensionLabel.LabelCmds | render.c:99-115 | the badge fill, the font, then the size text at the text position; `LabelShowsSelectionSize` proves the text is the selection's own size, and `DrawDimensions` that the source's label code issues exactly these commands |
| FrameCompositor.CurrentSelection | render.c:52-55 | the seat's selection to paint; `SeatPaintsCurrentSelection` proves touch wins whenever it holds a box |
| FrameCompositor.ChoiceBoxCmds | render.c:43-46 | one choice box's commands: the box moved to the output and drawn in the choice colour, then a fill; `ChoiceBoxesInOrder` proves each drawn box contributes exactly these, in list order |
| FrameCompositor.SelectionBoxCmds | render.c:68-74 | the selection's fill and outline; `SelectionCmdsShape` gives the seven commands one by one |
| FrameCompositor.Painted | render.c:57-64 | whether a seat's current selection is painted: it holds a box and meets the output; `SeatPaintsCurrentSelection` proves a seat adds nothing exactly when it is not |
| FrameCompositor.ClearCmds | render.c:33-36 | the three clearing calls; `FrameClearsFirst` proves they open every frame and that no operator is set after them |
| FrameCompositor.ChoiceBoxesOnto | render.c:38-48 | the choice-box loop appended to what was already issued; `ChoiceBoxesOntoAppends`, `ChoiceBoxesInOrder` and `ChoiceBoxesAddNoOperatorOrText` characterise it |
| FrameCompositor.SelectionCmds | render.c:65-116 | one painted selection's commands; `SelectionCmdsShape` gives them one by one and `SelectionAddsNoOperator` proves they set no operator |
| FrameCompositor.SeatCmds | render.c:50-116 | one seat's contribution; `SeatPaintsCurrentSelection` says when it is empty and which selection it paints |
| FrameCompositor.SeatsOnto | render.c:50-117 | the seat loop appended to what was already issued; `SeatsOntoAppends`, `SeatsOntoStep` and `SeatsAddNoOperator` characterise it |
| FrameCompositor.Frame | render.c:27-118 | the whole frame; `Render` issues exactly it, and `FrameLayers`, `FrameClearsFirst` and `NoTextWithoutDimensions` characterise it |

## Left out

- The division of each channel by 255.0 is left out. Channels stay bytes, because floating point is not modelled.
- Cairo's semantics are left out: paths, fill and stroke rasterisation, compositing, fonts and glyph layout. The model records the calls, not the pixels.
- `box_intersect` is not part of this model. It is the parameter `intersect` of `Render` and `Frame`, and every property holds for any such function.
- The Wayland plumbing is left out: the output's buffer, the Cairo context, and how `render` is scheduled.
- 32-bit `int32_t` overflow in products such as `b.x * scale` is not modelled; all arithmetic is on unbounded integers.
- Render: `wl_list` iteration is modelled as iteration over a sequence in list order.
- DrawChoiceBoxes, DrawSeats, DrawSeat, DrawSelection, DrawDimensions: these are the two loops of `render`, one pass of the seat loop, its painting part and its label part, written as methods of their own. In the source that code is inline in `render`; the order of the calls is the same.
- `cairo_select_font_face`'s "Sans" family, its slant and its weight are recorded as given; font lookup is not modelled.
