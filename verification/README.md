# Group node item layout (NodeGraphQt)

A Dafny model of the layout arithmetic of NodeGraphQt's `GroupNodeItem`, the
graphics item that draws a group node in vertical-layout style. The model
covers five pieces of `NodeGraphQt/qgraphics/node_group.py`:

- `align_ports`: stacks the visible input and output ports in two columns
  and puts each port's text label beside its port.
- `align_label`: centres the node name.
- `align_icon`: places the icon.
- `draw_node`: the layout pass that calls the three above. The model keeps
  the argument values it hands to base sizing, the tooltip and widget
  placement.
- `paint`: the rectangles the node body is drawn from, and which fill and
  border colour each one gets.

Everything is a pure function over exact `real` coordinates:

- `Geometry` holds points and rectangles. They mean what a QRectF means.
- `PortLayout` models `align_ports`.
- `NodeLayout` models `align_label`, `align_icon` and `draw_node`.
- `Painting` models the region arithmetic and colour choices of `paint`.

A column of ports is the node's whole declared port list for one direction,
with hidden ports included.

- Hidden ports and their labels are returned unchanged, because the source
  never moves them.
- The visible port that is k-th in declaration order goes to slot k of the
  column. `Rank` counts a port's slot, and `SlotY` computes slot k's y.
- Every port of a column gets the same x and the same step. Both come from
  the first visible port's size.

Every port advances the running offset by the first visible port's height
plus one, not by its own height: `port_height` is read once, before the
loop. So two ports of a column stay clear of each other only while no
visible port is taller than the first one
(`NoOverlapWhenNoneTallerThanLead`). With heights 10, 12, 10, the second
port reaches into the third (`TallerPortOverlapsNext`).

A selected node gets the highlight over the front face (`rect_2`) only; both
faces are first filled with the node's own colour (`Painting.Treat`).

## Model

| member | source | states |
|---|---|---|
| `PortLayout.Visible` | NodeGraphQt/qgraphics/node_group.py:140 | The visible list holds exactly the visible ports, in declaration order. A visible port with k visible ports before it is entry k. |
| `PortLayout.Stack` | NodeGraphQt/qgraphics/node_group.py:141-149 | Hidden ports are unchanged and take no room. A visible port moves to the shared column x and the y of its slot. Nothing else about the port changes. |
| `PortLayout.SlotYClosedForm` | NodeGraphQt/qgraphics/node_group.py:146-149 | The running offset after n visible ports is the starting offset plus n steps. |
| `PortLayout.PlaceLabels` | NodeGraphQt/qgraphics/node_group.py:150-155 | The label pass changes nothing but label positions, and leaves hidden ports and their labels untouched. A visible port's label sits 1.5 above the port. An input label's x is the port's own width/2 - offset + 3, whatever the port's x. An output label ends `offset` to the right of the port's x. |
| `PortLayout.AlignColumn` | NodeGraphQt/qgraphics/node_group.py:139-173 | Stacking followed by labelling agrees, port by port, with a closed form. That form places a visible port of slot k at the column x and slot k's y. It puts the port's label beside it and leaves hidden ports alone. |
| `PortLayout.AlignInputs` | NodeGraphQt/qgraphics/node_group.py:139-155 | Inputs, port by port: only positions change and hidden inputs are untouched. A visible input sits at x = -(w0/2) + 3, where w0 is the first visible input's width. Its y is slot k of a column that starts at the offset with step h0 + 1. Its label sits at (own width/2 - (PORT_FALLOFF - 2) + 3, port y - 1.5). |
| `PortLayout.AlignOutputs` | NodeGraphQt/qgraphics/node_group.py:157-173 | Outputs, port by port: only positions change and hidden outputs are untouched. A visible output sits at x = node width - w0/2 - 9, with y as for inputs. Its label's x is the port x minus (label width - (PORT_FALLOFF - 2)), and its y is 1.5 above the port. |
| `PortLayout.AlignPorts` | NodeGraphQt/qgraphics/node_group.py:128-173 | The inputs and outputs are stacked independently from the same offset: the input column is the input layout of the inputs alone, and the output column is the output layout of the outputs alone at the node width. |
| `PortLayout.StackedInOrder` | NodeGraphQt/qgraphics/node_group.py:146-149 | Visible ports of a column share one x. A later visible port lies at least one full step below an earlier one. |
| `PortLayout.NoOverlapWhenNoneTallerThanLead` | NodeGraphQt/qgraphics/node_group.py:143-149 | Suppose no visible port is taller than the first visible port. Then the vertical spans of two visible ports of a column never overlap. |
| `PortLayout.TallerPortOverlapsNext` | NodeGraphQt/qgraphics/node_group.py:143-149 | The step comes from the first port only. Take heights 10, 12, 10 stacked from 0: the 12-high port ends below the top of the next port. |
| `PortLayout.ThreeInputsOfHeightTen` | NodeGraphQt/qgraphics/node_group.py:146-149 | Three visible inputs 10 high, stacked from 20, land at y = 20, 31 and 42. |
| `PortLayout.KthVisibleSlot` | NodeGraphQt/qgraphics/node_group.py:140-149 | After layout, the same number of ports are visible. The k-th visible port sits at the column x and slot k. |
| `PortLayout.ColumnKeepsFlags` | NodeGraphQt/qgraphics/node_group.py:139-173 | Layout never changes whether a port is visible. |
| `PortLayout.NothingVisibleNothingMoves` | NodeGraphQt/qgraphics/node_group.py:140-141 | A column with no visible port comes back unchanged. |
| `PortLayout.RankHide` | NodeGraphQt/qgraphics/node_group.py:140 | Hiding a visible port keeps the slots of the ports before it. Every later port moves up one slot. |
| `PortLayout.HidingShiftsOnlyLaterPorts` | NodeGraphQt/qgraphics/node_group.py:140-155 | Hide a visible port that is not the first visible one. That port and its label stay where they were, and the ports before it are unchanged. Every later visible port, and its label, moves up by exactly one step and keeps its x. |
| `PortLayout.ColumnY` | NodeGraphQt/qgraphics/node_group.py:143-149 | In closed form: a visible port with k visible ports before it sits at y = offset + k * (h0 + 1), where h0 is the first visible port's height. |
| `PortLayout.HidingFirstKeepsEarlierPorts` | NodeGraphQt/qgraphics/node_group.py:140-155 | Hide the first visible port. Every port before it is hidden and stays where it was, and the hidden port itself stays put too. |
| `PortLayout.ColumnsStartTogether` | NodeGraphQt/qgraphics/node_group.py:146-164 | The first visible input and the first visible output both start at the offset passed in. |
| `PortLayout.WidthMovesOnlyOutputs` | NodeGraphQt/qgraphics/node_group.py:157-173 | Widening the node by d leaves the inputs unchanged. Every visible output and its label move d to the right, and hidden outputs stay put. |
| `NodeLayout.AlignIcon` | NodeGraphQt/qgraphics/node_group.py:102-112 | The icon's corner is (5, 6) from the offset origin. |
| `NodeLayout.AlignLabel` | NodeGraphQt/qgraphics/node_group.py:114-126 | The label's midpoint lies on the bounding rect's vertical centre line, shifted by the horizontal offset. With no shift, the gap to each side is equal. The label's top is 5 below the offset origin. |
| `NodeLayout.DrawNode` | NodeGraphQt/qgraphics/node_group.py:175-199 | With h the label height, base sizing is asked for 8 more width and h + 10 more height. Ports are stacked from 1.5 h and widgets from 0.5 h, so ports start three times as far down as widgets. The tooltip gets the disabled flag. The label is centred at y = 5 and the icon sits at (5, 6). |
| `NodeLayout.DrawNodeIgnoresState` | NodeGraphQt/qgraphics/node_group.py:180-199 | The layout pass does not depend on the selected flag. The disabled flag reaches only the tooltip. |
| `NodeLayout.LabelAndIconIgnorePorts` | NodeGraphQt/qgraphics/node_group.py:193-195 | For a given bounding rect, the label and icon positions do not depend on the ports. |
| `NodeLayout.FirstPortsBelowLabelRow` | NodeGraphQt/qgraphics/node_group.py:180-197 | The first visible input and the first visible output both sit 1.5 label heights down. |
| `Painting.PaintRegions` | NodeGraphQt/qgraphics/node_group.py:39-58 | The body is the bounding rect inset by 6 on every side. The back face is the body moved by (1.5, 4), the front face the body moved by (-3, -3), so the back face is the front face moved by (4.5, 7). The side polygon joins their corners and is a parallelogram. Each face lies within the bounds when the bounds are at least 12 by 12. The label backing starts at the front face's left and at body top + 2. It stops 9 short of the front face's right edge, and is the label height minus 4 tall. It fits in the front face when the bounds are at least 21 wide and the label height lies between 4 and the bounds height minus 13. |
| `Painting.Treat` | NodeGraphQt/qgraphics/node_group.py:60-85 | The front face gets a highlight overlay if and only if the node is selected. A selected node uses the highlight fill behind its label and the highlight border. Any other node uses a translucent black label backing, (0, 0, 0, 80), and its own border. The body always uses the node's own colour. |
| `Painting.TreatIgnoresDisabled` | NodeGraphQt/qgraphics/node_group.py:65-83 | The disabled flag changes no colour choice. |
| `Painting.PaintNode` | NodeGraphQt/qgraphics/node_group.py:22-100 | Everything `paint` computes before drawing: the regions from the bounding rect and label height, and the colours from the palette and the selected flag, as for a node that is not disabled. The front face is highlighted if and only if the node is selected. |
| `Painting.PaintReadsOnlyRectLabelAndSelection` | NodeGraphQt/qgraphics/node_group.py:39-97 | What `paint` computes depends only on the bounding rect, the label height and the selected flag. It does not depend on the ports, the node width or the disabled flag. |

## Left out

- The drawing calls, pens, brushes and painter state of `paint` are left to the rendering backend. This includes the outline pen's width of 0.8, its join and cap styles, and drawing order. The model keeps the rectangles, the outline strokes and the colour choices.
- The node base class is not part of this model. Its members are taken as inputs:
  - `_set_base_size`, `align_widgets` and `_tooltip_disable`: `DrawNode` records the arguments they receive.
  - `_set_text_color` (called from `draw_node` with the node's text colour) and `auto_switch_mode` (called from `paint` with no arguments): both calls are left out.
  - `boundingRect` and `_width`: the bounding rect and the node width are inputs.
  - `PORT_FALLOFF` and the selection colour constants: these are parameters (`portFalloff`, `Palette`).
- `NodeGraphQt/nodes/group_node.py` holds only a constructor in this revision, so it is not modelled. There are no expand or collapse operations to model.
- `setup.py` is packaging.
- Coordinates are exact reals, not IEEE doubles, so rounding is not modelled.
- `PortLayout.AlignColumn` assumes every port has a text item. The source moves only labels present in `_input_items` / `_output_items`.
- `PortLayout.HidingShiftsOnlyLaterPorts` requires a visible port before the hidden one. Hiding the first visible port changes the column's x and step, which come from the new first port, so every later port may move; `PortLayout.HidingFirstKeepsEarlierPorts` covers only the ports before it in that case.
- `NodeLayout.LabelAndIconIgnorePorts` holds the bounding rect fixed. In the program, base sizing runs before `align_label` reads the bounding rect, so the label's x can depend on the ports through the node's size; base sizing is not part of this model.
- `PortLayout.NoOverlapWhenNoneTallerThanLead` holds only when no visible port is taller than the first one, because the code as written uses the first port's height for every step.
