/** The node-level layout pass of the group node item: `draw_node` and the
    two placement helpers it calls, `align_label` and `align_icon`.

    Base sizing, widget placement, the text colour and the tooltip belong to
    the node base class; here only the argument values this pass hands them
    are recorded. The bounding rect and node width the pass reads are the
    ones in force after base sizing, so they are inputs. */
module NodeLayout {
  import opened Geometry
  import opened PortLayout

  /** Distance of the label from the top of the node. */
  const LabelTop: real := 5.0
  /** Top-left inset of the icon. */
  const IconLeft: real := 5.0
  const IconTop: real := 6.0
  /** Padding asked of base sizing: fixed horizontally, label height plus a
      fixed amount vertically. */
  const BaseExtraWidth: real := 8.0
  const BaseExtraHeight: real := 10.0

  /** Selection and disabled flags of a node item; independent of each other. */
  datatype NodeState = NodeState(selected: bool, disabled: bool)

  /** What a layout or paint pass reads from the node item. */
  datatype NodeItem = NodeItem(
    rect: Rect,          // bounding rect
    width: real,         // node width (`_width`)
    textWidth: real,     // label text bounding width
    textHeight: real,    // label text bounding height
    inputs: seq<Port>,
    outputs: seq<Port>,
    state: NodeState)

  /** `align_icon`: the icon's top-left corner is inset (5, 6) from the
      offset origin, whatever else the node holds. */
  function AlignIcon(hOffset: real, vOffset: real): (p: Point)
    ensures p.x - hOffset == 5.0 && p.y - vOffset == 6.0
  {
    Point(IconLeft + hOffset, IconTop + vOffset)
  }

  /** `align_label`: the label is centred horizontally on the bounding rect
      (shifted by `hOffset`) and sits 5 below the top (plus `vOffset`). */
  function AlignLabel(rect: Rect, textWidth: real, hOffset: real, vOffset: real): (p: Point)
    ensures p.x + textWidth / 2.0 == rect.Center().x + hOffset
    ensures hOffset == 0.0 ==> p.x - rect.left == rect.Right() - (p.x + textWidth)
    ensures p.y - vOffset == 5.0
  {
    Point(rect.Center().x - textWidth / 2.0 + hOffset, LabelTop + vOffset)
  }

  /** What one `draw_node` pass produces: the padding asked of base sizing,
      the flag handed to the tooltip helper, the label and icon positions,
      the laid-out ports with the offset they were stacked from, and the
      offset handed to widget placement. */
  datatype DrawPass = DrawPass(
    baseAddWidth: real,
    baseAddHeight: real,
    tooltipDisabled: bool,
    labelPos: Point,
    iconPos: Point,
    portOffset: real,
    inputs: seq<Port>,
    outputs: seq<Port>,
    widgetOffset: real)

  /** `draw_node`. With h the label height: base sizing is asked for 8 more
      width and h + 10 more height; ports are stacked from 1.5 h and widgets
      from 0.5 h; the label is centred at y = 5 and the icon sits at (5, 6). */
  function DrawNode(n: NodeItem, portFalloff: real): (d: DrawPass)
    ensures d.baseAddWidth == 8.0 && d.baseAddHeight - n.textHeight == 10.0
    ensures d.portOffset == n.textHeight * 1.5 && d.widgetOffset * 2.0 == n.textHeight
    ensures d.portOffset == d.widgetOffset * 3.0
    ensures d.tooltipDisabled == n.state.disabled
    ensures d.labelPos.x + n.textWidth / 2.0 == n.rect.Center().x && d.labelPos.y == 5.0
    ensures d.iconPos == Point(5.0, 6.0)
    ensures (d.inputs, d.outputs) == AlignPorts(n.inputs, n.outputs, n.width, d.portOffset, portFalloff)
  {
    var height := n.textHeight;
    var ports := AlignPorts(n.inputs, n.outputs, n.width, height + height / 2.0, portFalloff);
    DrawPass(
      BaseExtraWidth,
      height + BaseExtraHeight,
      n.state.disabled,
      AlignLabel(n.rect, n.textWidth, 0.0, 0.0),
      AlignIcon(0.0, 0.0),
      height + height / 2.0,
      ports.0,
      ports.1,
      height / 2.0)
  }

  /** The pass does not read the selection flag, and the disabled flag only
      reaches the tooltip helper. */
  lemma DrawNodeIgnoresState(n: NodeItem, s: NodeState, portFalloff: real)
    ensures DrawNode(n.(state := s), portFalloff)
         == DrawNode(n, portFalloff).(tooltipDisabled := s.disabled)
  {
    var m := n.(state := s);
    assert m.inputs == n.inputs && m.outputs == n.outputs;
    var d := DrawNode(n, portFalloff);
    var e := DrawNode(m, portFalloff);
    assert e.portOffset == d.portOffset;
    assert e.inputs == d.inputs;
    assert e.outputs == d.outputs;
  }

  /** The label and the icon do not depend on the ports. */
  lemma LabelAndIconIgnorePorts(n: NodeItem, inputs: seq<Port>, outputs: seq<Port>, portFalloff: real)
    ensures var d := DrawNode(n, portFalloff);
      var d' := DrawNode(n.(inputs := inputs, outputs := outputs), portFalloff);
      d'.labelPos == d.labelPos && d'.iconPos == d.iconPos
  {
  }

  /** The first visible input and the first visible output both start one and
      a half label heights down. */
  lemma FirstPortsBelowLabelRow(n: NodeItem, portFalloff: real, i: nat, o: nat)
    requires i < |n.inputs| && n.inputs[i].visible && Rank(n.inputs, i) == 0
    requires o < |n.outputs| && n.outputs[o].visible && Rank(n.outputs, o) == 0
    ensures var d := DrawNode(n, portFalloff);
      d.inputs[i].pos.y == n.textHeight * 1.5 && d.outputs[o].pos.y == n.textHeight * 1.5
  {
    var d := DrawNode(n, portFalloff);
    ColumnsStartTogether(n.inputs, n.outputs, n.width, d.portOffset, portFalloff, i, o);
  }
}
