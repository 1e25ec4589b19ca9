/** The geometry and colour choices of the group node item's `paint`: the
    rectangles the node body is drawn from and which fill and border each
    receives. The drawing calls themselves are left to the rendering
    backend; colours are opaque values. */
module Painting {
  import opened Geometry
  import opened NodeLayout

  /** Inset of the body from the bounding rect. */
  const Margin: real := 6.0
  /** Offset between the body's back and front faces. */
  const Offset: real := 3.0
  /** Padding of the label backing (horizontal, vertical). */
  const PaddingX: real := 3.0
  const PaddingY: real := 2.0

  /** An RGBA colour as the node item stores it. */
  datatype Color = Color(r: int, g: int, b: int, a: int)

  /** Translucent black behind the label of an unselected node. */
  const LabelShade: Color := Color(0, 0, 0, 80)

  /** The colours `paint` can choose from: the node's own body and border
      colours and the two selection highlight constants. */
  datatype Palette = Palette(body: Color, border: Color, selectedFill: Color, selectedBorder: Color)

  /** A straight outline stroke. */
  datatype Segment = Segment(from: Point, to: Point)

  /** The rectangles of the node body: the inset rect, the back face
      (`rect_1`), the front face (`rect_2`), the side polygon joining them,
      the label backing and the outline strokes drawn besides the front
      face's own border. */
  datatype Regions = Regions(inner: Rect, back: Rect, front: Rect, side: seq<Point>,
                             labelBacking: Rect, outline: seq<Segment>)

  /** A stroke from a corner of the back face to the same corner of the front
      face. */
  predicate Connects(s: Segment, back: Rect, front: Rect) {
    && s.from.x - s.to.x == back.left - front.left
    && s.from.y - s.to.y == back.top - front.top
  }

  /** The rectangle arithmetic of `paint`, from the bounding rect and the
      label text height. */
  function PaintRegions(bounds: Rect, textHeight: real): (g: Regions)
    ensures g.inner.left - bounds.left == 6.0 && bounds.Right() - g.inner.Right() == 6.0
    ensures g.inner.top - bounds.top == 6.0 && bounds.Bottom() - g.inner.Bottom() == 6.0
    ensures g.inner.width == bounds.width - 12.0 && g.inner.height == bounds.height - 12.0
    ensures g.back == Translate(g.inner, 1.5, 4.0) && g.front == Translate(g.inner, -3.0, -3.0)
    ensures g.back == Translate(g.front, 4.5, 7.0)
    ensures g.side == [g.back.TopRight(), g.front.TopRight(), g.front.BottomLeft(), g.back.BottomLeft()]
    ensures g.side[0].x + g.side[2].x == g.side[1].x + g.side[3].x
    ensures g.side[0].y + g.side[2].y == g.side[1].y + g.side[3].y
    ensures g.labelBacking.left == g.front.left && g.labelBacking.top == g.inner.top + 2.0
    ensures g.labelBacking.Right() == g.front.Right() - 9.0
    ensures g.labelBacking.height == textHeight - 4.0
    ensures bounds.width >= 12.0 && bounds.height >= 12.0 ==>
              Within(g.inner, bounds) && Within(g.back, bounds) && Within(g.front, bounds)
    ensures |g.outline| == 5
    ensures g.outline[1] == Segment(g.back.TopRight(), g.back.BottomRight())
    ensures g.outline[2] == Segment(g.back.BottomRight(), g.back.BottomLeft())
    ensures forall k | k in {0, 3, 4} :: Connects(g.outline[k], g.back, g.front)
    ensures g.outline[0].from == g.back.TopRight() && g.outline[3].from == g.back.BottomLeft()
    ensures g.outline[4].from == g.back.BottomRight()
    ensures bounds.width >= 21.0 && 4.0 <= textHeight <= bounds.height - 13.0 ==>
              Within(g.labelBacking, g.front)
  {
    var inner := Rect(bounds.left + Margin, bounds.top + Margin,
                      bounds.width - Margin * 2.0, bounds.height - Margin * 2.0);
    var back := Rect(inner.left + Offset / 2.0, inner.top + Offset + 1.0, inner.width, inner.height);
    var front := Rect(inner.left - Offset, inner.top - Offset, inner.width, inner.height);
    var side := [back.TopRight(), front.TopRight(), front.BottomLeft(), back.BottomLeft()];
    var backing := Rect(front.left, inner.top + PaddingY,
                        inner.width - PaddingX - Margin, textHeight - PaddingY * 2.0);
    var outline := [Segment(back.TopRight(), front.TopRight()),
                    Segment(back.TopRight(), back.BottomRight()),
                    Segment(back.BottomRight(), back.BottomLeft()),
                    Segment(back.BottomLeft(), front.BottomLeft()),
                    Segment(back.BottomRight(), front.BottomRight())];
    Regions(inner, back, front, side, backing, outline)
  }

  /** Whether the front face gets a highlight drawn over it. */
  datatype Overlay = NoOverlay | Overlay(fill: Color)

  /** The fills and border colour `paint` uses. */
  datatype Treatment = Treatment(body: Color, overlay: Overlay, labelFill: Color, border: Color)

  /** Colour selection of `paint`: a selected node gets the highlight fill over
      its front face and behind its label and the highlight border; any other
      node keeps its own border and a translucent black label backing. The
      body is always filled with the node's own colour. */
  function Treat(state: NodeState, palette: Palette): (t: Treatment)
    ensures t.body == palette.body
    ensures t.overlay.Overlay? <==> state.selected
    ensures state.selected ==>
              && t.overlay == Overlay(palette.selectedFill)
              && t.labelFill == palette.selectedFill
              && t.border == palette.selectedBorder
    ensures !state.selected ==> t.labelFill == LabelShade && t.border == palette.border
  {
    var border := if state.selected then palette.selectedBorder else palette.border;
    var overlay := if state.selected then Overlay(palette.selectedFill) else NoOverlay;
    var labelFill := if state.selected then palette.selectedFill else LabelShade;
    Treatment(palette.body, overlay, labelFill, border)
  }

  /** The disabled flag does not change any colour choice. */
  lemma TreatIgnoresDisabled(selected: bool, palette: Palette)
    ensures Treat(NodeState(selected, true), palette) == Treat(NodeState(selected, false), palette)
  {
  }

  /** Everything `paint` computes before drawing. */
  datatype PaintPlan = PaintPlan(regions: Regions, treatment: Treatment)

  /** `paint` minus the drawing calls: the regions come from the bounding
      rect and label height alone, the colours from the selection flag and
      the palette alone. */
  function PaintNode(n: NodeItem, palette: Palette): (p: PaintPlan)
    ensures p.regions == PaintRegions(n.rect, n.textHeight)
    ensures p.treatment == Treat(NodeState(n.state.selected, false), palette)
    ensures p.treatment.overlay.Overlay? <==> n.state.selected
  {
    PaintPlan(PaintRegions(n.rect, n.textHeight), Treat(n.state, palette))
  }

  /** What is painted depends on the bounding rect, the label height and the
      selection flag only: not on the ports, the node width or the disabled
      flag. */
  lemma PaintReadsOnlyRectLabelAndSelection(n: NodeItem, m: NodeItem, palette: Palette)
    requires n.rect == m.rect && n.textHeight == m.textHeight
    requires n.state.selected == m.state.selected
    ensures PaintNode(n, palette) == PaintNode(m, palette)
  {
  }
}
