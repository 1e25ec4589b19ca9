/** Port stacking of the group node item (`GroupNodeItem.align_ports`).

    A column of ports is the node's declared list of input (or output) ports,
    hidden ones included. Only visible ports are moved: they are stacked from
    a starting offset, one fixed step apart, where the step is the height of
    the FIRST visible port plus one spacing unit; every port of a column shares
    one x. Each visible port's text label is then placed next to its port.
    Hidden ports and their labels keep whatever position they had. */
module PortLayout {
  import opened Geometry

  /** Gap between two stacked ports (`spacing`). */
  const Spacing: real := 1.0
  /** Inward shift of the input column from the left edge. */
  const InputInset: real := 3.0
  /** Inward shift of the output column from the node width. */
  const OutputInset: real := 9.0
  /** How far a port's label sits above the port. */
  const LabelLift: real := 1.5
  /** Horizontal shift of an input label (it reads away from the edge). */
  const InputLabelInset: real := 3.0

  datatype Direction = Input | Output

  /** A port's text item: its measured width and current position. */
  datatype PortText = PortText(width: real, pos: Point)

  /** A port: visibility flag, measured size, current position and label. */
  datatype Port = Port(visible: bool, width: real, height: real, pos: Point, text: PortText)

  /** The label offset derived from the port fall-off constant. */
  function TextOffset(portFalloff: real): real {
    portFalloff - 2.0
  }

  /** Number of visible ports among `ports[..i]`: the stacking slot that
      `ports[i]` takes when it is visible. */
  function Rank(ports: seq<Port>, i: nat): (n: nat)
    requires i <= |ports|
    ensures n <= i
  {
    if i == 0 then 0
    else (if ports[0].visible then 1 else 0) + Rank(ports[1..], i - 1)
  }

  /** The visible ports in declaration order (the list comprehension that
      opens each half of `align_ports`). */
  function Visible(ports: seq<Port>): (vis: seq<Port>)
    ensures |vis| == Rank(ports, |ports|)
    ensures forall k | 0 <= k < |vis| :: vis[k].visible
    ensures forall i | 0 <= i < |ports| && ports[i].visible ::
              Rank(ports, i) < |vis| && vis[Rank(ports, i)] == ports[i]
  {
    if |ports| == 0 then []
    else if ports[0].visible then [ports[0]] + Visible(ports[1..])
    else Visible(ports[1..])
  }

  /** The y of stacking slot `n` in a column whose slot 0 is at `y`. */
  function SlotY(y: real, step: real, n: nat): real
    decreases n
  {
    if n == 0 then y else SlotY(y + step, step, n - 1)
  }

  /** Slot `n` is `n` steps below slot 0. */
  lemma {:induction false} SlotYClosedForm(y: real, step: real, n: nat)
    ensures SlotY(y, step, n) == y + n as real * step
    decreases n
  {
    if n > 0 {
      SlotYClosedForm(y + step, step, n - 1);
    }
  }

  /** Puts every visible port of `ports` in the column at `x`, the first one at
      `y` and each next one `step` lower; hidden ports are skipped and take no
      room. */
  function Stack(ports: seq<Port>, x: real, y: real, step: real): (r: seq<Port>)
    ensures |r| == |ports|
    ensures forall i | 0 <= i < |ports| && !ports[i].visible :: r[i] == ports[i]
    ensures forall i | 0 <= i < |ports| && ports[i].visible ::
              r[i] == ports[i].(pos := Point(x, SlotY(y, step, Rank(ports, i))))
    decreases |ports|
  {
    if |ports| == 0 then []
    else if ports[0].visible then [ports[0].(pos := Point(x, y))] + Stack(ports[1..], x, y + step, step)
    else [ports[0]] + Stack(ports[1..], x, y, step)
  }

  /** Where the label of a visible port goes, given the port's final position. */
  function LabelPos(dir: Direction, p: Port, txtOffset: real): Point {
    match dir
    case Input => Point(p.width / 2.0 - txtOffset + InputLabelInset, p.pos.y - LabelLift)
    case Output => Point(p.pos.x - (p.text.width - txtOffset), p.pos.y - LabelLift)
  }

  /** The port with its label moved next to it. */
  function WithLabel(p: Port, dir: Direction, txtOffset: real): Port {
    p.(text := p.text.(pos := LabelPos(dir, p, txtOffset)))
  }

  /** The label pass: moves the label of every visible port, nothing else.
      The label sits 1.5 above its port; an input label is placed from the
      port's own width alone, an output label ends `txtOffset` right of the
      port's x. */
  function PlaceLabels(ports: seq<Port>, dir: Direction, txtOffset: real): (r: seq<Port>)
    ensures |r| == |ports|
    ensures forall i | 0 <= i < |ports| ::
              r[i] == ports[i].(text := ports[i].text.(pos := r[i].text.pos))
    ensures forall i | 0 <= i < |ports| && !ports[i].visible :: r[i] == ports[i]
    ensures forall i | 0 <= i < |ports| && ports[i].visible ::
              && r[i].text.pos.y == ports[i].pos.y - 1.5
              && (dir == Input ==> r[i].text.pos.x == ports[i].width / 2.0 - txtOffset + 3.0)
              && (dir == Output ==> r[i].text.pos.x + ports[i].text.width == ports[i].pos.x + txtOffset)
  {
    seq(|ports|, i requires 0 <= i < |ports| =>
      if ports[i].visible then WithLabel(ports[i], dir, txtOffset) else ports[i])
  }

  /** The x shared by every visible port of a column, from the first visible
      port's width `w0`; only the output column depends on the node width. */
  function ColumnX(dir: Direction, nodeWidth: real, w0: real): real {
    match dir
    case Input => -(w0 / 2.0) + InputInset
    case Output => nodeWidth - w0 / 2.0 - OutputInset
  }

  /** The first visible port: its size sets the column's x and step. */
  function Lead(ports: seq<Port>): Port
    requires |Visible(ports)| > 0
  {
    Visible(ports)[0]
  }

  /** Closed form of one column: where port `i` ends up. A hidden port stays
      as it is; a visible port of slot k goes to (column x, slot k) and its
      label beside it. */
  function Placed(ports: seq<Port>, dir: Direction, nodeWidth: real, vOffset: real,
                  portFalloff: real, i: nat): Port
    requires i < |ports|
  {
    if !ports[i].visible then ports[i]
    else
      assert Rank(ports, i) < |Visible(ports)|;
      var lead := Lead(ports);
      var moved := ports[i].(pos := Point(ColumnX(dir, nodeWidth, lead.width),
                                          SlotY(vOffset, lead.height + Spacing, Rank(ports, i))));
      WithLabel(moved, dir, TextOffset(portFalloff))
  }

  /** One half of `align_ports`: stack the visible ports of one direction
      from `vOffset`, then place their labels. The result agrees, port by
      port, with the closed form `Placed`. */
  function AlignColumn(ports: seq<Port>, dir: Direction, nodeWidth: real, vOffset: real,
                       portFalloff: real): (r: seq<Port>)
    ensures |r| == |ports|
    ensures forall i | 0 <= i < |ports| :: r[i] == Placed(ports, dir, nodeWidth, vOffset, portFalloff, i)
  {
    var vis := Visible(ports);
    var placed :=
      if |vis| == 0 then ports
      else Stack(ports, ColumnX(dir, nodeWidth, vis[0].width), vOffset, vis[0].height + Spacing);
    PlaceLabels(placed, dir, TextOffset(portFalloff))
  }

  /** Input half of `align_ports`. Only positions change. Hidden inputs are
      untouched; the visible input of slot k sits at (-(w0/2) + 3, slot k of a
      column starting at `vOffset` with step h0 + 1), where (w0, h0) is the
      size of the first visible input, and its label at
      (own width/2 - (PORT_FALLOFF - 2) + 3, port y - 1.5). */
  function AlignInputs(ports: seq<Port>, vOffset: real, portFalloff: real): (r: seq<Port>)
    ensures |r| == |ports|
    ensures forall i | 0 <= i < |ports| ::
              r[i] == ports[i].(pos := r[i].pos, text := ports[i].text.(pos := r[i].text.pos))
    ensures forall i | 0 <= i < |ports| && !ports[i].visible :: r[i] == ports[i]
    ensures forall i | 0 <= i < |ports| && ports[i].visible ::
              && |Visible(ports)| > 0
              && r[i].pos == Point(-(Lead(ports).width / 2.0) + 3.0,
                                   SlotY(vOffset, Lead(ports).height + Spacing, Rank(ports, i)))
    ensures forall i | 0 <= i < |ports| && ports[i].visible ::
              r[i].text.pos == Point(ports[i].width / 2.0 - (portFalloff - 2.0) + 3.0, r[i].pos.y - 1.5)
  {
    AlignColumn(ports, Input, 0.0, vOffset, portFalloff)
  }

  /** Output half of `align_ports`. Only positions change. Hidden outputs are
      untouched; the visible output of slot k sits at
      (nodeWidth - w0/2 - 9, slot k of a column starting at `vOffset` with
      step h0 + 1), where (w0, h0) is the size of the first visible output,
      and its label ends (PORT_FALLOFF - 2) right of the port's x, 1.5 above
      the port. */
  function AlignOutputs(ports: seq<Port>, nodeWidth: real, vOffset: real, portFalloff: real): (r: seq<Port>)
    ensures |r| == |ports|
    ensures forall i | 0 <= i < |ports| ::
              r[i] == ports[i].(pos := r[i].pos, text := ports[i].text.(pos := r[i].text.pos))
    ensures forall i | 0 <= i < |ports| && !ports[i].visible :: r[i] == ports[i]
    ensures forall i | 0 <= i < |ports| && ports[i].visible ::
              && |Visible(ports)| > 0
              && r[i].pos == Point(nodeWidth - Lead(ports).width / 2.0 - 9.0,
                                   SlotY(vOffset, Lead(ports).height + Spacing, Rank(ports, i)))
    ensures forall i | 0 <= i < |ports| && ports[i].visible ::
              r[i].text.pos == Point(r[i].pos.x - (ports[i].text.width - (portFalloff - 2.0)), r[i].pos.y - 1.5)
  {
    AlignColumn(ports, Output, nodeWidth, vOffset, portFalloff)
  }

  /** `align_ports`: the two columns are laid out independently, from the
      same starting offset. */
  function AlignPorts(inputs: seq<Port>, outputs: seq<Port>, nodeWidth: real, vOffset: real,
                      portFalloff: real): (r: (seq<Port>, seq<Port>))
    ensures r.0 == AlignInputs(inputs, vOffset, portFalloff)
    ensures r.1 == AlignOutputs(outputs, nodeWidth, vOffset, portFalloff)
  {
    (AlignColumn(inputs, Input, 0.0, vOffset, portFalloff),
     AlignColumn(outputs, Output, nodeWidth, vOffset, portFalloff))
  }

  // ---------------------------------------------------------------------
  // Slots and ranks

  /** Each slot lies one step below the previous one. */
  lemma {:induction false} SlotYNext(y: real, step: real, n: nat)
    ensures SlotY(y, step, n + 1) == SlotY(y, step, n) + step
    decreases n
  {
    if n > 0 {
      SlotYNext(y + step, step, n - 1);
    }
  }

  /** With a positive step, a later slot lies at least one step lower. */
  lemma {:induction false} SlotYIncreasing(y: real, step: real, n: nat, m: nat)
    requires step > 0.0 && n < m
    ensures SlotY(y, step, n) + step <= SlotY(y, step, m)
    decreases m
  {
    SlotYNext(y, step, m - 1);
    if n < m - 1 {
      SlotYIncreasing(y, step, n, m - 1);
    }
  }

  /** A visible port takes a slot that every later port's slot exceeds. */
  lemma {:induction false} RankIncreasing(ports: seq<Port>, i: nat, j: nat)
    requires i < j <= |ports| && ports[i].visible
    ensures Rank(ports, i) < Rank(ports, j)
    decreases i
  {
    if i > 0 {
      RankIncreasing(ports[1..], i - 1, j - 1);
    } else {
      assert Rank(ports, j) == 1 + Rank(ports[1..], j - 1);
    }
  }

  /** Every slot of the visible list is taken by some visible port. */
  lemma {:induction false} RankOnto(ports: seq<Port>, k: nat)
    requires k < |Visible(ports)|
    ensures exists i | 0 <= i < |ports| :: ports[i].visible && Rank(ports, i) == k
    decreases |ports|
  {
    if ports[0].visible && k == 0 {
      assert Rank(ports, 0) == 0;
    } else {
      var k' := if ports[0].visible then k - 1 else k;
      RankOnto(ports[1..], k');
      var i :| 0 <= i < |ports[1..]| && ports[1..][i].visible && Rank(ports[1..], i) == k';
      assert ports[i + 1] == ports[1..][i];
      assert Rank(ports, i + 1) == k;
    }
  }

  /** Ranks depend on the visibility flags only. */
  lemma {:induction false} RankSameFlags(a: seq<Port>, b: seq<Port>, i: nat)
    requires |a| == |b| && i <= |a|
    requires forall k | 0 <= k < |a| :: a[k].visible == b[k].visible
    ensures Rank(a, i) == Rank(b, i)
    decreases i
  {
    if i > 0 {
      RankSameFlags(a[1..], b[1..], i - 1);
    }
  }

  /** `ports` with port `j` hidden. */
  function Hide(ports: seq<Port>, j: nat): (h: seq<Port>)
    requires j < |ports|
    ensures |h| == |ports| && !h[j].visible
    ensures forall i | 0 <= i < |ports| && i != j :: h[i] == ports[i]
  {
    ports[j := ports[j].(visible := false)]
  }

  /** Hiding a visible port leaves the slots of the ports before it alone and
      moves every later port up by one slot. */
  lemma {:induction false} RankHide(ports: seq<Port>, j: nat, i: nat)
    requires j < |ports| && ports[j].visible && i <= |ports|
    ensures i <= j ==> Rank(Hide(ports, j), i) == Rank(ports, i)
    ensures i > j ==> Rank(Hide(ports, j), i) + 1 == Rank(ports, i)
    decreases i
  {
    if i > 0 {
      if j == 0 {
        assert Hide(ports, j)[1..] == ports[1..];
      } else {
        assert Hide(ports, j)[1..] == Hide(ports[1..], j - 1);
        RankHide(ports[1..], j - 1, i - 1);
      }
    }
  }

  // ---------------------------------------------------------------------
  // Properties of one column

  /** The visible ports are stacked downwards in declaration order, one full
      step apart: a later visible port is never above an earlier one. */
  lemma StackedInOrder(ports: seq<Port>, dir: Direction, nodeWidth: real, vOffset: real,
                       portFalloff: real, i: nat, j: nat)
    requires i < j < |ports| && ports[i].visible && ports[j].visible
    requires Lead(ports).height >= 0.0
    ensures var r := AlignColumn(ports, dir, nodeWidth, vOffset, portFalloff);
      && r[i].pos.x == r[j].pos.x
      && r[i].pos.y + Lead(ports).height + Spacing <= r[j].pos.y
  {
    RankIncreasing(ports, i, j);
    SlotYIncreasing(vOffset, Lead(ports).height + Spacing, Rank(ports, i), Rank(ports, j));
  }

  /** When no visible port is taller than the first one, the vertical spans of
      two visible ports never overlap. */
  lemma NoOverlapWhenNoneTallerThanLead(ports: seq<Port>, dir: Direction, nodeWidth: real, vOffset: real,
                                        portFalloff: real, i: nat, j: nat)
    requires i < j < |ports| && ports[i].visible && ports[j].visible
    requires forall k | 0 <= k < |ports| && ports[k].visible :: 0.0 <= ports[k].height <= Lead(ports).height
    ensures var r := AlignColumn(ports, dir, nodeWidth, vOffset, portFalloff);
      r[i].pos.y + r[i].height < r[j].pos.y
  {
    assert Rank(ports, i) < |Visible(ports)|;
    StackedInOrder(ports, dir, nodeWidth, vOffset, portFalloff, i, j);
  }

  /** The step is the first visible port's height, not each port's own: a
      visible port taller than the first one reaches into the next port. */
  lemma TallerPortOverlapsNext()
    ensures var ports := [TestPort(10.0), TestPort(12.0), TestPort(10.0)];
      var r := AlignColumn(ports, Input, 0.0, 0.0, 0.0);
      r[1].pos.y + r[1].height > r[2].pos.y
  {
    var ports := [TestPort(10.0), TestPort(12.0), TestPort(10.0)];
    assert Rank(ports, 1) == 1 && Rank(ports, 2) == 2;
    assert Lead(ports) == ports[0] by { assert Rank(ports, 0) == 0; }
    SlotYNext(0.0, 11.0, 1);
  }

  /** A visible port of the given height at the origin, used in examples. */
  function TestPort(height: real): Port {
    Port(true, 10.0, height, Point(0.0, 0.0), PortText(20.0, Point(0.0, 0.0)))
  }

  /** Three visible inputs 10 high, stacked from 20, land at 20, 31 and 42. */
  lemma ThreeInputsOfHeightTen()
    ensures var r := AlignColumn([TestPort(10.0), TestPort(10.0), TestPort(10.0)], Input, 0.0, 20.0, 0.0);
      r[0].pos.y == 20.0 && r[1].pos.y == 31.0 && r[2].pos.y == 42.0
  {
    var ports := [TestPort(10.0), TestPort(10.0), TestPort(10.0)];
    assert Rank(ports, 0) == 0 && Rank(ports, 1) == 1 && Rank(ports, 2) == 2;
    assert Lead(ports) == ports[0];
    SlotYNext(20.0, 11.0, 1);
  }

  /** Layout keeps every port's visibility flag. */
  lemma ColumnKeepsFlags(ports: seq<Port>, dir: Direction, nodeWidth: real, vOffset: real, portFalloff: real)
    ensures var r := AlignColumn(ports, dir, nodeWidth, vOffset, portFalloff);
      forall i | 0 <= i < |ports| :: r[i].visible == ports[i].visible
  {
  }

  /** The k-th visible port after layout takes slot k of the column. */
  lemma KthVisibleSlot(ports: seq<Port>, dir: Direction, nodeWidth: real, vOffset: real,
                       portFalloff: real, k: nat)
    requires k < |Visible(ports)|
    ensures var r := AlignColumn(ports, dir, nodeWidth, vOffset, portFalloff);
      && |Visible(r)| == |Visible(ports)|
      && Visible(r)[k].pos == Point(ColumnX(dir, nodeWidth, Lead(ports).width),
                                    SlotY(vOffset, Lead(ports).height + Spacing, k))
  {
    var r := AlignColumn(ports, dir, nodeWidth, vOffset, portFalloff);
    ColumnKeepsFlags(ports, dir, nodeWidth, vOffset, portFalloff);
    RankOnto(ports, k);
    var i :| 0 <= i < |ports| && ports[i].visible && Rank(ports, i) == k;
    RankSameFlags(r, ports, i);
    RankSameFlags(r, ports, |ports|);
    assert r[i] == Placed(ports, dir, nodeWidth, vOffset, portFalloff, i);
    assert Visible(r)[Rank(r, i)] == r[i];
  }

  /** Hiding a visible port that is not the first visible one keeps the
      first visible port, and so the column's x and step. */
  lemma HideKeepsLead(ports: seq<Port>, j: nat)
    requires j < |ports| && ports[j].visible && Rank(ports, j) > 0
    ensures |Visible(Hide(ports, j))| > 0 && Lead(Hide(ports, j)) == Lead(ports)
  {
    var hidden := Hide(ports, j);
    RankOnto(ports, 0);
    var f :| 0 <= f < |ports| && ports[f].visible && Rank(ports, f) == 0;
    if f > j {
      RankIncreasing(ports, j, f);
    }
    assert f < j;
    RankHide(ports, j, f);
    assert hidden[f].visible;
    assert Visible(hidden)[Rank(hidden, f)] == hidden[f];
    assert Visible(ports)[Rank(ports, f)] == ports[f];
  }

  /** A port before the hidden one keeps its place. */
  lemma HideKeepsEarlier(ports: seq<Port>, dir: Direction, nodeWidth: real, vOffset: real,
                         portFalloff: real, j: nat, i: nat)
    requires i < j < |ports| && ports[j].visible && Rank(ports, j) > 0
    ensures Placed(Hide(ports, j), dir, nodeWidth, vOffset, portFalloff, i)
         == Placed(ports, dir, nodeWidth, vOffset, portFalloff, i)
  {
    HideKeepsLead(ports, j);
    RankHide(ports, j, i);
  }

  /** A visible port after the hidden one moves up by one step. */
  lemma HideShiftsLater(ports: seq<Port>, dir: Direction, nodeWidth: real, vOffset: real,
                        portFalloff: real, j: nat, i: nat)
    requires j < i < |ports| && ports[j].visible && ports[i].visible && Rank(ports, j) > 0
    ensures var after := Placed(Hide(ports, j), dir, nodeWidth, vOffset, portFalloff, i);
      var before := Placed(ports, dir, nodeWidth, vOffset, portFalloff, i);
      && after.pos.x == before.pos.x
      && after.pos.y + Lead(ports).height + Spacing == before.pos.y
      && after.text.pos.x == before.text.pos.x
      && after.text.pos.y + Lead(ports).height + Spacing == before.text.pos.y
  {
    var hidden := Hide(ports, j);
    HideKeepsLead(ports, j);
    RankHide(ports, j, i);
    var lead := Lead(ports);
    var n := Rank(hidden, i);
    assert Rank(ports, i) == n + 1;
    SlotYNext(vOffset, lead.height + Spacing, n);
    PlacedVisible(hidden, dir, nodeWidth, vOffset, portFalloff, i);
    PlacedVisible(ports, dir, nodeWidth, vOffset, portFalloff, i);
  }

  /** Where a visible port and its label go. */
  lemma PlacedVisible(ports: seq<Port>, dir: Direction, nodeWidth: real, vOffset: real,
                      portFalloff: real, i: nat)
    requires i < |ports| && ports[i].visible
    ensures |Visible(ports)| > 0
    ensures var p := Placed(ports, dir, nodeWidth, vOffset, portFalloff, i);
      && p.pos == Point(ColumnX(dir, nodeWidth, Lead(ports).width),
                        SlotY(vOffset, Lead(ports).height + Spacing, Rank(ports, i)))
      && p.text.pos.y == p.pos.y - LabelLift
  {
    assert Rank(ports, i) < |Visible(ports)|;
  }

  /** Hiding a visible port that is not the first visible one: that port and
      its label stay where they were, the ports before it do not move, and
      every visible port after it moves up by exactly one step. */
  lemma HidingShiftsOnlyLaterPorts(ports: seq<Port>, dir: Direction, nodeWidth: real, vOffset: real,
                                   portFalloff: real, j: nat)
    requires j < |ports| && ports[j].visible && Rank(ports, j) > 0
    ensures var before := AlignColumn(ports, dir, nodeWidth, vOffset, portFalloff);
      var after := AlignColumn(Hide(ports, j), dir, nodeWidth, vOffset, portFalloff);
      && after[j] == Hide(ports, j)[j]
      && (forall i | 0 <= i < j :: after[i] == before[i])
      && (forall i | j < i < |ports| && ports[i].visible ::
            && after[i].pos.x == before[i].pos.x
            && after[i].pos.y + Lead(ports).height + Spacing == before[i].pos.y
            && after[i].text.pos.x == before[i].text.pos.x
            && after[i].text.pos.y + Lead(ports).height + Spacing == before[i].text.pos.y)
  {
    var before := AlignColumn(ports, dir, nodeWidth, vOffset, portFalloff);
    var after := AlignColumn(Hide(ports, j), dir, nodeWidth, vOffset, portFalloff);
    var step := Lead(ports).height + Spacing;
    forall i | 0 <= i < j
      ensures after[i] == before[i]
    {
      HideKeepsEarlier(ports, dir, nodeWidth, vOffset, portFalloff, j, i);
    }
    forall i | j < i < |ports| && ports[i].visible
      ensures && after[i].pos.x == before[i].pos.x
              && after[i].pos.y + step == before[i].pos.y
              && after[i].text.pos.x == before[i].text.pos.x
              && after[i].text.pos.y + step == before[i].text.pos.y
    {
      HideShiftsLater(ports, dir, nodeWidth, vOffset, portFalloff, j, i);
    }
  }

  /** Hiding the first visible port: the ports before it are all hidden, so
      they and the hidden port itself stay where they were. */
  lemma HidingFirstKeepsEarlierPorts(ports: seq<Port>, dir: Direction, nodeWidth: real, vOffset: real,
                                     portFalloff: real, j: nat)
    requires j < |ports| && ports[j].visible && Rank(ports, j) == 0
    ensures var before := AlignColumn(ports, dir, nodeWidth, vOffset, portFalloff);
      var after := AlignColumn(Hide(ports, j), dir, nodeWidth, vOffset, portFalloff);
      && after[j] == Hide(ports, j)[j]
      && (forall i | 0 <= i < j :: !ports[i].visible && after[i] == before[i])
  {
    forall i | 0 <= i < j
      ensures !ports[i].visible
    {
      if ports[i].visible {
        RankIncreasing(ports, i, j);
      }
    }
  }

  /** The y of a visible port after layout, as a slot of the column. */
  lemma ColumnSlot(ports: seq<Port>, dir: Direction, nodeWidth: real, vOffset: real,
                   portFalloff: real, i: nat)
    requires i < |ports| && ports[i].visible
    ensures |Visible(ports)| > 0
    ensures AlignColumn(ports, dir, nodeWidth, vOffset, portFalloff)[i].pos.y
         == SlotY(vOffset, Lead(ports).height + Spacing, Rank(ports, i))
  {
    PlacedVisible(ports, dir, nodeWidth, vOffset, portFalloff, i);
  }

  /** `a` is the slot `n` of a column at `y` with `step`, in closed form. */
  lemma SlotValue(a: real, y: real, step: real, n: nat)
    requires a == SlotY(y, step, n)
    ensures a == y + n as real * step
  {
    SlotYClosedForm(y, step, n);
  }

  /** The laid-out column in closed form: a visible port with k visible ports
      before it sits k steps of (first height + spacing) below `vOffset`. */
  lemma ColumnY(ports: seq<Port>, dir: Direction, nodeWidth: real, vOffset: real,
                portFalloff: real, i: nat, k: nat, step: real)
    requires i < |ports| && ports[i].visible && k == Rank(ports, i)
    requires |Visible(ports)| > 0 && step == Lead(ports).height + Spacing
    ensures AlignColumn(ports, dir, nodeWidth, vOffset, portFalloff)[i].pos.y == vOffset + k as real * step
  {
    ColumnSlot(ports, dir, nodeWidth, vOffset, portFalloff, i);
    var y := AlignColumn(ports, dir, nodeWidth, vOffset, portFalloff)[i].pos.y;
    SlotValue(y, vOffset, step, k);
  }

  /** No visible port: the column is returned unchanged. */
  lemma NothingVisibleNothingMoves(ports: seq<Port>, dir: Direction, nodeWidth: real, vOffset: real,
                                   portFalloff: real)
    requires forall i | 0 <= i < |ports| :: !ports[i].visible
    ensures AlignColumn(ports, dir, nodeWidth, vOffset, portFalloff) == ports
  {
  }

  // ---------------------------------------------------------------------
  // Properties of the two columns together

  /** Both columns start at the same offset: the first visible input and the
      first visible output both sit at `vOffset`. */
  lemma ColumnsStartTogether(inputs: seq<Port>, outputs: seq<Port>, nodeWidth: real, vOffset: real,
                             portFalloff: real, i: nat, o: nat)
    requires i < |inputs| && inputs[i].visible && Rank(inputs, i) == 0
    requires o < |outputs| && outputs[o].visible && Rank(outputs, o) == 0
    ensures var r := AlignPorts(inputs, outputs, nodeWidth, vOffset, portFalloff);
      r.0[i].pos.y == vOffset && r.1[o].pos.y == vOffset
  {
  }

  /** Widening the node by `d` moves every visible output and its label `d`
      to the right and nothing else; the inputs do not depend on the width. */
  lemma WidthMovesOnlyOutputs(inputs: seq<Port>, outputs: seq<Port>, nodeWidth: real, d: real,
                              vOffset: real, portFalloff: real)
    ensures var narrow := AlignPorts(inputs, outputs, nodeWidth, vOffset, portFalloff);
      var wide := AlignPorts(inputs, outputs, nodeWidth + d, vOffset, portFalloff);
      && wide.0 == narrow.0
      && |wide.1| == |narrow.1|
      && (forall i | 0 <= i < |outputs| && !outputs[i].visible :: wide.1[i] == narrow.1[i])
      && (forall i | 0 <= i < |outputs| && outputs[i].visible ::
            && wide.1[i].pos == Point(narrow.1[i].pos.x + d, narrow.1[i].pos.y)
            && wide.1[i].text.pos == Point(narrow.1[i].text.pos.x + d, narrow.1[i].text.pos.y))
  {
    forall i | 0 <= i < |outputs| {
      OutputShift(outputs, nodeWidth, d, vOffset, portFalloff, i);
    }
  }

  /** One output port under a width change of `d`. */
  lemma OutputShift(outputs: seq<Port>, nodeWidth: real, d: real, vOffset: real, portFalloff: real, i: nat)
    requires i < |outputs|
    ensures var narrow := Placed(outputs, Output, nodeWidth, vOffset, portFalloff, i);
      var wide := Placed(outputs, Output, nodeWidth + d, vOffset, portFalloff, i);
      && (!outputs[i].visible ==> wide == narrow)
      && (outputs[i].visible ==>
            && wide.pos == Point(narrow.pos.x + d, narrow.pos.y)
            && wide.text.pos == Point(narrow.text.pos.x + d, narrow.text.pos.y))
  {
  }
}
