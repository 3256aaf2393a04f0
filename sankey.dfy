// The cash-flow Sankey diagrams: the live one (web/src/components/SankeyDiagram.jsx)
// with its column layout that grows with the busiest column, and the two
// archived ones (archive/MatrixSankey.jsx and the diagram in archive/src/App.jsx)
// with fixed strides. All three share the per-node inflow sum, the flow
// thickness, the curve between two positioned nodes and (the animated ones)
// the particle buffer.

module Sankey {
  import opened Js
  import opened Records
  import Seqs

  // ---------------------------------------------------------------------
  // Inflow sums and displayed values
  // ---------------------------------------------------------------------

  function FlowInto(id: int): Flow -> bool
  {
    (f: Flow) => f.to == id
  }

  function FlowAmount(f: Flow): real { f.amount }

  /** A flow's amount where it enters the given node, 0 for every other flow. */
  function AmountInto(id: int): Flow -> real
  {
    (f: Flow) => if f.to == id then f.amount else 0.0
  }

  /** getNodeInflowAmount: the amounts of the flows into the node, added up. */
  function InflowAmount(id: int, flows: seq<Flow>): (r: real)
    ensures (forall f :: f in flows ==> f.to != id) ==> r == 0.0
  {
    var into := Seqs.Filter(flows, FlowInto(id));
    assert into != [] ==> into[0] in into;
    Seqs.Sum(into, FlowAmount)
  }

  /** The inflow is the sum over all flows of the amount each one brings into the node. */
  lemma {:induction false} InflowIsMaskedSum(id: int, flows: seq<Flow>)
    ensures InflowAmount(id, flows) == Seqs.Sum(flows, AmountInto(id))
  {
    if flows != [] {
      var init := flows[..|flows| - 1];
      var f := flows[|flows| - 1];
      assert flows == init + [f];
      InflowIsMaskedSum(id, init);
      Seqs.FilterSnoc(init, f, FlowInto(id));
      if f.to == id {
        Seqs.SumSnoc(Seqs.Filter(init, FlowInto(id)), f, FlowAmount);
      } else {
        assert Seqs.Filter(init, FlowInto(id)) + [] == Seqs.Filter(init, FlowInto(id));
      }
    }
  }

  /** Adding a flow raises its target's inflow by its amount and no other node's. */
  lemma AddingFlowRaisesOnlyTarget(id: int, flows: seq<Flow>, f: Flow)
    ensures InflowAmount(id, flows + [f]) == InflowAmount(id, flows) + (if f.to == id then f.amount else 0.0)
  {
    InflowIsMaskedSum(id, flows);
    InflowIsMaskedSum(id, flows + [f]);
    Seqs.SumSnoc(flows, f, AmountInto(id));
  }

  /** The value written inside a node: an income node's own amount (0 when
      absent), every other node's inflow. */
  function NodeValue(n: Node, flows: seq<Flow>): (r: real)
    ensures n.kind == Income ==> r == OrZero(n.amount)
    ensures n.kind != Income ==> r == Seqs.Sum(flows, AmountInto(n.id))
  {
    InflowIsMaskedSum(n.id, flows);
    if n.kind == Income then OrZero(n.amount) else InflowAmount(n.id, flows)
  }

  // ---------------------------------------------------------------------
  // Flow thickness
  // ---------------------------------------------------------------------

  /** `Math.max(...flows.map(f => f.amount), 1)`. */
  function MaxFlow(flows: seq<Flow>): (r: real)
    ensures r >= 1.0
    ensures forall f :: f in flows ==> f.amount <= r
    ensures r == 1.0 || exists f :: f in flows && f.amount == r
  {
    if flows == [] then 1.0
    else
      var m := MaxFlow(flows[..|flows| - 1]);
      var last := flows[|flows| - 1];
      assert flows == flows[..|flows| - 1] + [last];
      if last.amount > m then last.amount else m
  }

  /** The stroke width factor: 16 in the live and MatrixSankey diagrams, 20 in
      the diagram of the archived App. */
  const LiveScale: real := 16.0
  const ArchiveAppScale: real := 20.0

  /** getFlowThickness: `Math.max(2, amount / maxFlow * scale)`. */
  function Thickness(flows: seq<Flow>, amount: real, scale: real): (r: real)
    ensures r >= 2.0
  {
    var t := amount / MaxFlow(flows) * scale;
    if t > 2.0 then t else 2.0
  }

  lemma DivideUp(a: real, b: real, m: real, scale: real)
    requires a <= b && m > 0.0 && scale > 0.0
    ensures a / m * scale <= b / m * scale
  {
    var q := (b - a) / m;
    assert q * m == b - a;
    assert q >= 0.0;
    assert b / m - a / m == q;
    assert (b / m - a / m) * scale >= 0.0;
  }

  /** For a positive scale, no flow of the diagram is drawn wider than
      max(2, scale): the largest flow gets exactly the scale. */
  lemma ThicknessAtMostScale(flows: seq<Flow>, scale: real, f: Flow)
    requires scale > 0.0 && f in flows
    ensures Thickness(flows, f.amount, scale) <= (if scale > 2.0 then scale else 2.0)
  {
    var m := MaxFlow(flows);
    var q := f.amount / m;
    assert q * m == f.amount <= m;
    assert (1.0 - q) * m == m - f.amount >= 0.0;
    assert q <= 1.0;
    assert q * scale <= scale by {
      assert (1.0 - q) * scale >= 0.0;
    }
  }

  /** A larger amount is never drawn thinner. */
  lemma ThicknessMonotone(flows: seq<Flow>, scale: real, a: real, b: real)
    requires scale > 0.0 && a <= b
    ensures Thickness(flows, a, scale) <= Thickness(flows, b, scale)
  {
    var m := MaxFlow(flows);
    var ta, tb := a / m * scale, b / m * scale;
    assert ta <= tb by { DivideUp(a, b, m, scale); }
    assert Thickness(flows, a, scale) == if ta > 2.0 then ta else 2.0;
    assert Thickness(flows, b, scale) == if tb > 2.0 then tb else 2.0;
  }

  // ---------------------------------------------------------------------
  // Positions, curves and points on curves
  // ---------------------------------------------------------------------

  /** A node's top-left corner in the SVG. */
  datatype Pos = Pos(x: real, y: real)

  /** The node box: 140 by 48 in the live and MatrixSankey diagrams, 120 by
      36 in the archived App's. */
  datatype Box = Box(width: real, height: real)

  const LiveBox: Box := Box(140.0, 48.0)
  const ArchiveAppBox: Box := Box(120.0, 36.0)

  /** The curve getPath draws: none when an endpoint has no position (the
      empty path), else from the middle of the source's right edge to the
      middle of the target's left edge. */
  datatype Curve = NoCurve | Curve(start: Pos, end: Pos)

  function PathOf(positioned: map<int, Pos>, f: Flow, box: Box): (r: Curve)
    ensures r.NoCurve? <==> f.from !in positioned || f.to !in positioned
  {
    if f.from !in positioned || f.to !in positioned then NoCurve
    else
      var a := positioned[f.from];
      var b := positioned[f.to];
      Curve(Pos(a.x + box.width, a.y + box.height / 2.0), Pos(b.x, b.y + box.height / 2.0))
  }

  /** The midpoint getPath reports for the flow label; (0, 0) without a curve. */
  function Midpoint(c: Curve): Pos
  {
    match c
    case NoCurve => Pos(0.0, 0.0)
    case Curve(s, e) => Pos((s.x + e.x) / 2.0, (s.y + e.y) / 2.0)
  }

  /** The cubic Bezier point at t with both control points at the mid x, the
      first at the start's height and the second at the end's. */
  function Bezier(s: Pos, e: Pos, t: real): Pos
  {
    var u := 1.0 - t;
    var cx := (s.x + e.x) / 2.0;
    Pos(u * u * u * s.x + 3.0 * u * u * t * cx + 3.0 * u * t * t * cx + t * t * t * e.x,
        u * u * u * s.y + 3.0 * u * u * t * s.y + 3.0 * u * t * t * e.y + t * t * t * e.y)
  }

  /** getPointOnPath: (0, 0) when an endpoint has no position. */
  function PointOnPath(positioned: map<int, Pos>, f: Flow, box: Box, t: real): Pos
  {
    match PathOf(positioned, f, box)
    case NoCurve => Pos(0.0, 0.0)
    case Curve(s, e) => Bezier(s, e, t)
  }

  /** A particle starts at the source's right edge, half-way down, and ends
      at the target's left edge, half-way down; half-way along the curve it
      passes through the label's midpoint. Without a curve every point, like
      the midpoint, is (0, 0). */
  lemma PointOnPathEnds(positioned: map<int, Pos>, f: Flow, box: Box)
    ensures f.from in positioned && f.to in positioned ==>
      && PointOnPath(positioned, f, box, 0.0) == Pos(positioned[f.from].x + box.width, positioned[f.from].y + box.height / 2.0)
      && PointOnPath(positioned, f, box, 1.0) == Pos(positioned[f.to].x, positioned[f.to].y + box.height / 2.0)
      && PointOnPath(positioned, f, box, 0.5) == Midpoint(PathOf(positioned, f, box))
    ensures f.from !in positioned || f.to !in positioned ==>
      forall t :: PointOnPath(positioned, f, box, t) == Pos(0.0, 0.0) == Midpoint(PathOf(positioned, f, box))
  {
  }

  // ---------------------------------------------------------------------
  // Placing the nodes of a column
  // ---------------------------------------------------------------------

  /** A group's column x, the y of its first node and the y step between nodes. */
  datatype Stride = Stride(x: real, y0: real, dy: real)

  /** Where the i-th node of a group with stride s goes. */
  function StridePos(s: Stride, i: nat): Pos
  {
    Pos(s.x, s.y0 + i as real * s.dy)
  }

  /** `group.forEach((node, i) => positionedNodes[node.id] = {x, y: y0 + i * dy})`:
      a later node with the same id overwrites an earlier one. */
  function Place(m: map<int, Pos>, group: seq<Node>, s: Stride): (r: map<int, Pos>)
    ensures m.Keys <= r.Keys
  {
    if group == [] then m
    else
      var k := |group| - 1;
      Place(m, group[..k], s)[group[k].id := StridePos(s, k)]
  }

  /** Placing a group gives each of its nodes a position. */
  lemma {:induction false} PlaceAdds(m: map<int, Pos>, group: seq<Node>, s: Stride, n: Node)
    requires n in group
    ensures n.id in Place(m, group, s)
  {
    var k := |group| - 1;
    if group[k] != n {
      var j :| 0 <= j < |group| && group[j] == n;
      assert group[..k][j] == n;
      PlaceAdds(m, group[..k], s, n);
    }
  }

  /** Placing a group leaves an id that no node of the group has as it was. */
  lemma {:induction false} PlaceKeeps(m: map<int, Pos>, group: seq<Node>, s: Stride, id: int)
    requires forall n :: n in group ==> n.id != id
    ensures id in Place(m, group, s) <==> id in m
    ensures id in m ==> Place(m, group, s)[id] == m[id]
  {
    if group != [] {
      var k := |group| - 1;
      assert group[k] in group;
      assert forall j :: 0 <= j < k ==> group[..k][j] == group[j];
      PlaceKeeps(m, group[..k], s, id);
    }
  }

  /** The loop that fills the positions of one group. */
  method PlaceGroup(m: map<int, Pos>, group: seq<Node>, s: Stride) returns (r: map<int, Pos>)
    ensures r == Place(m, group, s)
  {
    r := m;
    var i := 0;
    while i < |group|
      invariant 0 <= i <= |group|
      invariant r == Place(m, group[..i], s)
    {
      var prefix := group[..i + 1];
      assert prefix != [] && |prefix| - 1 == i;
      assert prefix[..i] == group[..i] && prefix[i] == group[i];
      r := r[group[i].id := StridePos(s, i)];
      i := i + 1;
    }
    assert group[..|group|] == group;
  }

  /** With distinct ids, the i-th node of a group sits at (x, y0 + i * dy). */
  lemma {:induction false} PlacePosition(m: map<int, Pos>, group: seq<Node>, s: Stride, i: nat)
    requires UniqueIds(group)
    requires i < |group|
    ensures group[i].id in Place(m, group, s)
    ensures Place(m, group, s)[group[i].id] == StridePos(s, i)
  {
    var k := |group| - 1;
    if i < k {
      var init := group[..k];
      assert UniqueIds(init) by {
        forall a, b | 0 <= a < b < |init|
          ensures init[a].id != init[b].id
        {
          assert init[a] == group[a] && init[b] == group[b];
        }
      }
      assert init[i] == group[i];
      assert group[k].id != group[i].id;
      PlacePosition(m, init, s, i);
    }
  }

  /** In a list with distinct ids, an id names one node. */
  lemma SameIdSameNode(nodes: seq<Node>, a: Node, b: Node)
    requires UniqueIds(nodes)
    requires a in nodes && b in nodes && a.id == b.id
    ensures a == b
  {
    var i :| 0 <= i < |nodes| && nodes[i] == a;
    var j :| 0 <= j < |nodes| && nodes[j] == b;
    assert i == j;
  }

  /** A filtered list keeps distinct ids. */
  lemma {:induction false} FilterUniqueIds(nodes: seq<Node>, p: Node -> bool)
    requires UniqueIds(nodes)
    ensures UniqueIds(Seqs.Filter(nodes, p))
  {
    if nodes != [] {
      var init := nodes[..|nodes| - 1];
      var x := nodes[|nodes| - 1];
      assert nodes == init + [x];
      assert UniqueIds(init) by {
        forall a, b | 0 <= a < b < |init|
          ensures init[a].id != init[b].id
        {
          assert init[a] == nodes[a] && init[b] == nodes[b];
        }
      }
      FilterUniqueIds(init, p);
      Seqs.FilterSnoc(init, x, p);
      var kept := Seqs.Filter(init, p);
      if p(x) {
        forall a | 0 <= a < |kept|
          ensures kept[a].id != x.id
        {
          assert kept[a] in init;
          var j :| 0 <= j < |init| && init[j] == kept[a];
          assert nodes[j] == kept[a];
        }
        assert UniqueIds(kept + [x]) by {
          forall a, b | 0 <= a < b < |kept| + 1
            ensures (kept + [x])[a].id != (kept + [x])[b].id
          {
            if b == |kept| {
              assert (kept + [x])[b] == x;
              assert (kept + [x])[a] == kept[a];
            } else {
              assert (kept + [x])[a] == kept[a] && (kept + [x])[b] == kept[b];
            }
          }
        }
      } else {
        assert kept + [] == kept;
      }
    }
  }

  /** A group placed after another never moves a node of the earlier one
      when the two groups hold different node types. */
  lemma PlaceSkipsOtherKinds(m: map<int, Pos>, nodes: seq<Node>, group: seq<Node>, s: Stride, n: Node)
    requires UniqueIds(nodes)
    requires n in nodes && n.id in m
    requires forall g :: g in group ==> g in nodes && g.kind != n.kind
    ensures n.id in Place(m, group, s)
    ensures Place(m, group, s)[n.id] == m[n.id]
  {
    forall g | g in group
      ensures g.id != n.id
    {
      if g.id == n.id {
        SameIdSameNode(nodes, g, n);
      }
    }
    PlaceKeeps(m, group, s, n.id);
  }

  // ---------------------------------------------------------------------
  // The live layout: columns centred in a canvas that grows with them
  // ---------------------------------------------------------------------

  datatype Column = IncomeColumn | AccountColumn | DistributionColumn

  /** Which types a column holds. Goal nodes are in no column. */
  predicate InColumn(c: Column, k: NodeType)
  {
    match c
    case IncomeColumn => k == Income
    case AccountColumn => k == Account
    case DistributionColumn => k == Savings || k == Investment || k == Expense || k == Budget
  }

  function ColumnTest(c: Column): Node -> bool
  {
    (n: Node) => InColumn(c, n.kind)
  }

  /** `columns[c].nodes`. */
  function ColumnNodes(c: Column, nodes: seq<Node>): (r: seq<Node>)
    ensures forall n :: n in r <==> n in nodes && InColumn(c, n.kind)
  {
    Seqs.Filter(nodes, ColumnTest(c))
  }

  /** Every type but goal has exactly one column. */
  lemma ColumnsPartitionTypes(k: NodeType)
    ensures k == Goal <==> !InColumn(IncomeColumn, k) && !InColumn(AccountColumn, k) && !InColumn(DistributionColumn, k)
    ensures forall c, d :: InColumn(c, k) && InColumn(d, k) ==> c == d
  {
  }

  /** `columns[c].x`: the left padding 50, then steps of 260. */
  function ColumnX(c: Column): real
  {
    match c
    case IncomeColumn => 50.0
    case AccountColumn => 310.0
    case DistributionColumn => 570.0
  }

  /** maxNodes: the size of the busiest column. */
  function MaxNodes(nodes: seq<Node>): (r: nat)
    ensures var a := |ColumnNodes(IncomeColumn, nodes)|;
      var b := |ColumnNodes(AccountColumn, nodes)|;
      var d := |ColumnNodes(DistributionColumn, nodes)|;
      a <= r && b <= r && d <= r && (r == a || r == b || r == d)
  {
    var a := |ColumnNodes(IncomeColumn, nodes)|;
    var b := |ColumnNodes(AccountColumn, nodes)|;
    var d := |ColumnNodes(DistributionColumn, nodes)|;
    if a >= b && a >= d then a else if b >= d then b else d
  }

  lemma ColumnAtMostMax(nodes: seq<Node>, c: Column)
    ensures |ColumnNodes(c, nodes)| <= MaxNodes(nodes)
  {
    match c
    case IncomeColumn =>
    case AccountColumn =>
    case DistributionColumn =>
  }

  /** verticalGap: tighter when some column has more than ten nodes. */
  function Gap(maxNodes: nat): real
  {
    if maxNodes > 10 then 12.0 else 20.0
  }

  /** The canvas height: `max(520, 70 + maxNodes * (48 + gap) + 30 + 100)`. */
  function Height(maxNodes: nat): (r: real)
    ensures r >= 520.0
    ensures r >= 200.0 + maxNodes as real * (48.0 + Gap(maxNodes))
  {
    var calculated := 70.0 + maxNodes as real * (48.0 + Gap(maxNodes)) + 30.0 + 100.0;
    if calculated > 520.0 then calculated else 520.0
  }

  /** A column's own height: its boxes and the gaps between them. */
  function ColumnHeight(count: nat, gap: real): real
  {
    count as real * 48.0 + (count as real - 1.0) * gap
  }

  /** startY: the top of a column block centred in the canvas. */
  function StartY(count: nat, height: real, gap: real): real
  {
    (height - ColumnHeight(count, gap)) / 2.0
  }

  /** A column no larger than the busiest one is centred (equal margins above
      and below) and each of its boxes lies inside the canvas. */
  lemma ColumnFits(count: nat, maxNodes: nat, i: nat)
    requires count <= maxNodes && i < count
    ensures var g := Gap(maxNodes);
      var h := Height(maxNodes);
      var top := StartY(count, h, g);
      && top == h - (top + ColumnHeight(count, g))
      && top >= 0.0
      && top + i as real * (48.0 + g) + 48.0 <= h
  {
    var g := Gap(maxNodes);
    if maxNodes > 10 {
      assert g == 12.0;
      assert i as real * (48.0 + g) == i as real * 60.0;
      assert (count as real - 1.0) * g == (count as real - 1.0) * 12.0;
      assert maxNodes as real * (48.0 + g) == maxNodes as real * 60.0;
    } else {
      assert g == 20.0;
      assert i as real * (48.0 + g) == i as real * 68.0;
      assert (count as real - 1.0) * g == (count as real - 1.0) * 20.0;
      assert maxNodes as real * (48.0 + g) == maxNodes as real * 68.0;
    }
  }

  /** A column's stride: its x, its startY and 48 + gap. */
  function ColumnStride(nodes: seq<Node>, c: Column): Stride
  {
    var g := Gap(MaxNodes(nodes));
    Stride(ColumnX(c), StartY(|ColumnNodes(c, nodes)|, Height(MaxNodes(nodes)), g), 48.0 + g)
  }

  function PlaceColumn(m: map<int, Pos>, c: Column, nodes: seq<Node>): map<int, Pos>
  {
    Place(m, ColumnNodes(c, nodes), ColumnStride(nodes, c))
  }

  /** positionedNodes of the live diagram: the three columns in order. */
  function LiveLayout(nodes: seq<Node>): map<int, Pos>
  {
    PlaceColumn(PlaceColumn(PlaceColumn(map[], IncomeColumn, nodes), AccountColumn, nodes), DistributionColumn, nodes)
  }

  /** The nested loops that fill positionedNodes column by column. */
  method PositionNodes(nodes: seq<Node>) returns (positioned: map<int, Pos>)
    ensures positioned == LiveLayout(nodes)
  {
    positioned := map[];
    var columns := [IncomeColumn, AccountColumn, DistributionColumn];
    for j := 0 to 3
      invariant j == 0 ==> positioned == map[]
      invariant j == 1 ==> positioned == PlaceColumn(map[], IncomeColumn, nodes)
      invariant j == 2 ==> positioned == PlaceColumn(PlaceColumn(map[], IncomeColumn, nodes), AccountColumn, nodes)
      invariant j == 3 ==> positioned == LiveLayout(nodes)
    {
      positioned := PlaceGroup(positioned, ColumnNodes(columns[j], nodes), ColumnStride(nodes, columns[j]));
    }
  }

  lemma PlaceColumnAdds(m: map<int, Pos>, c: Column, nodes: seq<Node>, n: Node)
    requires n in nodes && InColumn(c, n.kind)
    ensures n.id in PlaceColumn(m, c, nodes)
  {
    var col := ColumnNodes(c, nodes);
    PlaceAdds(m, col, ColumnStride(nodes, c), n);
  }

  lemma PlaceColumnKeeps(m: map<int, Pos>, c: Column, nodes: seq<Node>, id: int)
    requires forall n :: n in nodes && InColumn(c, n.kind) ==> n.id != id
    ensures id in PlaceColumn(m, c, nodes) <==> id in m
  {
    var col := ColumnNodes(c, nodes);
    PlaceKeeps(m, col, ColumnStride(nodes, c), id);
  }

  lemma PlaceColumnPosition(m: map<int, Pos>, c: Column, nodes: seq<Node>, i: nat)
    requires UniqueIds(nodes)
    requires i < |ColumnNodes(c, nodes)|
    ensures ColumnNodes(c, nodes)[i].id in PlaceColumn(m, c, nodes)
    ensures PlaceColumn(m, c, nodes)[ColumnNodes(c, nodes)[i].id] == StridePos(ColumnStride(nodes, c), i)
  {
    var col := ColumnNodes(c, nodes);
    FilterUniqueIds(nodes, ColumnTest(c));
    PlacePosition(m, col, ColumnStride(nodes, c), i);
  }

  lemma PlaceColumnSkips(m: map<int, Pos>, c: Column, nodes: seq<Node>, n: Node)
    requires UniqueIds(nodes)
    requires n in nodes && !InColumn(c, n.kind) && n.id in m
    ensures n.id in PlaceColumn(m, c, nodes)
    ensures PlaceColumn(m, c, nodes)[n.id] == m[n.id]
  {
    var col := ColumnNodes(c, nodes);
    PlaceSkipsOtherKinds(m, nodes, col, ColumnStride(nodes, c), n);
  }

  /** Every node that is not a goal gets a position, and no other id does. */
  lemma LiveLayoutKeys(nodes: seq<Node>, n: Node, id: int)
    ensures n in nodes && n.kind != Goal ==> n.id in LiveLayout(nodes)
    ensures (forall v :: v in nodes ==> v.id != id || v.kind == Goal) ==> id !in LiveLayout(nodes)
  {
    var m0: map<int, Pos> := map[];
    var m1 := PlaceColumn(m0, IncomeColumn, nodes);
    var m2 := PlaceColumn(m1, AccountColumn, nodes);
    if n in nodes && n.kind != Goal {
      if n.kind == Income {
        PlaceColumnAdds(m0, IncomeColumn, nodes, n);
      } else if n.kind == Account {
        PlaceColumnAdds(m1, AccountColumn, nodes, n);
      } else {
        PlaceColumnAdds(m2, DistributionColumn, nodes, n);
      }
    }
    if forall v :: v in nodes ==> v.id != id || v.kind == Goal {
      PlaceColumnKeeps(m0, IncomeColumn, nodes, id);
      PlaceColumnKeeps(m1, AccountColumn, nodes, id);
      PlaceColumnKeeps(m2, DistributionColumn, nodes, id);
    }
  }

  /** The i-th node of a column sits at the column's x and startY + i * (48 + gap). */
  lemma LiveLayoutPosition(nodes: seq<Node>, c: Column, i: nat)
    requires UniqueIds(nodes)
    requires i < |ColumnNodes(c, nodes)|
    ensures ColumnNodes(c, nodes)[i].id in LiveLayout(nodes)
    ensures LiveLayout(nodes)[ColumnNodes(c, nodes)[i].id] == StridePos(ColumnStride(nodes, c), i)
  {
    var n := ColumnNodes(c, nodes)[i];
    assert n in ColumnNodes(c, nodes);
    var m0: map<int, Pos> := map[];
    var m1 := PlaceColumn(m0, IncomeColumn, nodes);
    var m2 := PlaceColumn(m1, AccountColumn, nodes);
    match c
    case IncomeColumn =>
      PlaceColumnPosition(m0, c, nodes, i);
      PlaceColumnSkips(m1, AccountColumn, nodes, n);
      PlaceColumnSkips(m2, DistributionColumn, nodes, n);
    case AccountColumn =>
      PlaceColumnPosition(m1, c, nodes, i);
      PlaceColumnSkips(m2, DistributionColumn, nodes, n);
    case DistributionColumn =>
      PlaceColumnPosition(m2, c, nodes, i);
  }

  /** A stride one more step down lies dy further down. */
  lemma StrideStep(s: Stride, i: nat)
    ensures StridePos(s, i + 1).y == StridePos(s, i).y + s.dy
  {
    assert (i + 1) as real * s.dy == i as real * s.dy + s.dy;
  }

  /** The arithmetic of one column: its boxes lie inside the canvas and do not overlap. */
  lemma StrideInCanvas(count: nat, maxNodes: nat, i: nat, s: Stride)
    requires count <= maxNodes && i < count
    requires s.y0 == StartY(count, Height(maxNodes), Gap(maxNodes)) && s.dy == 48.0 + Gap(maxNodes)
    ensures 0.0 <= StridePos(s, i).y
    ensures StridePos(s, i).y + 48.0 <= Height(maxNodes)
    ensures StridePos(s, i).y + 48.0 < StridePos(s, i + 1).y
  {
    ColumnFits(count, maxNodes, i);
    StrideStep(s, i);
  }

  /** Along a column's stride every box lies inside the canvas, and the next
      box starts strictly below the end of this one. */
  lemma ColumnStrideFits(nodes: seq<Node>, c: Column, i: nat)
    requires i < |ColumnNodes(c, nodes)|
    ensures 0.0 <= StridePos(ColumnStride(nodes, c), i).y
    ensures StridePos(ColumnStride(nodes, c), i).y + 48.0 <= Height(MaxNodes(nodes))
    ensures StridePos(ColumnStride(nodes, c), i).y + 48.0 < StridePos(ColumnStride(nodes, c), i + 1).y
  {
    ColumnAtMostMax(nodes, c);
    StrideInCanvas(|ColumnNodes(c, nodes)|, MaxNodes(nodes), i, ColumnStride(nodes, c));
  }

  /** Every positioned box lies inside the canvas, and consecutive boxes of a
      column go strictly downwards without overlapping. */
  lemma LiveLayoutFits(nodes: seq<Node>, c: Column, i: nat)
    requires UniqueIds(nodes)
    requires i < |ColumnNodes(c, nodes)|
    ensures ColumnNodes(c, nodes)[i].id in LiveLayout(nodes)
    ensures 0.0 <= LiveLayout(nodes)[ColumnNodes(c, nodes)[i].id].y
    ensures LiveLayout(nodes)[ColumnNodes(c, nodes)[i].id].y + 48.0 <= Height(MaxNodes(nodes))
    ensures i + 1 < |ColumnNodes(c, nodes)| ==>
      && ColumnNodes(c, nodes)[i + 1].id in LiveLayout(nodes)
      && LiveLayout(nodes)[ColumnNodes(c, nodes)[i].id].y + 48.0 < LiveLayout(nodes)[ColumnNodes(c, nodes)[i + 1].id].y
  {
    LiveLayoutPosition(nodes, c, i);
    ColumnStrideFits(nodes, c, i);
    if i + 1 < |ColumnNodes(c, nodes)| {
      LiveLayoutPosition(nodes, c, i + 1);
    }
  }

  // ---------------------------------------------------------------------
  // The archived layouts: fixed strides
  // ---------------------------------------------------------------------

  /** The four groups the archived diagrams place. The distribution column
      holds savings, investment and expense nodes (budgets are left out); it
      is split into savings-or-investment and expense nodes. */
  datatype Group = Incomes | Accounts | SavingsInvestments | Expenses

  predicate InArchiveDistribution(n: Node) { n.kind == Savings || n.kind == Investment || n.kind == Expense }
  predicate IsSavingsOrInvestment(n: Node) { n.kind == Savings || n.kind == Investment }
  predicate IsExpense(n: Node) { n.kind == Expense }

  function GroupNodes(g: Group, nodes: seq<Node>): seq<Node>
  {
    var distribution := Seqs.Filter(nodes, InArchiveDistribution);
    match g
    case Incomes => ColumnNodes(IncomeColumn, nodes)
    case Accounts => ColumnNodes(AccountColumn, nodes)
    case SavingsInvestments => Seqs.Filter(distribution, IsSavingsOrInvestment)
    case Expenses => Seqs.Filter(distribution, IsExpense)
  }

  /** Which types each group holds. */
  predicate InGroup(g: Group, k: NodeType)
  {
    match g
    case Incomes => k == Income
    case Accounts => k == Account
    case SavingsInvestments => k == Savings || k == Investment
    case Expenses => k == Expense
  }

  /** A group holds exactly the nodes of its types, with distinct ids when
      the nodes have them. */
  lemma GroupNodesMembers(g: Group, nodes: seq<Node>)
    ensures forall n :: n in GroupNodes(g, nodes) <==> n in nodes && InGroup(g, n.kind)
    ensures UniqueIds(nodes) ==> UniqueIds(GroupNodes(g, nodes))
  {
    if UniqueIds(nodes) {
      var distribution := Seqs.Filter(nodes, InArchiveDistribution);
      FilterUniqueIds(nodes, InArchiveDistribution);
      match g
      case Incomes => FilterUniqueIds(nodes, ColumnTest(IncomeColumn));
      case Accounts => FilterUniqueIds(nodes, ColumnTest(AccountColumn));
      case SavingsInvestments => FilterUniqueIds(distribution, IsSavingsOrInvestment);
      case Expenses => FilterUniqueIds(distribution, IsExpense);
    }
  }


  datatype FixedGeometry = FixedGeometry(incomes: Stride, accounts: Stride, savings: Stride, expenses: Stride)

  /** MatrixSankey: padding 50/70, columns 260 apart. */
  const MatrixGeometry: FixedGeometry := FixedGeometry(
    Stride(50.0, 150.0, 100.0), Stride(310.0, 170.0, 120.0), Stride(570.0, 90.0, 60.0), Stride(570.0, 290.0, 55.0))

  /** The archived App's diagram: padding 40, columns 200 apart. */
  const ArchiveAppGeometry: FixedGeometry := FixedGeometry(
    Stride(40.0, 120.0, 80.0), Stride(240.0, 140.0, 100.0), Stride(440.0, 60.0, 50.0), Stride(440.0, 260.0, 45.0))

  function StrideOf(geo: FixedGeometry, g: Group): Stride
  {
    match g
    case Incomes => geo.incomes
    case Accounts => geo.accounts
    case SavingsInvestments => geo.savings
    case Expenses => geo.expenses
  }

  function PlaceFixed(m: map<int, Pos>, g: Group, nodes: seq<Node>, geo: FixedGeometry): map<int, Pos>
  {
    Place(m, GroupNodes(g, nodes), StrideOf(geo, g))
  }

  /** The order the archived diagrams place their groups in. */
  const AllGroups: seq<Group> := [Incomes, Accounts, SavingsInvestments, Expenses]

  /** Placing several groups one after the other. */
  function PlaceGroups(m: map<int, Pos>, gs: seq<Group>, nodes: seq<Node>, geo: FixedGeometry): (r: map<int, Pos>)
    ensures m.Keys <= r.Keys
  {
    if gs == [] then m
    else PlaceFixed(PlaceGroups(m, gs[..|gs| - 1], nodes, geo), gs[|gs| - 1], nodes, geo)
  }

  /** positionedNodes of an archived diagram: the four groups in order. */
  function FixedLayout(nodes: seq<Node>, geo: FixedGeometry): map<int, Pos>
  {
    PlaceGroups(map[], AllGroups, nodes, geo)
  }

  /** The four forEach loops. */
  method PositionNodesFixed(nodes: seq<Node>, geo: FixedGeometry) returns (positioned: map<int, Pos>)
    ensures positioned == FixedLayout(nodes, geo)
  {
    positioned := map[];
    for j := 0 to |AllGroups|
      invariant positioned == PlaceGroups(map[], AllGroups[..j], nodes, geo)
    {
      assert AllGroups[..j + 1][..j] == AllGroups[..j];
      positioned := PlaceGroup(positioned, GroupNodes(AllGroups[j], nodes), StrideOf(geo, AllGroups[j]));
    }
    assert AllGroups[..|AllGroups|] == AllGroups;
  }

  /** No node type belongs to two groups. */
  lemma GroupsDisjoint(g: Group, h: Group, k: NodeType)
    requires InGroup(g, k) && InGroup(h, k)
    ensures g == h
  {
  }

  lemma PlaceFixedAdds(m: map<int, Pos>, g: Group, nodes: seq<Node>, geo: FixedGeometry, n: Node)
    requires n in nodes && InGroup(g, n.kind)
    ensures n.id in PlaceFixed(m, g, nodes, geo)
  {
    GroupNodesMembers(g, nodes);
    PlaceAdds(m, GroupNodes(g, nodes), StrideOf(geo, g), n);
  }

  lemma PlaceFixedKeeps(m: map<int, Pos>, g: Group, nodes: seq<Node>, geo: FixedGeometry, id: int)
    requires forall n :: n in nodes ==> n.id != id || n.kind == Budget || n.kind == Goal
    ensures id in PlaceFixed(m, g, nodes, geo) <==> id in m
  {
    GroupNodesMembers(g, nodes);
    PlaceKeeps(m, GroupNodes(g, nodes), StrideOf(geo, g), id);
  }

  lemma PlaceFixedPosition(m: map<int, Pos>, g: Group, nodes: seq<Node>, geo: FixedGeometry, i: nat)
    requires UniqueIds(nodes)
    requires i < |GroupNodes(g, nodes)|
    ensures GroupNodes(g, nodes)[i].id in PlaceFixed(m, g, nodes, geo)
    ensures PlaceFixed(m, g, nodes, geo)[GroupNodes(g, nodes)[i].id] ==
      StridePos(StrideOf(geo, g), i)
  {
    GroupNodesMembers(g, nodes);
    PlacePosition(m, GroupNodes(g, nodes), StrideOf(geo, g), i);
  }

  lemma PlaceFixedSkips(m: map<int, Pos>, g: Group, nodes: seq<Node>, geo: FixedGeometry, n: Node)
    requires UniqueIds(nodes)
    requires n in nodes && !InGroup(g, n.kind) && n.id in m
    ensures n.id in PlaceFixed(m, g, nodes, geo)
    ensures PlaceFixed(m, g, nodes, geo)[n.id] == m[n.id]
  {
    GroupNodesMembers(g, nodes);
    PlaceSkipsOtherKinds(m, nodes, GroupNodes(g, nodes), StrideOf(geo, g), n);
  }

  /** Placing several groups positions every node of each of them. */
  lemma {:induction false} PlaceGroupsAdds(m: map<int, Pos>, gs: seq<Group>, nodes: seq<Node>, geo: FixedGeometry, g: Group, n: Node)
    requires g in gs && n in nodes && InGroup(g, n.kind)
    ensures n.id in PlaceGroups(m, gs, nodes, geo)
  {
    var k := |gs| - 1;
    var before := PlaceGroups(m, gs[..k], nodes, geo);
    assert PlaceGroups(m, gs, nodes, geo) == PlaceFixed(before, gs[k], nodes, geo);
    if gs[k] == g {
      PlaceFixedAdds(before, g, nodes, geo, n);
    } else {
      Seqs.MemberOfInit(gs, g);
      PlaceGroupsAdds(m, gs[..k], nodes, geo, g, n);
      assert n.id in before;
    }
  }

  /** Placing several groups adds no id held only by budget or goal nodes. */
  lemma {:induction false} PlaceGroupsKeeps(m: map<int, Pos>, gs: seq<Group>, nodes: seq<Node>, geo: FixedGeometry, id: int)
    requires forall v :: v in nodes ==> v.id != id || v.kind == Budget || v.kind == Goal
    ensures id in PlaceGroups(m, gs, nodes, geo) <==> id in m
  {
    if gs != [] {
      var k := |gs| - 1;
      PlaceGroupsKeeps(m, gs[..k], nodes, geo, id);
      PlaceFixedKeeps(PlaceGroups(m, gs[..k], nodes, geo), gs[k], nodes, geo, id);
    }
  }

  /** When each group is placed once, the i-th node of a group keeps the
      position its own group gave it. */
  lemma {:induction false} PlaceGroupsPosition(m: map<int, Pos>, gs: seq<Group>, nodes: seq<Node>, geo: FixedGeometry, g: Group, i: nat)
    requires UniqueIds(nodes)
    requires forall a, b :: 0 <= a < b < |gs| ==> gs[a] != gs[b]
    requires g in gs && i < |GroupNodes(g, nodes)|
    ensures GroupNodes(g, nodes)[i].id in PlaceGroups(m, gs, nodes, geo)
    ensures PlaceGroups(m, gs, nodes, geo)[GroupNodes(g, nodes)[i].id] == StridePos(StrideOf(geo, g), i)
  {
    var k := |gs| - 1;
    var init := gs[..k];
    var before := PlaceGroups(m, init, nodes, geo);
    if gs[k] == g {
      PlaceFixedPosition(before, g, nodes, geo, i);
    } else {
      Seqs.MemberOfInit(gs, g);
      assert forall a, b :: 0 <= a < b < |init| ==> init[a] != init[b] by {
        forall a, b | 0 <= a < b < |init|
          ensures init[a] != init[b]
        {
          assert init[a] == gs[a] && init[b] == gs[b];
        }
      }
      PlaceGroupsPosition(m, init, nodes, geo, g, i);
      var n := GroupNodes(g, nodes)[i];
      GroupNodesMembers(g, nodes);
      assert n in GroupNodes(g, nodes);
      if InGroup(gs[k], n.kind) {
        GroupsDisjoint(g, gs[k], n.kind);
      }
      PlaceFixedSkips(before, gs[k], nodes, geo, n);
    }
  }

  /** Income, account, savings, investment and expense nodes get a position. */
  lemma FixedLayoutAdds(nodes: seq<Node>, geo: FixedGeometry, n: Node)
    requires n in nodes && n.kind != Budget && n.kind != Goal
    ensures n.id in FixedLayout(nodes, geo)
  {
    var g := if n.kind == Income then Incomes
      else if n.kind == Account then Accounts
      else if n.kind == Expense then Expenses
      else SavingsInvestments;
    PlaceGroupsAdds(map[], AllGroups, nodes, geo, g, n);
  }

  /** No other id gets a position: an id held only by budget or goal nodes,
      or by no node at all, is absent. */
  lemma FixedLayoutOmits(nodes: seq<Node>, geo: FixedGeometry, id: int)
    requires forall v :: v in nodes ==> v.id != id || v.kind == Budget || v.kind == Goal
    ensures id !in FixedLayout(nodes, geo)
  {
    PlaceGroupsKeeps(map[], AllGroups, nodes, geo, id);
  }

  /** With distinct ids, a budget node is never drawn by the archived diagrams. */
  lemma BudgetNodesUnpositioned(nodes: seq<Node>, geo: FixedGeometry, n: Node)
    requires UniqueIds(nodes)
    requires n in nodes && n.kind == Budget
    ensures n.id !in FixedLayout(nodes, geo)
  {
    forall v | v in nodes && v.id == n.id
      ensures v.kind == Budget
    {
      SameIdSameNode(nodes, v, n);
    }
    FixedLayoutOmits(nodes, geo, n.id);
  }

  /** The i-th node of a group sits at the group's x and y0 + i * dy. */
  lemma FixedLayoutPosition(nodes: seq<Node>, geo: FixedGeometry, g: Group, i: nat)
    requires UniqueIds(nodes)
    requires i < |GroupNodes(g, nodes)|
    ensures GroupNodes(g, nodes)[i].id in FixedLayout(nodes, geo)
    ensures FixedLayout(nodes, geo)[GroupNodes(g, nodes)[i].id] ==
      StridePos(StrideOf(geo, g), i)
  {
    assert g in AllGroups by {
      match g
      case Incomes => assert AllGroups[0] == g;
      case Accounts => assert AllGroups[1] == g;
      case SavingsInvestments => assert AllGroups[2] == g;
      case Expenses => assert AllGroups[3] == g;
    }
    PlaceGroupsPosition(map[], AllGroups, nodes, geo, g, i);
  }

  /** The fixed strides do not keep the two stacks of the distribution column
      apart: in MatrixSankey the fourth savings or investment node (y = 270)
      and the first expense node (y = 290) are drawn over each other. */
  lemma MatrixStacksOverlap(nodes: seq<Node>)
    requires UniqueIds(nodes)
    requires |GroupNodes(SavingsInvestments, nodes)| >= 4 && |GroupNodes(Expenses, nodes)| >= 1
    ensures GroupNodes(SavingsInvestments, nodes)[3].id in FixedLayout(nodes, MatrixGeometry)
    ensures GroupNodes(Expenses, nodes)[0].id in FixedLayout(nodes, MatrixGeometry)
    ensures var a := FixedLayout(nodes, MatrixGeometry)[GroupNodes(SavingsInvestments, nodes)[3].id];
      var b := FixedLayout(nodes, MatrixGeometry)[GroupNodes(Expenses, nodes)[0].id];
      a.x == b.x && a.y < b.y < a.y + LiveBox.height
  {
    FixedLayoutPosition(nodes, MatrixGeometry, SavingsInvestments, 3);
    FixedLayoutPosition(nodes, MatrixGeometry, Expenses, 0);
  }

  // ---------------------------------------------------------------------
  // The particle buffer
  // ---------------------------------------------------------------------

  /** A particle riding a flow (its id, glyph and opacity are presentation only). */
  datatype Particle = Particle(flowIndex: int, progress: real, speed: real)

  /** The random draws for one flow on one tick: whether `Math.random() > 0.7`,
      and the speed `0.015 + Math.random() * 0.025`. */
  datatype Draw = Draw(fires: bool, speed: real)

  const MinSpeed: real := 0.015
  const MaxSpeed: real := 0.04

  /** The most particles kept: `.slice(-60)`. */
  const MaxParticles: nat := 60

  /** `flows.flatMap(...)`: one fresh particle per flow whose draw fires and
      whose amount is positive. */
  function Spawned(flows: seq<Flow>, draw: nat -> Draw): (r: seq<Particle>)
    ensures |r| <= |flows|
    ensures forall p :: p in r ==>
      && 0 <= p.flowIndex < |flows|
      && draw(p.flowIndex).fires && flows[p.flowIndex].amount > 0.0
      && p == Particle(p.flowIndex, 0.0, draw(p.flowIndex).speed)
    ensures forall i :: 0 <= i < |flows| && draw(i).fires && flows[i].amount > 0.0 ==>
      Particle(i, 0.0, draw(i).speed) in r
  {
    if flows == [] then []
    else
      var k := |flows| - 1;
      assert forall i :: 0 <= i < k ==> flows[..k][i] == flows[i];
      Spawned(flows[..k], draw) + (if draw(k).fires && flows[k].amount > 0.0 then [Particle(k, 0.0, draw(k).speed)] else [])
  }

  function Advance(p: Particle): Particle
  {
    p.(progress := p.progress + p.speed)
  }

  predicate Moving(p: Particle) { p.progress < 1.0 }

  /** `.slice(-n)`: the last n elements, or all of them when there are fewer. */
  function Newest<T>(s: seq<T>, n: nat): (r: seq<T>)
    ensures |r| == if |s| < n then |s| else n
    ensures forall i :: 0 <= i < |r| ==> r[i] == s[|s| - |r| + i]
  {
    if |s| <= n then s else s[|s| - n..]
  }

  /** The particles still moving after a tick, before the cap: the earlier and
      the spawned particles, each advanced by its speed, in that order, without
      the ones that reached the end. */
  function Live(prev: seq<Particle>, flows: seq<Flow>, draw: nat -> Draw): (r: seq<Particle>)
    ensures forall p :: p in r <==> Moving(p) && exists q :: q in prev + Spawned(flows, draw) && p == Advance(q)
  {
    var all := prev + Spawned(flows, draw);
    var moved := Seqs.Map(all, Advance);
    forall p | p in moved
      ensures exists q :: q in all && p == Advance(q)
    {
      var k :| 0 <= k < |moved| && moved[k] == p;
      assert all[k] in all;
    }
    forall q | q in all
      ensures Advance(q) in moved
    {
      var k :| 0 <= k < |all| && all[k] == q;
      assert moved[k] == Advance(q);
    }
    Seqs.Filter(moved, Moving)
  }

  /** One tick of the particle interval: add the spawned particles, advance
      every particle by its speed, drop the finished ones, keep the newest 60.
      The result is the last min(60, |live|) live particles in order, so while
      no more than 60 are live every one of them is kept. */
  function Step(prev: seq<Particle>, flows: seq<Flow>, draw: nat -> Draw): (r: seq<Particle>)
    ensures |r| <= MaxParticles
    ensures forall p :: p in r ==> p.progress < 1.0
    ensures var live := Live(prev, flows, draw);
      && |r| == (if |live| < MaxParticles then |live| else MaxParticles)
      && r == live[|live| - |r|..]
    ensures |Live(prev, flows, draw)| <= MaxParticles ==>
      forall q :: q in prev + Spawned(flows, draw) && Moving(Advance(q)) ==> Advance(q) in r
  {
    var live := Live(prev, flows, draw);
    var kept := Newest(live, MaxParticles);
    assert kept == live[|live| - |kept|..];
    assert forall p :: p in kept ==> p in live;
    kept
  }

  /** Every particle after a tick is either an earlier particle moved on by
      its speed or a new one, one speed along, on a flow with a positive
      amount whose draw fired. */
  lemma StepOrigins(prev: seq<Particle>, flows: seq<Flow>, draw: nat -> Draw, p: Particle)
    requires p in Step(prev, flows, draw)
    ensures || (exists q :: q in prev && p == Advance(q))
            || (&& 0 <= p.flowIndex < |flows|
                && draw(p.flowIndex).fires && flows[p.flowIndex].amount > 0.0
                && p == Particle(p.flowIndex, draw(p.flowIndex).speed, draw(p.flowIndex).speed))
  {
    var all := prev + Spawned(flows, draw);
    assert p in Live(prev, flows, draw);
    var q :| q in all && p == Advance(q);
    assert q in prev || q in Spawned(flows, draw);
  }

  /** The state the animation keeps between ticks: at most 60 particles, each
      strictly inside its curve and moving at a speed the draws can give. */
  predicate WellFormed(ps: seq<Particle>)
  {
    && |ps| <= MaxParticles
    && forall p :: p in ps ==> 0.0 < p.progress < 1.0 && MinSpeed <= p.speed < MaxSpeed
  }

  ghost predicate DrawsInRange(draw: nat -> Draw)
  {
    forall i: nat :: MinSpeed <= draw(i).speed < MaxSpeed
  }

  /** Every tick preserves the buffer's invariant, starting from the empty buffer. */
  lemma StepPreservesWellFormed(prev: seq<Particle>, flows: seq<Flow>, draw: nat -> Draw)
    requires WellFormed(prev) && DrawsInRange(draw)
    ensures WellFormed(Step(prev, flows, draw))
  {
    var r := Step(prev, flows, draw);
    forall p | p in r
      ensures 0.0 < p.progress < 1.0 && MinSpeed <= p.speed < MaxSpeed
    {
      StepOrigins(prev, flows, draw, p);
    }
  }
}
