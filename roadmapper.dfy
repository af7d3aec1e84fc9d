/**
 * The roadmapper canvas: PMOs laid out as nodes on a diagonal, one link per
 * dependency, grid snapping when a dragged node is released, panning and
 * wheel zoom. SVG drawing, pointer capture and the view box are left out;
 * `crypto.randomUUID` is the parameter `newId`, number formatting in path
 * data the parameter `fmt`.
 */
module Roadmapper {
  import opened Wrappers
  import opened Strings
  import opened Collections
  import opened PmoModels
  import opened BoardGeometry

  const PRIMARY_GRID_SIZE: real := 100.0
  const SECONDARY_GRID_SIZE: real := 10.0

  datatype Size = Size(w: real, h: real)

  /** The small badge a node can show; every node is built with a hidden, empty one. */
  datatype Pill = Pill(visible: bool, text: string, cls: string)

  datatype NodeModel = NodeModel(
    nodeClass: string,
    id: string,
    projectId: string,
    key: string,
    title: string,
    pill: Option<Pill>,
    meta: string,
    ticket: string,
    x: real,
    y: real,
    w: real,
    h: real)

  datatype LinkModel = LinkModel(id: string, from: string, to: string)

  /** A drag in progress: the dragged node, where the pointer went down and where the node was then. */
  datatype DragState = DragState(nodeId: string, startX: real, startY: real, origX: real, origY: real)

  /** `getActiveSnapGrid`: the primary grid wins over the secondary one; no grid when neither is on. */
  function ActiveSnapGrid(snapToPrimaryGrid: bool, snapToSecondaryGrid: bool): (g: Option<real>)
    ensures g.Some? <==> snapToPrimaryGrid || snapToSecondaryGrid
    ensures g.Some? ==> g.value > 0.0
  {
    if snapToPrimaryGrid then Some(PRIMARY_GRID_SIZE)
    else if snapToSecondaryGrid then Some(SECONDARY_GRID_SIZE)
    else None
  }

  /** The grids in order of precedence. */
  lemma ActiveSnapGridChoice(primary: bool, secondary: bool)
    ensures primary ==> ActiveSnapGrid(primary, secondary) == Some(100.0)
    ensures !primary && secondary ==> ActiveSnapGrid(primary, secondary) == Some(10.0)
  {
  }

  /** `Math.round`: the nearest integer, halves rounded up. */
  function Round(x: real): (n: int)
    ensures n as real - 0.5 <= x < n as real + 0.5
  {
    (x + 0.5).Floor
  }

  /** The `n`-th line of a grid of cell size `grid`. */
  function GridLine(n: int, grid: real): real {
    n as real * grid
  }

  lemma MulLeft(a: real, b: real, g: real)
    requires a <= b && g >= 0.0
    ensures a * g <= b * g
  {
  }

  /** `snapValue(v, grid)`: the nearest grid line, on the grid and at most half a cell from `v`. */
  function SnapValue(v: real, grid: real): (r: real)
    requires grid > 0.0
    ensures exists n: int :: r == GridLine(n, grid)
    ensures -grid / 2.0 <= r - v <= grid / 2.0
  {
    var q := v / grid;
    var n := Round(q);
    assert v == q * grid;
    MulLeft(n as real - q, 0.5, grid);
    MulLeft(-0.5, n as real - q, grid);
    assert GridLine(n, grid) - v == (n as real - q) * grid;
    GridLine(n, grid)
  }

  /** Snapping a value already on the grid leaves it there. */
  lemma SnapValueIdempotent(n: int, grid: real)
    requires grid > 0.0
    ensures SnapValue(GridLine(n, grid), grid) == GridLine(n, grid)
  {
    assert (n as real * grid) / grid == n as real;
    assert (n as real + 0.5).Floor == n;
  }

  /** The lower-case name of a PMO kind, `ts` for `TS`. */
  function KindClass(k: Kind): string {
    ToLowerAscii(KindName(k))
  }

  /** `convertPmoToNode`. */
  function ConvertPmoToNode(pmo: Pmo, position: Pt, size: Size): (n: NodeModel)
    ensures n.id == pmo.id && n.key == pmo.key && n.title == pmo.name && n.projectId == pmo.projectId
    ensures n.nodeClass == KindClass(pmo.kind) && n.pill.Some?
    ensures n.x == position.x && n.y == position.y && n.w == size.w && n.h == size.h
  {
    NodeModel(KindClass(pmo.kind), pmo.id, pmo.projectId, pmo.key, pmo.name, Some(Pill(false, "", "")),
              "", "", position.x, position.y, size.w, size.h)
  }

  /** The size every node is built with. */
  const NODE_SIZE: Size := Size(200.0, 100.0)

  /** Where the `i`-th node is placed: one step of 100 right and down per node, from (100, 100). */
  function NodePosition(i: nat): Pt {
    Pt(100.0 + 100.0 * i as real, 100.0 + 100.0 * i as real)
  }

  /** The nodes `buildNodesAndLinks` makes: one per PMO, in order, along the diagonal. */
  function NodesFor(pmos: seq<Pmo>): (nodes: seq<NodeModel>)
    ensures |nodes| == |pmos|
    ensures forall i :: 0 <= i < |pmos| ==> (nodes[i].id == pmos[i].id && nodes[i].key == pmos[i].key
      && nodes[i].title == pmos[i].name && nodes[i].projectId == pmos[i].projectId
      && nodes[i].x == 100.0 + 100.0 * i as real && nodes[i].y == 100.0 + 100.0 * i as real
      && nodes[i].w == 200.0 && nodes[i].h == 100.0)
  {
    seq(|pmos|, i requires 0 <= i < |pmos| => ConvertPmoToNode(pmos[i], NodePosition(i), NODE_SIZE))
  }

  /** Each node starts where the previous one ends vertically, so no two nodes overlap. */
  lemma NodesStackDown(pmos: seq<Pmo>, i: nat, j: nat)
    requires i < j < |pmos|
    ensures var nodes := NodesFor(pmos); nodes[i].y + nodes[i].h <= nodes[j].y
  {
    var nodes := NodesFor(pmos);
    assert nodes[j].y - nodes[i].y == 100.0 * (j - i) as real;
  }

  /** The key a PMO is filed under: `project_id::key`. */
  function PmoProjectKey(p: Pmo): string {
    p.projectId + "::" + p.key
  }

  /** `pmosByProjectKey`: every PMO under its project key, the later of two with the same key winning. */
  function ByProjectKey(pmos: seq<Pmo>): (m: map<string, Pmo>)
    ensures forall k :: k in m <==> exists i :: 0 <= i < |pmos| && PmoProjectKey(pmos[i]) == k
  {
    MapFrom(pmos, PmoProjectKey)
  }

  /** The key a link target is looked up by; a reference without a key renders it as `undefined`. */
  function RefProjectKey(r: Reference): string {
    r.projectId + "::" + r.key.GetOr("undefined")
  }

  /** The id a link points to: the matching PMO's id, or `"undefined"` when there is none or its id is empty. */
  function ResolveTarget(byKey: map<string, Pmo>, to: Reference): (id: string)
    ensures id == "undefined" || (RefProjectKey(to) in byKey && id == byKey[RefProjectKey(to)].id)
    ensures RefProjectKey(to) in byKey && byKey[RefProjectKey(to)].id != "" ==> id == byKey[RefProjectKey(to)].id
    ensures RefProjectKey(to) !in byKey || byKey[RefProjectKey(to)].id == "" ==> id == "undefined"
  {
    var k := RefProjectKey(to);
    if k in byKey && byKey[k].id != "" then byKey[k].id else "undefined"
  }

  /** The links made for one PMO, one per dependency, ids drawn from `newId` starting at `next`. */
  function LinksOfPmo(pmo: Pmo, byKey: map<string, Pmo>, newId: nat -> string, next: nat): (links: seq<LinkModel>)
    ensures |links| == |pmo.links|
    ensures forall j :: 0 <= j < |links| ==> (links[j].from == pmo.id
      && links[j].to == ResolveTarget(byKey, pmo.links[j].to))
  {
    seq(|pmo.links|, j requires 0 <= j < |pmo.links| => LinkModel(newId(next + j), pmo.id, ResolveTarget(byKey, pmo.links[j].to)))
  }

  /** The number of dependencies of all the PMOs. */
  function DependencyCount(pmos: seq<Pmo>): nat {
    if pmos == [] then 0 else |pmos[0].links| + DependencyCount(pmos[1..])
  }

  /** The links `buildNodesAndLinks` makes: those of each PMO in turn. */
  function LinksFor(pmos: seq<Pmo>, byKey: map<string, Pmo>, newId: nat -> string, next: nat): (links: seq<LinkModel>)
    decreases |pmos|
  {
    if pmos == [] then []
    else LinksOfPmo(pmos[0], byKey, newId, next) + LinksFor(pmos[1..], byKey, newId, next + |pmos[0].links|)
  }

  /** One link per dependency. */
  lemma {:induction false} LinkCount(pmos: seq<Pmo>, byKey: map<string, Pmo>, newId: nat -> string, next: nat)
    ensures |LinksFor(pmos, byKey, newId, next)| == DependencyCount(pmos)
    decreases |pmos|
  {
    if pmos != [] {
      LinkCount(pmos[1..], byKey, newId, next + |pmos[0].links|);
    }
  }

  /** Taking the `i`-th PMO's links off the front of what is left keeps the total the same. */
  lemma LinksForStep(pmos: seq<Pmo>, i: nat, byKey: map<string, Pmo>, newId: nat -> string, next: nat,
                     done: seq<LinkModel>, all: seq<LinkModel>)
    requires i < |pmos|
    requires done + LinksFor(pmos[i..], byKey, newId, next) == all
    ensures (done + LinksOfPmo(pmos[i], byKey, newId, next)) + LinksFor(pmos[i + 1..], byKey, newId, next + |pmos[i].links|) == all
  {
    assert pmos[i..][1..] == pmos[i + 1..];
  }

  /** Every link goes from a PMO to the resolved target of one of that PMO's dependencies. */
  lemma {:induction false} LinkEnds(pmos: seq<Pmo>, byKey: map<string, Pmo>, newId: nat -> string, next: nat, l: LinkModel)
    requires l in LinksFor(pmos, byKey, newId, next)
    ensures exists i, j :: (0 <= i < |pmos| && 0 <= j < |pmos[i].links|
      && l.from == pmos[i].id && l.to == ResolveTarget(byKey, pmos[i].links[j].to))
    decreases |pmos|
  {
    var own := LinksOfPmo(pmos[0], byKey, newId, next);
    var rest := LinksFor(pmos[1..], byKey, newId, next + |pmos[0].links|);
    if l in own {
      var j :| 0 <= j < |own| && own[j] == l;
      assert l.from == pmos[0].id && l.to == ResolveTarget(byKey, pmos[0].links[j].to);
    } else {
      assert l in rest;
      LinkEnds(pmos[1..], byKey, newId, next + |pmos[0].links|, l);
      var i, j :| 0 <= i < |pmos[1..]| && 0 <= j < |pmos[1..][i].links|
        && l.from == pmos[1..][i].id && l.to == ResolveTarget(byKey, pmos[1..][i].links[j].to);
      assert pmos[1..][i] == pmos[i + 1];
    }
  }

  /**
   * A dependency whose target reference carries no key resolves to `"undefined"`
   * unless some PMO is filed under `project_id::undefined`.
   */
  lemma KeylessTargetUnresolved(pmos: seq<Pmo>, to: Reference)
    requires to.key.None?
    requires forall i :: 0 <= i < |pmos| ==> PmoProjectKey(pmos[i]) != to.projectId + "::undefined"
    ensures ResolveTarget(ByProjectKey(pmos), to) == "undefined"
  {
    assert RefProjectKey(to) == to.projectId + "::undefined";
  }

  /** The first half of `buildNodesAndLinks`: a node per PMO, moving the position 100 right and down each time. */
  method PlaceNodes(pmos: seq<Pmo>) returns (nodes: seq<NodeModel>)
    ensures nodes == NodesFor(pmos)
  {
    nodes := [];
    var pos := Pt(100.0, 100.0);
    var i := 0;
    while i < |pmos|
      invariant 0 <= i <= |pmos|
      invariant pos == NodePosition(i)
      invariant nodes == NodesFor(pmos)[..i]
    {
      assert NodesFor(pmos)[..i + 1] == NodesFor(pmos)[..i] + [ConvertPmoToNode(pmos[i], pos, NODE_SIZE)];
      nodes := nodes + [ConvertPmoToNode(pmos[i], pos, NODE_SIZE)];
      pos := Pt(pos.x + 100.0, pos.y + 100.0);
      i := i + 1;
    }
    assert NodesFor(pmos)[..i] == NodesFor(pmos);
  }

  /** The second half of `buildNodesAndLinks`: the links of each PMO concatenated in turn. */
  method CollectLinks(pmos: seq<Pmo>, byKey: map<string, Pmo>, newId: nat -> string) returns (links: seq<LinkModel>)
    ensures links == LinksFor(pmos, byKey, newId, 0)
  {
    links := [];
    var made: nat := 0;
    var i := 0;
    assert pmos[i..] == pmos;
    while i < |pmos|
      invariant 0 <= i <= |pmos|
      invariant links + LinksFor(pmos[i..], byKey, newId, made) == LinksFor(pmos, byKey, newId, 0)
    {
      LinksForStep(pmos, i, byKey, newId, made, links, LinksFor(pmos, byKey, newId, 0));
      links := links + LinksOfPmo(pmos[i], byKey, newId, made);
      made := made + |pmos[i].links|;
      i := i + 1;
    }
    assert pmos[i..] == [];
  }

  /** `buildNodesAndLinks`: the nodes along the diagonal and the links of every dependency. */
  method BuildNodesAndLinks(pmos: seq<Pmo>, byKey: map<string, Pmo>, newId: nat -> string)
    returns (nodes: seq<NodeModel>, links: seq<LinkModel>)
    ensures nodes == NodesFor(pmos)
    ensures links == LinksFor(pmos, byKey, newId, 0)
  {
    nodes := PlaceNodes(pmos);
    links := CollectLinks(pmos, byKey, newId);
  }

  /** The point on the middle of a node's right edge. */
  function CenterRight(n: NodeModel): (p: Pt)
    ensures p.x == n.x + n.w && p.y - n.y == n.y + n.h - p.y
  {
    Pt(n.x + n.w, n.y + n.h / 2.0)
  }

  /** The point on the middle of a node's left edge. */
  function CenterLeft(n: NodeModel): (p: Pt)
    ensures p.x == n.x && p.y - n.y == n.y + n.h - p.y
  {
    Pt(n.x, n.y + n.h / 2.0)
  }

  /** The curve `linkPath` draws from `src` to `dst`. */
  function LinkCurve(src: NodeModel, dst: NodeModel): (z: Bezier)
    ensures z.p0 == CenterRight(src) && z.p3 == CenterLeft(dst)
    ensures z.p1.y == z.p0.y && z.p2.y == z.p3.y
    ensures z.p1.x - z.p0.x == z.p3.x - z.p2.x == (z.p3.x - z.p0.x) * 0.35
  {
    var p0 := CenterRight(src);
    var p1 := CenterLeft(dst);
    var dx := (p1.x - p0.x) * 0.35;
    Bezier(p0, Pt(p0.x + dx, p0.y), Pt(p1.x - dx, p1.y), p1)
  }

  /** Between nodes whose middles are level the curve is a straight horizontal segment. */
  lemma LevelLinkIsStraight(src: NodeModel, dst: NodeModel, t: real)
    requires src.y + src.h / 2.0 == dst.y + dst.h / 2.0
    ensures var z := LinkCurve(src, dst); CubicPoint(z.p0, z.p1, z.p2, z.p3, t).y == src.y + src.h / 2.0
  {
    var z := LinkCurve(src, dst);
    WeightsSumToOne(t);
    var w := Weights(t);
    assert CubicPoint(z.p0, z.p1, z.p2, z.p3, t).y == (w.0 + w.1 + w.2 + w.3) * z.p0.y;
  }

  /** `linkPath`: SVG path data of the link curve. */
  function LinkPath(src: NodeModel, dst: NodeModel, fmt: real -> string): (d: string)
    ensures |d| >= 2 && d[..2] == "M "
    ensures d == BezierPathD(LinkCurve(src, dst), fmt)
  {
    BezierPathD(LinkCurve(src, dst), fmt)
  }

  /**
   * The words of a link's path data are those of its curve: a moveto to the
   * middle of the source's right edge, then a curveto through the two level
   * handles to the middle of the target's left edge (`LinkCurve`).
   */
  lemma LinkPathWords(src: NodeModel, dst: NodeModel, fmt: real -> string)
    requires forall v: real :: ' ' !in fmt(v)
    ensures Strings.SplitOn(LinkPath(src, dst, fmt), ' ') == PathWords(LinkCurve(src, dst), fmt)
  {
    BezierPathDWords(LinkCurve(src, dst), fmt);
  }

  /** `drawLinks`: the links drawn, those whose two ends are nodes on the canvas. */
  function DrawnLinks(links: seq<LinkModel>, nodes: map<string, NodeModel>): (r: seq<LinkModel>)
    ensures forall l :: l in r <==> l in links && l.from in nodes && l.to in nodes
  {
    Filter(links, (l: LinkModel) => l.from in nodes && l.to in nodes)
  }

  /** A link to an unresolved target is never drawn, unless a node has the id `undefined`. */
  lemma UnresolvedLinkNotDrawn(links: seq<LinkModel>, nodes: map<string, NodeModel>, l: LinkModel)
    requires l.to == "undefined" && "undefined" !in nodes
    ensures l !in DrawnLinks(links, nodes)
  {
  }

  function NodeId(n: NodeModel): string {
    n.id
  }

  /** The roadmapper's interaction state. */
  datatype MapperState = MapperState(
    nodes: map<string, NodeModel>,
    links: seq<LinkModel>,
    pmosByProjectKey: map<string, Pmo>,
    snapToPrimaryGrid: bool,
    snapToSecondaryGrid: bool,
    drag: Option<DragState>,
    isPanning: bool,
    pan: Pt,
    panStart: Pt,
    panOffset: Pt,
    zoom: real)

  /** The state of a freshly created roadmapper. */
  const INITIAL_MAPPER: MapperState := MapperState(map[], [], map[], true, false, None, false, Pt(0.0, 0.0), Pt(0.0, 0.0), Pt(0.0, 0.0), 1.0)

  /** The nodes and links after loading `pmos`; nothing else changes. */
  function RefreshStep(s: MapperState, pmos: seq<Pmo>, newId: nat -> string): (r: MapperState)
    ensures r.pmosByProjectKey == ByProjectKey(pmos)
    ensures r.nodes == MapFrom(NodesFor(pmos), NodeId)
    ensures r.links == LinksFor(pmos, ByProjectKey(pmos), newId, 0)
    ensures r.(nodes := s.nodes, links := s.links, pmosByProjectKey := s.pmosByProjectKey) == s
  {
    var byKey := ByProjectKey(pmos);
    s.(pmosByProjectKey := byKey, nodes := MapFrom(NodesFor(pmos), NodeId), links := LinksFor(pmos, byKey, newId, 0))
  }

  /** Pointer down on a node: a drag starts from the node's current position. */
  function NodeDownStep(s: MapperState, id: string, clientX: real, clientY: real): (r: MapperState)
    requires id in s.nodes
    ensures r.drag == Some(DragState(id, clientX, clientY, s.nodes[id].x, s.nodes[id].y))
    ensures r.(drag := s.drag) == s
  {
    s.(drag := Some(DragState(id, clientX, clientY, s.nodes[id].x, s.nodes[id].y)))
  }

  /** The node moved to `(x, y)`, when it is still on the canvas. */
  function PlaceNode(nodes: map<string, NodeModel>, id: string, x: real, y: real): (r: map<string, NodeModel>)
    ensures r.Keys == nodes.Keys
    ensures forall k :: k in nodes && k != id ==> r[k] == nodes[k]
    ensures id in nodes ==> r[id] == nodes[id].(x := x, y := y)
  {
    if id in nodes then nodes[id := nodes[id].(x := x, y := y)] else nodes
  }

  /** Pointer move over a dragged node: it follows the pointer, unless the canvas is panning. */
  function NodeMoveStep(s: MapperState, clientX: real, clientY: real): (r: MapperState)
    ensures s.drag.None? || s.isPanning ==> r == s
    ensures r.(nodes := s.nodes) == s
  {
    if s.drag.None? || s.isPanning then s
    else
      var d := s.drag.value;
      s.(nodes := PlaceNode(s.nodes, d.nodeId, d.origX + (clientX - d.startX), d.origY + (clientY - d.startY)))
  }

  /** Pointer up on a dragged node: with a grid active the node snaps to it; the drag ends. */
  function NodeUpStep(s: MapperState): (r: MapperState)
    ensures s.drag.None? || s.isPanning ==> r == s
    ensures s.drag.Some? && !s.isPanning ==> r.drag.None?
    ensures s.drag.Some? && !s.isPanning ==>
      var id := s.drag.value.nodeId;
      match ActiveSnapGrid(s.snapToPrimaryGrid, s.snapToSecondaryGrid)
      case None => r.nodes == s.nodes
      case Some(g) =>
        if id in s.nodes
        then r.nodes == s.nodes[id := s.nodes[id].(x := SnapValue(s.nodes[id].x, g), y := SnapValue(s.nodes[id].y, g))]
        else r.nodes == s.nodes
    ensures r.(nodes := s.nodes, drag := s.drag) == s
  {
    if s.drag.None? || s.isPanning then s
    else
      var id := s.drag.value.nodeId;
      match ActiveSnapGrid(s.snapToPrimaryGrid, s.snapToSecondaryGrid)
      case None => s.(drag := None)
      case Some(g) =>
        if id in s.nodes
        then s.(nodes := PlaceNode(s.nodes, id, SnapValue(s.nodes[id].x, g), SnapValue(s.nodes[id].y, g)), drag := None)
        else s.(drag := None)
  }

  /** Pointer down on the stage: panning starts, unless a node is being dragged or the pointer is on a node. */
  function StageDownStep(s: MapperState, onNode: bool, clientX: real, clientY: real): (r: MapperState)
    ensures s.drag.Some? || onNode ==> r == s
    ensures s.drag.None? && !onNode ==> r == s.(isPanning := true, panStart := Pt(clientX, clientY))
  {
    if s.drag.Some? || onNode then s
    else s.(isPanning := true, panStart := Pt(clientX, clientY))
  }

  /** Pointer move while panning: the preview offset is the committed offset plus the pointer's travel. */
  function StageMoveStep(s: MapperState, clientX: real, clientY: real): (r: MapperState)
    ensures !s.isPanning || s.drag.Some? ==> r == s
    ensures r.(pan := s.pan) == s
  {
    if !s.isPanning || s.drag.Some? then s
    else s.(pan := Pt(s.panOffset.x + (clientX - s.panStart.x), s.panOffset.y + (clientY - s.panStart.y)))
  }

  /** Pointer up while panning: the pointer's travel is added to the committed offset and panning ends. */
  function StageUpStep(s: MapperState, clientX: real, clientY: real): (r: MapperState)
    ensures !s.isPanning || s.drag.Some? ==> r == s
    ensures r.(panOffset := s.panOffset, isPanning := s.isPanning) == s
  {
    if !s.isPanning || s.drag.Some? then s
    else s.(panOffset := Pt(s.panOffset.x + (clientX - s.panStart.x), s.panOffset.y + (clientY - s.panStart.y)), isPanning := false)
  }

  /** A wheel turn: `deltaY < 0` lowers the zoom by 0.1, anything else raises it by 0.1, without bounds. */
  function WheelStep(s: MapperState, deltaY: real): (r: MapperState)
    ensures r.(zoom := s.zoom) == s
    ensures deltaY < 0.0 ==> r.zoom == s.zoom - 0.1
    ensures deltaY >= 0.0 ==> r.zoom == s.zoom + 0.1
  {
    s.(zoom := if deltaY < 0.0 then s.zoom - 0.1 else s.zoom + 0.1)
  }

  /** A drag without an active grid leaves the node displaced by exactly the pointer's travel. */
  lemma DragFollowsPointer(s: MapperState, id: string, x0: real, y0: real, x1: real, y1: real)
    requires id in s.nodes && s.drag.None? && !s.isPanning
    requires !s.snapToPrimaryGrid && !s.snapToSecondaryGrid
    ensures var r := NodeUpStep(NodeMoveStep(NodeDownStep(s, id, x0, y0), x1, y1));
      r.drag.None? && id in r.nodes
      && r.nodes[id] == s.nodes[id].(x := s.nodes[id].x + (x1 - x0), y := s.nodes[id].y + (y1 - y0))
  {
  }

  /** A drag with an active grid leaves the node on the grid, within half a cell of where the pointer left it. */
  lemma DragSnapsToGrid(s: MapperState, id: string, x0: real, y0: real, x1: real, y1: real)
    requires id in s.nodes && s.drag.None? && !s.isPanning
    requires s.snapToPrimaryGrid || s.snapToSecondaryGrid
    ensures var g := ActiveSnapGrid(s.snapToPrimaryGrid, s.snapToSecondaryGrid).value;
      var r := NodeUpStep(NodeMoveStep(NodeDownStep(s, id, x0, y0), x1, y1));
      var dropX := s.nodes[id].x + (x1 - x0);
      var dropY := s.nodes[id].y + (y1 - y0);
      r.drag.None? && id in r.nodes
      && r.nodes[id] == s.nodes[id].(x := SnapValue(dropX, g), y := SnapValue(dropY, g))
      && (exists n: int :: r.nodes[id].x == GridLine(n, g))
      && (exists n: int :: r.nodes[id].y == GridLine(n, g))
      && -g / 2.0 <= r.nodes[id].x - dropX <= g / 2.0
      && -g / 2.0 <= r.nodes[id].y - dropY <= g / 2.0
  {
    var g := ActiveSnapGrid(s.snapToPrimaryGrid, s.snapToSecondaryGrid).value;
    var moved := NodeMoveStep(NodeDownStep(s, id, x0, y0), x1, y1);
    var dropX := s.nodes[id].x + (x1 - x0);
    var dropY := s.nodes[id].y + (y1 - y0);
    assert moved.nodes[id].x == dropX && moved.nodes[id].y == dropY;
  }

  /** A pan from press to release at the same point commits the pointer's travel, and the preview agrees with it. */
  lemma PanCommitsTravel(s: MapperState, x0: real, y0: real, x1: real, y1: real)
    requires s.drag.None?
    ensures var moved := StageMoveStep(StageDownStep(s, false, x0, y0), x1, y1);
      var r := StageUpStep(moved, x1, y1);
      r.panOffset == Pt(s.panOffset.x + (x1 - x0), s.panOffset.y + (y1 - y0))
      && r.pan == r.panOffset && !r.isPanning
  {
  }

  /** Wheel turns in opposite senses cancel out. */
  lemma WheelInverse(s: MapperState, deltaY: real)
    requires deltaY < 0.0
    ensures WheelStep(WheelStep(s, deltaY), -deltaY) == s
  {
  }

  /** The zoom has no lower bound: one more turn from 0.1 or below reaches zero or goes negative. */
  lemma ZoomUnbounded(s: MapperState, deltaY: real)
    requires deltaY < 0.0 && s.zoom <= 0.1
    ensures WheelStep(s, deltaY).zoom <= 0.0
  {
  }

  /** The roadmapper component's canvas state. */
  class RoadmapperCanvas {
    var nodes: map<string, NodeModel>
    var links: seq<LinkModel>
    var pmosByProjectKey: map<string, Pmo>
    var snapToPrimaryGrid: bool
    var snapToSecondaryGrid: bool
    var drag: Option<DragState>
    var isPanning: bool
    var pan: Pt
    var panStart: Pt
    var panOffset: Pt
    var zoom: real

    /** The fields as one value. */
    function View(): MapperState
      reads this
    {
      MapperState(nodes, links, pmosByProjectKey, snapToPrimaryGrid, snapToSecondaryGrid, drag, isPanning, pan, panStart, panOffset, zoom)
    }

    constructor()
      ensures View() == INITIAL_MAPPER
    {
      nodes := map[];
      links := [];
      pmosByProjectKey := map[];
      snapToPrimaryGrid := true;
      snapToSecondaryGrid := false;
      drag := None;
      isPanning := false;
      pan := Pt(0.0, 0.0);
      panStart := Pt(0.0, 0.0);
      panOffset := Pt(0.0, 0.0);
      zoom := 1.0;
    }

    /** `refresh` once the PMOs are loaded: index them, then rebuild the nodes and links. */
    method Refresh(pmos: seq<Pmo>, newId: nat -> string)
      modifies this
      ensures View() == RefreshStep(old(View()), pmos, newId)
    {
      pmosByProjectKey := ByProjectKey(pmos);
      var nodesArray, linksArray := BuildNodesAndLinks(pmos, pmosByProjectKey, newId);
      nodes := MapFrom(nodesArray, NodeId);
      links := linksArray;
    }

    /** The `pointerdown` listener of a node group. */
    method OnNodePointerDown(id: string, clientX: real, clientY: real)
      requires id in nodes
      modifies this
      ensures View() == NodeDownStep(old(View()), id, clientX, clientY)
    {
      drag := Some(DragState(id, clientX, clientY, nodes[id].x, nodes[id].y));
    }

    /** The `pointermove` listener of a node group. */
    method OnNodePointerMove(clientX: real, clientY: real)
      modifies this
      ensures View() == NodeMoveStep(old(View()), clientX, clientY)
    {
      if drag.None? || isPanning {
        return;
      }
      var dx := clientX - drag.value.startX;
      var dy := clientY - drag.value.startY;
      nodes := PlaceNode(nodes, drag.value.nodeId, drag.value.origX + dx, drag.value.origY + dy);
    }

    /** The `pointerup` listener of a node group. */
    method OnNodePointerUp()
      modifies this
      ensures View() == NodeUpStep(old(View()))
    {
      if drag.None? || isPanning {
        return;
      }
      var grid := ActiveSnapGrid(snapToPrimaryGrid, snapToSecondaryGrid);
      if grid.Some? {
        var id := drag.value.nodeId;
        if id in nodes {
          nodes := PlaceNode(nodes, id, SnapValue(nodes[id].x, grid.value), SnapValue(nodes[id].y, grid.value));
        }
      }
      drag := None;
    }

    /** The stage's `pointerdown` listener; `onNode` says whether the pointer is on a node. */
    method OnStagePointerDown(onNode: bool, clientX: real, clientY: real)
      modifies this
      ensures View() == StageDownStep(old(View()), onNode, clientX, clientY)
    {
      if drag.Some? {
        return;
      }
      if onNode {
        return;
      }
      isPanning := true;
      panStart := Pt(clientX, clientY);
    }

    /** The stage's `pointermove` listener. */
    method OnStagePointerMove(clientX: real, clientY: real)
      modifies this
      ensures View() == StageMoveStep(old(View()), clientX, clientY)
    {
      if !isPanning || drag.Some? {
        return;
      }
      var dx := clientX - panStart.x;
      var dy := clientY - panStart.y;
      pan := Pt(panOffset.x + dx, panOffset.y + dy);
    }

    /** The stage's `pointerup` listener. */
    method OnStagePointerUp(clientX: real, clientY: real)
      modifies this
      ensures View() == StageUpStep(old(View()), clientX, clientY)
    {
      if !isPanning || drag.Some? {
        return;
      }
      var dx := clientX - panStart.x;
      var dy := clientY - panStart.y;
      panOffset := Pt(panOffset.x + dx, panOffset.y + dy);
      isPanning := false;
    }

    /** The stage's `wheel` listener (the view box it also rescales is not part of this model). */
    method OnWheel(deltaY: real)
      modifies this
      ensures View() == WheelStep(old(View()), deltaY)
    {
      if deltaY < 0.0 {
        zoom := zoom - 0.1;
      } else {
        zoom := zoom + 0.1;
      }
    }
  }
}
