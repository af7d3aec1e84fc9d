/**
 * The board component (src/app/features/tools/board/board.ts): hit testing,
 * the selection box, resize-handle arithmetic, arrow markers, and the
 * gesture state machine that turns pointer and keyboard events into calls
 * on the board store.
 *
 * Positions arrive already converted to board units: the screen-to-board
 * conversion reads DOM measurements and is a parameter here.
 */
module BoardView {
  import opened Wrappers
  import opened Collections
  import opened BoardModels
  import opened BoardStore
  import opened BoardGeometry

  /** An axis-aligned rectangle `{x, y, w, h}`. */
  datatype Bounds = Bounds(x: real, y: real, w: real, h: real)

  function CardRect(c: CardModel): Bounds {
    Bounds(c.x, c.y, c.width, c.height)
  }

  /** `rectsIntersect(a, b)`: the interiors overlap. */
  predicate RectsIntersect(a: Bounds, b: Bounds) {
    a.x < b.x + b.w && a.x + a.w > b.x && a.y < b.y + b.h && a.y + a.h > b.y
  }

  /** Intersection does not depend on the order of the rectangles. */
  lemma RectsIntersectSymmetric(a: Bounds, b: Bounds)
    ensures RectsIntersect(a, b) <==> RectsIntersect(b, a)
  {
  }

  /** Rectangles that only share an edge do not intersect. */
  lemma TouchingRectsDoNotIntersect(a: Bounds, b: Bounds)
    requires a.x + a.w == b.x || a.y + a.h == b.y
    ensures !RectsIntersect(a, b)
  {
  }

  /** A rectangle with positive sides intersects itself; one of zero width intersects nothing. */
  lemma RectsIntersectDegenerate(a: Bounds, b: Bounds)
    ensures a.w > 0.0 && a.h > 0.0 ==> RectsIntersect(a, a)
    ensures a.w == 0.0 && b.w == 0.0 ==> !RectsIntersect(a, b)
  {
  }

  /** The closed rectangle of the card contains the point. */
  predicate ContainsPoint(c: CardModel, x: real, y: real) {
    x >= c.x && x <= c.x + c.width && y >= c.y && y <= c.y + c.height
  }

  /**
   * The index of the topmost (last drawn) card containing the point, or -1
   * when no card contains it.
   */
  function TopCardIndex(cards: seq<CardModel>, x: real, y: real): (k: int)
    ensures -1 <= k < |cards|
    ensures k == -1 ==> forall c :: c in cards ==> !ContainsPoint(c, x, y)
    ensures k >= 0 ==> ContainsPoint(cards[k], x, y) && forall j :: k < j < |cards| ==> !ContainsPoint(cards[j], x, y)
    decreases |cards|
  {
    if cards == [] then -1
    else if ContainsPoint(cards[|cards| - 1], x, y) then |cards| - 1
    else
      var init := cards[..|cards| - 1];
      assert forall c :: c in cards ==> c in init || c == cards[|cards| - 1];
      TopCardIndex(init, x, y)
  }

  /** A card that contains the point with none drawn above it containing it is the one found. */
  lemma TopCardIsTopmost(cards: seq<CardModel>, x: real, y: real, k: int)
    requires 0 <= k < |cards| && ContainsPoint(cards[k], x, y)
    requires forall j :: k < j < |cards| ==> !ContainsPoint(cards[j], x, y)
    ensures TopCardIndex(cards, x, y) == k
  {
    var t := TopCardIndex(cards, x, y);
    if t == -1 {
      assert cards[k] in cards;
    }
  }

  /** `getCardAtPoint(s, x, y)`: the topmost (last drawn) card under the point. */
  method GetCardAtPoint(s: BoardState, x: real, y: real) returns (r: Option<CardModel>)
    ensures var k := TopCardIndex(s.cards, x, y); r == if k >= 0 then Some(s.cards[k]) else None
    ensures r.None? ==> forall c :: c in s.cards ==> !ContainsPoint(c, x, y)
    ensures r.Some? ==> exists k :: (0 <= k < |s.cards| && s.cards[k] == r.value && ContainsPoint(r.value, x, y)
      && forall j :: k < j < |s.cards| ==> !ContainsPoint(s.cards[j], x, y))
  {
    var i := |s.cards| - 1;
    while i >= 0
      invariant -1 <= i < |s.cards|
      invariant forall j :: i < j < |s.cards| ==> !ContainsPoint(s.cards[j], x, y)
    {
      var c := s.cards[i];
      if ContainsPoint(c, x, y) {
        TopCardIsTopmost(s.cards, x, y, i);
        return Some(c);
      }
      i := i - 1;
    }
    return None;
  }

  /** The bounding box `(minX, minY, maxX, maxY)` of a non-empty run of cards. */
  datatype Extent = Extent(minX: real, minY: real, maxX: real, maxY: real)

  /** No smaller box would do: each side of the box touches one of the cards. */
  lemma {:induction false} ExtentOfTight(cards: seq<CardModel>)
    requires |cards| > 0
    ensures var b := ExtentOf(cards);
      && (exists c :: c in cards && c.x == b.minX)
      && (exists c :: c in cards && c.y == b.minY)
      && (exists c :: c in cards && c.x + c.width == b.maxX)
      && (exists c :: c in cards && c.y + c.height == b.maxY)
  {
    var c := cards[|cards| - 1];
    if |cards| > 1 {
      var init := cards[..|cards| - 1];
      assert cards == init + [c];
      ExtentOfTight(init);
      assert forall d :: d in init ==> d in cards;
    }
  }

  /** The box grown to take in one more card. */
  function Extend(b: Extent, c: CardModel): Extent {
    Extent(Min(b.minX, c.x), Min(b.minY, c.y), Max(b.maxX, c.x + c.width), Max(b.maxY, c.y + c.height))
  }

  /** The box of a non-empty run of cards: it contains each of them. */
  function ExtentOf(cards: seq<CardModel>): (b: Extent)
    requires |cards| > 0
    ensures forall c :: c in cards ==> b.minX <= c.x && b.minY <= c.y && c.x + c.width <= b.maxX && c.y + c.height <= b.maxY
  {
    var c := cards[|cards| - 1];
    if |cards| == 1 then Extent(c.x, c.y, c.x + c.width, c.y + c.height)
    else
      var init := cards[..|cards| - 1];
      assert forall d :: d in cards <==> d in init || d == c by {
        assert cards == init + [c];
      }
      var b := ExtentOf(init);
      Extend(b, c)
  }

  /** The box of a longer prefix is the shorter prefix's box extended by the next card. */
  lemma ExtentOfStep(cards: seq<CardModel>, i: nat)
    requires 1 <= i < |cards|
    ensures ExtentOf(cards[..i + 1]) == Extend(ExtentOf(cards[..i]), cards[i])
  {
    assert cards[..i + 1][..i] == cards[..i];
  }

  /** `{x: minX, y: minY, w: maxX - minX, h: maxY - minY}`. */
  function BoundsOf(b: Extent): Bounds {
    Bounds(b.minX, b.minY, b.maxX - b.minX, b.maxY - b.minY)
  }

  /** The cards whose ids are selected, in board order; there are none exactly when no card's id is selected. */
  function SelectedCards(s: BoardState): (sel: seq<CardModel>)
    ensures |sel| == 0 <==> forall c :: c in s.cards ==> c.id !in s.selectedCardIds
  {
    var sel := Filter(s.cards, (c: CardModel) => c.id in s.selectedCardIds);
    assert |sel| > 0 ==> sel[0] in sel;
    sel
  }

  /**
   * `getSelectionBounds(s)`: nothing for fewer than two selected ids or
   * when none of them is on the board, otherwise the smallest box around
   * the selected cards. The loop's infinite starting values are the first
   * card's here.
   */
  method GetSelectionBounds(s: BoardState) returns (r: Option<Bounds>)
    ensures r.None? <==> |s.selectedCardIds| < 2 || |SelectedCards(s)| == 0
    ensures r.Some? ==> |SelectedCards(s)| > 0 && r.value == BoundsOf(ExtentOf(SelectedCards(s)))
  {
    if |s.selectedCardIds| < 2 {
      return None;
    }
    var sel := SelectedCards(s);
    if |sel| == 0 {
      return None;
    }
    var b := BoxAround(sel);
    return Some(BoundsOf(b));
  }

  /** The min/max loop of `getSelectionBounds` over the selected cards. */
  method BoxAround(sel: seq<CardModel>) returns (b: Extent)
    requires |sel| > 0
    ensures b == ExtentOf(sel)
  {
    var minX, minY := sel[0].x, sel[0].y;
    var maxX, maxY := sel[0].x + sel[0].width, sel[0].y + sel[0].height;
    var i := 1;
    assert sel[..1] == [sel[0]];
    while i < |sel|
      invariant 1 <= i <= |sel|
      invariant ExtentOf(sel[..i]) == Extent(minX, minY, maxX, maxY)
    {
      var c := sel[i];
      ExtentOfStep(sel, i);
      minX := Min(minX, c.x);
      minY := Min(minY, c.y);
      maxX := Max(maxX, c.x + c.width);
      maxY := Max(maxY, c.y + c.height);
      i := i + 1;
    }
    assert sel[..|sel|] == sel;
    return Extent(minX, minY, maxX, maxY);
  }

  /** The marquee's two corners, as dragged. */
  datatype Marquee = Marquee(x0: real, y0: real, x1: real, y1: real)

  /** The marquee's corners put in order with min and max. */
  function MarqueeRect(m: Marquee): (r: Bounds)
    ensures r.w >= 0.0 && r.h >= 0.0
  {
    var x0 := Min(m.x0, m.x1);
    var y0 := Min(m.y0, m.y1);
    Bounds(x0, y0, Max(m.x0, m.x1) - x0, Max(m.y0, m.y1) - y0)
  }

  /** Dragging from either corner gives the same box. */
  lemma MarqueeDirectionIrrelevant(x0: real, y0: real, x1: real, y1: real)
    ensures MarqueeRect(Marquee(x0, y0, x1, y1)) == MarqueeRect(Marquee(x1, y1, x0, y0))
    ensures MarqueeRect(Marquee(x0, y0, x1, y1)) == MarqueeRect(Marquee(x1, y0, x0, y1))
  {
  }

  /** The ids of the cards the released marquee catches, in board order: exactly those intersecting its box. */
  function MarqueeIds(cards: seq<CardModel>, box: Bounds): (ids: seq<string>)
    ensures |ids| <= |cards|
    ensures forall id :: id in ids <==> exists c :: c in cards && c.id == id && RectsIntersect(CardRect(c), box)
  {
    if cards == [] then []
    else
      var rest := MarqueeIds(cards[1..], box);
      assert forall c :: c in cards <==> c == cards[0] || c in cards[1..];
      if RectsIntersect(CardRect(cards[0]), box) then [cards[0].id] + rest else rest
  }

  /** `markerEnd(ln)`: the arrow-head marker, for filled and open heads only. */
  function MarkerEnd(ln: LinkModel): (r: Option<string>)
    ensures r.Some? <==> ln.style.arrowHead == Some(Filled) || ln.style.arrowHead == Some(Open)
    ensures ln.style.arrowHead == Some(Filled) ==> r == Some("url(#arrow-head-filled)")
    ensures ln.style.arrowHead == Some(Open) ==> r == Some("url(#arrow-head-open)")
  {
    if ln.style.arrowHead == Some(Filled) then Some("url(#arrow-head-filled)")
    else if ln.style.arrowHead == Some(Open) then Some("url(#arrow-head-open)")
    else None
  }

  /** `markerStart(ln)`: the arrow-tail marker, for filled and open tails only. */
  function MarkerStart(ln: LinkModel): (r: Option<string>)
    ensures r.Some? <==> ln.style.arrowTail == Some(Filled) || ln.style.arrowTail == Some(Open)
    ensures ln.style.arrowTail == Some(Filled) ==> r == Some("url(#arrow-tail-filled)")
    ensures ln.style.arrowTail == Some(Open) ==> r == Some("url(#arrow-tail-open)")
  {
    if ln.style.arrowTail == Some(Filled) then Some("url(#arrow-tail-filled)")
    else if ln.style.arrowTail == Some(Open) then Some("url(#arrow-tail-open)")
    else None
  }

  /** `getConnectionPoints(card).find(c => c.id === cpId) || getConnectionPoints(card)[0]`. */
  function PointById(card: CardModel, cpId: string): (cp: ConnectionPoint)
    ensures cp in ConnectionPoints(card)
    ensures (exists c :: c in ConnectionPoints(card) && c.id == cpId) ==> cp.id == cpId
    ensures (forall c :: c in ConnectionPoints(card) ==> c.id != cpId) ==> cp == ConnectionPoints(card)[0]
  {
    var cps := ConnectionPoints(card);
    var k := FirstIndex(cps, (c: ConnectionPoint) => c.id == cpId);
    if k >= 0 then cps[k] else cps[0]
  }

  /**
   * The connection point `getDraftPathD` makes up at the pointer: on a side
   * when the pointer went farther across than down, on the top or bottom
   * otherwise, on the side facing the way the pointer went.
   */
  function DraftTargetPoint(from: Pt, to: Pt): (cp: ConnectionPoint)
    ensures var dx := to.x - from.x; var dy := to.y - from.y;
      && (Abs(dx) > Abs(dy) && dx > 0.0 ==> DominantDirection(cp) == Right)
      && (Abs(dx) > Abs(dy) && dx <= 0.0 ==> DominantDirection(cp) == Left)
      && (Abs(dx) <= Abs(dy) && dy > 0.0 ==> DominantDirection(cp) == Down)
      && (Abs(dx) <= Abs(dy) && dy <= 0.0 ==> DominantDirection(cp) == Up)
  {
    var dx := to.x - from.x;
    var dy := to.y - from.y;
    var across := Abs(dx) > Abs(dy);
    ConnectionPoint("tmp", if across then (if dx > 0.0 then 1.0 else 0.0) else 0.5,
                    if across then 0.5 else (if dy > 0.0 then 1.0 else 0.0), Some(CircleCp), None)
  }

  /** The curve of a link draft from `src`: from where the draft started to the pointer. */
  function DraftCurve(src: CardModel, d: LinkDraft): (z: Bezier)
    ensures z.p0 == d.from && z.p3 == d.to
    ensures PulledAlong(d.to, z.p2, DominantDirection(DraftTargetPoint(d.from, d.to)), d.to.x - d.from.x, d.to.y - d.from.y)
  {
    BezierForEndpoints(Endpoint(d.from, PointById(src, d.sourcePointId)), Endpoint(d.to, DraftTargetPoint(d.from, d.to)))
  }

  /**
   * `getDraftPathD(s)`: nothing without a draft or once its source card is
   * gone; else the draft curve's path data and its point at `t = 0.5`,
   * where the label goes.
   */
  function DraftPathD(s: BoardState, draft: Option<LinkDraft>, fmt: real -> string): (r: Option<(string, Pt)>)
    ensures r.Some? <==> draft.Some? && draft.value.sourceCardId in CardIds(s.cards)
    ensures r.Some? ==> var src := CardById(s, draft.value.sourceCardId).value;
      var z := DraftCurve(src, draft.value);
      r.value.0 == BezierPathD(z, fmt) && r.value.1 == CubicPoint(z.p0, z.p1, z.p2, z.p3, 0.5)
  {
    if draft.None? then None
    else
      var src := CardById(s, draft.value.sourceCardId);
      if src.None? then None
      else
        var z := DraftCurve(src.value, draft.value);
        Some((BezierPathD(z, fmt), CubicPoint(z.p0, z.p1, z.p2, z.p3, 0.5)))
  }

  /** A draft whose pointer is still where it started is drawn as that single point, its label there too. */
  lemma DraftAtStartIsPoint(s: BoardState, d: LinkDraft, fmt: real -> string)
    requires d.sourceCardId in CardIds(s.cards) && d.to == d.from
    ensures var r := DraftPathD(s, Some(d), fmt);
      r.Some? && r.value.1 == d.from && r.value.0 == BezierPathD(Bezier(d.from, d.from, d.from, d.from), fmt)
  {
    var src := CardById(s, d.sourceCardId).value;
    var z := DraftCurve(src, d);
    assert z == Bezier(d.from, d.from, d.from, d.from);
    ConstantCurve(d.from, 0.5);
  }

  /** A link added with default options is drawn with a filled head and no tail. */
  lemma DefaultLinkMarkers(s: BoardState, linkId: string, a: string, ap: string, b: string, bp: string)
    requires AddLinkStep(s, linkId, a, ap, b, bp, NO_LINK_OPTS).1.Some?
    ensures var ln := Last(AddLinkStep(s, linkId, a, ap, b, bp, NO_LINK_OPTS).0.links);
      MarkerEnd(ln) == Some("url(#arrow-head-filled)") && MarkerStart(ln).None?
  {
  }

  function Last<T>(s: seq<T>): T
    requires |s| > 0
  {
    s[|s| - 1]
  }

  /** The resize gesture's starting point. */
  datatype Resizing = Resizing(
    cardId: string, handle: string, startX: real, startY: real, startW: real, startH: real,
    startMouseX: real, startMouseY: real, keepRatio: bool)

  /** The box's sides stand in the ratio of the resize's starting sides. */
  predicate KeepsRatio(b: Bounds, rz: Resizing) {
    Cross(b.w, rz.startH) == Cross(b.h, rz.startW)
  }

  /** A product of two sides, kept behind a name so that callers of the resize steps do not reason about it. */
  function Cross(a: real, b: real): real {
    a * b
  }

  /** `applyRatio(primary)`: with Shift held, the other side follows the starting aspect ratio. */
  function ApplyRatio(b: Bounds, primaryW: bool, shift: bool, rz: Resizing): (r: Bounds)
    requires shift ==> rz.startW != 0.0 && rz.startH != 0.0
    ensures !shift ==> r == b
    ensures shift ==> r.x == b.x && r.y == b.y && KeepsRatio(r, rz)
    ensures shift && primaryW ==> r.w == b.w
    ensures shift && !primaryW ==> r.h == b.h
  {
    if !shift then b
    else
      var ratio := rz.startW / rz.startH;
      if primaryW then
        assert (b.w / ratio) * rz.startW == b.w * rz.startH by {
          assert b.w / ratio == b.w * rz.startH / rz.startW;
        }
        b.(h := b.w / ratio)
      else
        b.(w := b.h * ratio)
  }

  /**
   * The rectangle `onResizeMove` asks for, `(dx, dy)` being the pointer's
   * travel in board units: each handle letter the handle name contains
   * moves its side, `e` and `s` growing the far sides, `w` and `n` moving
   * the near sides with the far side fixed.
   */
  function ResizedRect(rz: Resizing, dx: real, dy: real, shift: bool): (r: Bounds)
    requires shift ==> rz.startW != 0.0 && rz.startH != 0.0
    ensures 'w' in rz.handle ==> r.x == rz.startX + dx
    ensures 'w' !in rz.handle ==> r.x == rz.startX
    ensures 'n' in rz.handle ==> r.y == rz.startY + dy
    ensures 'n' !in rz.handle ==> r.y == rz.startY
  {
    var b0 := Bounds(rz.startX, rz.startY, rz.startW, rz.startH);
    var b1 := if 'e' in rz.handle then ApplyRatio(b0.(w := rz.startW + dx), true, shift, rz) else b0;
    var b2 := if 's' in rz.handle then ApplyRatio(b1.(h := rz.startH + dy), false, shift, rz) else b1;
    var b3 := if 'w' in rz.handle then ApplyRatio(b2.(w := rz.startW - dx, x := rz.startX + dx), true, shift, rz) else b2;
    if 'n' in rz.handle then ApplyRatio(b3.(h := rz.startH - dy, y := rz.startY + dy), false, shift, rz) else b3
  }

  /**
   * Without Shift, `e` and `s` move the far sides by the pointer's travel,
   * `w` and `n` move the near sides with the far sides fixed, and a side
   * no handle letter names stays.
   */
  lemma ResizeWithoutShift(rz: Resizing, dx: real, dy: real)
    ensures var r := ResizedRect(rz, dx, dy, false);
      && ('e' in rz.handle && 'w' !in rz.handle ==> r.w == rz.startW + dx && r.x == rz.startX)
      && ('s' in rz.handle && 'n' !in rz.handle ==> r.h == rz.startH + dy && r.y == rz.startY)
      && ('w' in rz.handle ==> r.x == rz.startX + dx && r.x + r.w == rz.startX + rz.startW)
      && ('n' in rz.handle ==> r.y == rz.startY + dy && r.y + r.h == rz.startY + rz.startH)
      && ('e' !in rz.handle && 'w' !in rz.handle ==> r.x == rz.startX && r.w == rz.startW)
      && ('s' !in rz.handle && 'n' !in rz.handle ==> r.y == rz.startY && r.h == rz.startH)
  {
  }

  /** With Shift, whichever handle letters apply, the result keeps the starting aspect ratio. */
  lemma ResizeWithShift(rz: Resizing, dx: real, dy: real)
    requires rz.startW != 0.0 && rz.startH != 0.0
    requires 'e' in rz.handle || 's' in rz.handle || 'w' in rz.handle || 'n' in rz.handle
    ensures KeepsRatio(ResizedRect(rz, dx, dy, true), rz)
  {
    var b0 := Bounds(rz.startX, rz.startY, rz.startW, rz.startH);
    var b1 := if 'e' in rz.handle then ApplyRatio(b0.(w := rz.startW + dx), true, true, rz) else b0;
    var b2 := if 's' in rz.handle then ApplyRatio(b1.(h := rz.startH + dy), false, true, rz) else b1;
    var b3 := if 'w' in rz.handle then ApplyRatio(b2.(w := rz.startW - dx, x := rz.startX + dx), true, true, rz) else b2;
    var r := ResizedRect(rz, dx, dy, true);
    // The last handle letter that applies decides the result, and its ApplyRatio keeps the ratio.
    if 'n' in rz.handle {
      assert r == ApplyRatio(b3.(h := rz.startH - dy, y := rz.startY + dy), false, true, rz);
    } else if 'w' in rz.handle {
      assert r == ApplyRatio(b2.(w := rz.startW - dx, x := rz.startX + dx), true, true, rz);
    } else if 's' in rz.handle {
      assert r == ApplyRatio(b1.(h := rz.startH + dy), false, true, rz);
    } else {
      assert r == ApplyRatio(b0.(w := rz.startW + dx), true, true, rz);
    }
  }

  /** An east-handle drag without Shift widens the card and keeps its height; with Shift the sides stay in the starting ratio. */
  lemma EastDrag(rz: Resizing, dx: real)
    requires rz.handle == "e" && dx > 0.0 && rz.startW != 0.0 && rz.startH != 0.0
    ensures ResizedRect(rz, dx, 0.0, false).w > rz.startW && ResizedRect(rz, dx, 0.0, false).h == rz.startH
    ensures KeepsRatio(ResizedRect(rz, dx, 0.0, true), rz)
  {
    ResizeWithShift(rz, dx, 0.0);
  }

  /** `interactionMode`: the one gesture in progress. */
  datatype InteractionMode = Idle | MarqueeMode | PanMode | DragCard | ResizeCard | CreateLink | ReconnectEndpoint

  datatype PanStart = PanStart(startX: real, startY: real, startOffsetX: real, startOffsetY: real)
  datatype DragStart = DragStart(sx: real, sy: real)
  datatype LinkDraft = LinkDraft(sourceCardId: string, sourcePointId: string, from: Pt, to: Pt)
  /** The card and point a link gesture started from, while its pointer listeners are installed. */
  datatype LinkGesture = LinkGesture(cardId: string, pointId: string)
  datatype EndpointDrag = EndpointDrag(linkId: string, toSource: bool, to: Pt, hoverCardId: Option<string>, hoverCpId: Option<string>)

  /** Every field of the component's interaction state. */
  datatype UiState = UiState(
    mode: InteractionMode, dragging: bool, resizing: Option<Resizing>, marquee: Option<Marquee>, pan: Option<PanStart>,
    spacePressed: bool, dragStart: Option<DragStart>, linkDraft: Option<LinkDraft>, linkGesture: Option<LinkGesture>,
    endpointDrag: Option<EndpointDrag>, endpointListening: bool,
    hoverTargetCardId: Option<string>, hoverTargetCpId: Option<string>, hoverNearCp: bool, hoverCardId: Option<string>)

  /** The keys the component reacts to. */
  datatype Key = Space | Delete | Backspace | Escape | ArrowLeft | ArrowRight | ArrowUp | ArrowDown | OtherKey

  /** The hover fields name the topmost card under `(x, y)` and its nearest point, or nothing when no card is there. */
  predicate HoversTopCard(ui: UiState, cards: seq<CardModel>, x: real, y: real) {
    var k := TopCardIndex(cards, x, y);
    if k >= 0
    then ui.hoverTargetCardId == Some(cards[k].id) && ui.hoverTargetCpId == Some(NearestConnectionPoint(cards[k], x, y).id)
    else ui.hoverTargetCardId.None? && ui.hoverTargetCpId.None?
  }

  /** The hover target while a pointer moves over the board: the card under it and its nearest point. */
  method HoverTarget(s: BoardState, x: real, y: real) returns (card: Option<string>, cp: Option<string>)
    ensures card.None? <==> cp.None?
    ensures card.None? ==> forall c :: c in s.cards ==> !ContainsPoint(c, x, y)
    ensures var k := TopCardIndex(s.cards, x, y);
      if k >= 0 then card == Some(s.cards[k].id) && cp == Some(NearestConnectionPoint(s.cards[k], x, y).id)
      else card.None? && cp.None?
  {
    var hit := GetCardAtPoint(s, x, y);
    if hit.Some? {
      return Some(hit.value.id), Some(NearestConnectionPoint(hit.value, x, y).id);
    }
    return None, None;
  }

  /** What a key press does to the interaction state: Space arms panning, Escape abandons every gesture. */
  function KeyUi(ui: UiState, key: Key): (r: UiState)
    ensures r.spacePressed == (ui.spacePressed || key == Space)
    ensures key == Escape ==> (r.mode == Idle && r.marquee.None? && r.resizing.None? && !r.dragging
      && r.linkDraft.None? && r.endpointDrag.None? && r.hoverTargetCardId.None? && r.hoverTargetCpId.None?)
    ensures key != Escape ==> r == ui.(spacePressed := r.spacePressed)
  {
    match key
    case Space => ui.(spacePressed := true)
    case Escape =>
      ui.(marquee := None, resizing := None, dragging := false, linkDraft := None, endpointDrag := None,
          endpointListening := false, hoverTargetCardId := None, hoverTargetCpId := None, hoverNearCp := false, mode := Idle)
    case _ => ui
  }

  /** What a key press does to the board: Delete and Backspace remove the selection, Escape clears it, the arrows nudge it one unit. */
  function KeyBoard(s: BoardState, key: Key): (r: BoardState)
    ensures key in {Delete, Backspace, Escape} ==> r.selectedCardIds == [] && r.selectedLinkIds == []
    ensures key in {Delete, Backspace} ==> forall c :: c in r.cards <==> c in s.cards && c.id !in s.selectedCardIds
    ensures key in {Escape, ArrowLeft, ArrowRight, ArrowUp, ArrowDown} ==> r.links == s.links && |r.cards| == |s.cards|
    ensures key in {ArrowLeft, ArrowRight, ArrowUp, ArrowDown} ==> r.selectedCardIds == s.selectedCardIds
    ensures key in {Space, OtherKey} ==> r == s
  {
    match key
    case Delete => RemoveSelectedStep(s)
    case Backspace => RemoveSelectedStep(s)
    case Escape => ClearSelectionStep(s)
    case ArrowLeft => MoveSelectedStep(s, -1.0, 0.0)
    case ArrowRight => MoveSelectedStep(s, 1.0, 0.0)
    case ArrowUp => MoveSelectedStep(s, 0.0, -1.0)
    case ArrowDown => MoveSelectedStep(s, 0.0, 1.0)
    case _ => s
  }

  /** The rectangle `onResizeMove` asks for: the pointer's travel from the resize start, in board units at `zoom`, applied by `ResizedRect`. */
  function ResizeTarget(rz: Resizing, clientX: real, clientY: real, zoom: real, shiftKey: bool): (r: Bounds)
    requires zoom > 0.0
    requires shiftKey ==> rz.startW != 0.0 && rz.startH != 0.0
  {
    ResizedRect(rz, PxToUnits(clientX - rz.startMouseX, zoom), PxToUnits(clientY - rz.startMouseY, zoom), shiftKey)
  }

  /** A pointer travel in pixels as board units at `zoom`: `d / (UNIT_TO_PX_AT_100 * zoom)`. */
  function PxToUnits(d: real, zoom: real): real
    requires zoom > 0.0
  {
    d / (UNIT_TO_PX_AT_100 * zoom)
  }

  /**
   * The component. Its fifteen interaction fields are held as the one
   * record `ui`; each handler replaces the fields it assigns.
   */
  class Board {
    const board: BoardStateService
    var ui: UiState

    constructor (board: BoardStateService)
      ensures this.board == board
      ensures ui == UiState(Idle, false, None, None, None, false, None, None, None, None, false, None, None, false, None)
    {
      this.board := board;
      ui := UiState(Idle, false, None, None, None, false, None, None, None, None, false, None, None, false, None);
    }

    /** `addCard()`: a card at the given board position (the centring arithmetic reads the DOM). */
    method AddCard(id: string, x: real, y: real)
      modifies board
      ensures board.state == AddCardAtStep(old(board.state), id, x, y, NO_CARD_OPTS)
    {
      var _ := board.AddCardAt(id, x, y, NO_CARD_OPTS);
    }

    /** `adjustZoom(factor)` without a centre: the zoom is scaled and clamped, the pan kept. */
    method AdjustZoom(factor: real)
      modifies board
      ensures board.state == old(board.state).(viewport := old(board.state.viewport).(zoom := ClampZoom(old(board.state.viewport.zoom) * factor)))
    {
      var s := board.GetSnapshot();
      var newZoom := Max(0.1, Min(s.viewport.zoom * factor, 8.0));
      board.SetZoom(newZoom);
      board.SetPan(s.viewport.offsetX, s.viewport.offsetY);
    }

    method ZoomIn()
      modifies board
      ensures board.state == old(board.state).(viewport := old(board.state.viewport).(zoom := ClampZoom(old(board.state.viewport.zoom) * 1.1)))
    {
      AdjustZoom(1.1);
    }

    method ZoomOut()
      modifies board
      ensures board.state == old(board.state).(viewport := old(board.state.viewport).(zoom := ClampZoom(old(board.state.viewport.zoom) * (1.0 / 1.1))))
    {
      AdjustZoom(1.0 / 1.1);
    }

    method ResetZoom()
      modifies board
      ensures board.state == old(board.state).(viewport := ViewportState(1.0, 0.0, 0.0))
    {
      board.SetZoom(1.0);
      board.SetPan(0.0, 0.0);
    }

    method DeleteSelection()
      modifies board
      ensures board.state == RemoveSelectedStep(old(board.state))
    {
      board.RemoveSelected();
    }

    /**
     * `onBackgroundPointerDown`: ignored during any gesture; a plain
     * primary press clears the selection and starts a marquee at `(x, y)`,
     * with Space held it starts a pan.
     */
    method OnBackgroundPointerDown(button: int, ctrlKey: bool, shiftKey: bool, x: real, y: real, clientX: real, clientY: real)
      modifies this, board
      ensures old(ui.mode) != Idle ==> ui == old(ui) && board.state == old(board.state)
      ensures old(ui.mode) == Idle && button == 0 && !ctrlKey && !shiftKey && !old(ui.spacePressed) ==>
        && ui == old(ui).(marquee := Some(Marquee(x, y, x, y)), mode := MarqueeMode)
        && board.state == ClearSelectionStep(old(board.state))
      ensures old(ui.mode) == Idle && button == 0 && old(ui.spacePressed) ==>
        && ui == old(ui).(pan := Some(PanStart(clientX, clientY, old(board.state.viewport.offsetX), old(board.state.viewport.offsetY))), mode := PanMode)
        && board.state == old(board.state)
      ensures old(ui.mode) == Idle && button != 0 ==> ui == old(ui) && board.state == old(board.state)
      ensures old(ui.mode) == Idle && (ctrlKey || shiftKey) && !old(ui.spacePressed) ==> ui == old(ui) && board.state == old(board.state)
    {
      if ui.mode != Idle {
        return;
      }
      var s := board.GetSnapshot();
      if button == 0 && !ctrlKey && !shiftKey && !ui.spacePressed {
        board.ClearSelection();
        ui := ui.(marquee := Some(Marquee(x, y, x, y)), mode := MarqueeMode);
      } else if button == 0 && ui.spacePressed {
        ui := ui.(pan := Some(PanStart(clientX, clientY, s.viewport.offsetX, s.viewport.offsetY)), mode := PanMode);
      }
    }

    /**
     * `onBackgroundPointerMove`, with `(cx, cy)` the pixel-to-viewBox scale:
     * a link draft or endpoint drag follows the pointer and retargets, a
     * marquee stretches, a pan moves the view.
     */
    method OnBackgroundPointerMove(x: real, y: real, clientX: real, clientY: real, cx: real, cy: real)
      modifies this, board
      ensures old(ui.linkDraft).Some? ==>
        && board.state == old(board.state)
        && ui.linkDraft == Some(old(ui.linkDraft).value.(to := Pt(x, y)))
        && (ui.hoverTargetCardId.None? <==> ui.hoverTargetCpId.None?)
        && HoversTopCard(ui, board.state.cards, x, y)
      ensures old(ui.linkDraft).None? && old(ui.endpointDrag).Some? ==>
        && board.state == old(board.state)
        && ui.endpointDrag.Some? && ui.endpointDrag.value.to == Pt(x, y)
        && ui.endpointDrag.value.hoverCardId == ui.hoverTargetCardId && ui.endpointDrag.value.hoverCpId == ui.hoverTargetCpId
        && HoversTopCard(ui, board.state.cards, x, y)
      ensures old(ui.linkDraft).None? && old(ui.endpointDrag).None? && old(ui.marquee).Some? ==>
        ui.marquee == Some(old(ui.marquee).value.(x1 := x, y1 := y))
      ensures old(ui.linkDraft).None? && old(ui.endpointDrag).None? && old(ui.pan).Some? ==>
        board.state == SetPanStep(old(board.state), old(ui.pan).value.startOffsetX + (clientX - old(ui.pan).value.startX) * cx,
                                  old(ui.pan).value.startOffsetY + (clientY - old(ui.pan).value.startY) * cy)
        && ui.hoverTargetCardId.None? && ui.hoverCardId.None? && !ui.hoverNearCp
      ensures old(ui.linkDraft).None? && old(ui.endpointDrag).None? && old(ui.pan).None? ==> board.state == old(board.state)
    {
      var s := board.GetSnapshot();
      if ui.linkDraft.Some? {
        var card, cp := HoverTarget(s, x, y);
        ui := ui.(linkDraft := Some(ui.linkDraft.value.(to := Pt(x, y))), hoverTargetCardId := card, hoverTargetCpId := cp);
        return;
      }
      if ui.endpointDrag.Some? {
        var card, cp := HoverTarget(s, x, y);
        ui := ui.(hoverTargetCardId := card, hoverTargetCpId := cp,
                  endpointDrag := Some(ui.endpointDrag.value.(to := Pt(x, y), hoverCardId := card, hoverCpId := cp)));
        return;
      }
      if ui.marquee.Some? {
        ui := ui.(marquee := Some(ui.marquee.value.(x1 := x, y1 := y)));
      }
      if ui.pan.Some? {
        var dx := clientX - ui.pan.value.startX;
        var dy := clientY - ui.pan.value.startY;
        board.SetPan(ui.pan.value.startOffsetX + dx * cx, ui.pan.value.startOffsetY + dy * cy);
        ui := ui.(hoverNearCp := false, hoverCardId := None, hoverTargetCardId := None, hoverTargetCpId := None);
        return;
      }
    }

    /** `onBackgroundPointerUp`: a marquee selects exactly the cards its box intersects; every background gesture ends. */
    method OnBackgroundPointerUp()
      modifies this, board
      ensures ui == old(ui).(marquee := None, pan := None, mode := Idle)
      ensures old(ui.marquee).Some? ==> board.state == SetSelectionStep(old(board.state), MarqueeIds(old(board.state).cards, MarqueeRect(old(ui.marquee).value)))
      ensures old(ui.marquee).None? ==> board.state == old(board.state)
    {
      var s := board.GetSnapshot();
      if ui.marquee.Some? {
        var ids := MarqueeIds(s.cards, MarqueeRect(ui.marquee.value));
        board.SetSelection(ids);
      }
      ui := ui.(marquee := None, pan := None, mode := Idle);
    }

    /** `onCardPointerDown`: Ctrl toggles the card, otherwise an unselected card becomes the selection; a drag starts. */
    method OnCardPointerDown(ctrlKey: bool, card: CardModel, clientX: real, clientY: real)
      modifies this, board
      ensures ui == old(ui).(dragging := true, mode := DragCard, dragStart := Some(DragStart(clientX, clientY)))
      ensures ctrlKey ==> board.state == ToggleSelectionStep(old(board.state), card.id)
      ensures !ctrlKey && card.id in old(board.state).selectedCardIds ==> board.state == old(board.state)
      ensures !ctrlKey && card.id !in old(board.state).selectedCardIds ==> board.state == SetSelectionStep(old(board.state), [card.id])
    {
      var s := board.GetSnapshot();
      if ctrlKey {
        board.ToggleSelection(card.id);
      } else if card.id !in s.selectedCardIds {
        board.SetSelection([card.id]);
      }
      ui := ui.(dragging := true, mode := DragCard, dragStart := Some(DragStart(clientX, clientY)));
    }

    /** `onDragMove`: the selection moves by the pointer's travel since the last move, in board units. */
    method OnDragMove(clientX: real, clientY: real)
      requires board.state.viewport.zoom > 0.0
      modifies this, board
      ensures !old(ui.dragging) || old(ui.dragStart).None? ==> ui == old(ui) && board.state == old(board.state)
      ensures old(ui.dragging) && old(ui.dragStart).Some? ==>
        && ui == old(ui).(dragStart := Some(DragStart(clientX, clientY)))
        && var zoom := old(board.state.viewport.zoom);
           board.state == MoveSelectedStep(old(board.state), PxToUnits(clientX - old(ui.dragStart).value.sx, zoom),
                                           PxToUnits(clientY - old(ui.dragStart).value.sy, zoom))
    {
      var s := board.GetSnapshot();
      if !ui.dragging || ui.dragStart.None? {
        return;
      }
      var dx := clientX - ui.dragStart.value.sx;
      var dy := clientY - ui.dragStart.value.sy;
      var ux, uy := PxToUnits(dx, s.viewport.zoom), PxToUnits(dy, s.viewport.zoom);
      ghost var moved := MoveSelectedStep(s, ux, uy);
      board.MoveSelected(ux, uy);
      assert board.state == moved;
      ui := ui.(dragStart := Some(DragStart(clientX, clientY)));
    }

    method OnDragEnd()
      modifies this
      ensures ui == old(ui).(dragging := false, dragStart := None, mode := Idle)
    {
      ui := ui.(dragging := false, dragStart := None, mode := Idle);
    }

    /** `startResize`: the card becomes the only selection, and its rectangle and the pointer are remembered. */
    method StartResize(card: CardModel, handle: string, clientX: real, clientY: real, shiftKey: bool)
      modifies this, board
      ensures ui == old(ui).(resizing := Some(Resizing(card.id, handle, card.x, card.y, card.width, card.height, clientX, clientY, shiftKey)),
                             mode := ResizeCard)
      ensures old(board.state).selectedCardIds == [card.id] ==> board.state == old(board.state)
      ensures old(board.state).selectedCardIds != [card.id] ==> board.state == SetSelectionStep(old(board.state), [card.id])
    {
      var s := board.GetSnapshot();
      if |s.selectedCardIds| != 1 || s.selectedCardIds[0] != card.id {
        board.SetSelection([card.id]);
      }
      ui := ui.(resizing := Some(Resizing(card.id, handle, card.x, card.y, card.width, card.height, clientX, clientY, shiftKey)),
                mode := ResizeCard);
    }

    /** `onResizeMove`: the card is resized to `ResizeTarget`, the store then enforcing the minimum size. */
    method OnResizeMove(clientX: real, clientY: real, shiftKey: bool)
      requires board.state.viewport.zoom > 0.0
      requires shiftKey && ui.resizing.Some? ==> ui.resizing.value.startW != 0.0 && ui.resizing.value.startH != 0.0
      modifies board
      ensures old(ui.resizing).None? ==> board.state == old(board.state)
      ensures old(ui.resizing).Some? ==>
        var rz := old(ui.resizing).value;
        var r := ResizeTarget(rz, clientX, clientY, old(board.state.viewport.zoom), shiftKey);
        board.state == ResizeCardStep(old(board.state), rz.cardId, r.x, r.y, r.w, r.h)
    {
      if ui.resizing.None? {
        return;
      }
      var rz := ui.resizing.value;
      var r := ResizeTarget(rz, clientX, clientY, board.state.viewport.zoom, shiftKey);
      board.ResizeCard(rz.cardId, r.x, r.y, r.w, r.h);
    }

    method OnResizeEnd()
      modifies this
      ensures ui == old(ui).(resizing := None, mode := Idle)
    {
      ui := ui.(resizing := None, mode := Idle);
    }

    /**
     * `onKey`: Space arms panning, Delete and Backspace remove the
     * selection, Escape abandons every gesture and clears the selection,
     * the arrows nudge the selection by one unit.
     */
    method OnKey(key: Key)
      modifies this, board
      ensures ui == KeyUi(old(ui), key)
      ensures board.state == KeyBoard(old(board.state), key)
    {
      var step := 1.0;
      match key {
        case Space =>
          ui := ui.(spacePressed := true);
        case Delete =>
          board.RemoveSelected();
        case Backspace =>
          board.RemoveSelected();
        case Escape =>
          CancelGestures();
          board.ClearSelection();
          ui := ui.(mode := Idle);
        case ArrowLeft =>
          board.MoveSelected(-step, 0.0);
        case ArrowRight =>
          board.MoveSelected(step, 0.0);
        case ArrowUp =>
          board.MoveSelected(0.0, -step);
        case ArrowDown =>
          board.MoveSelected(0.0, step);
        case OtherKey =>
      }
    }

    /** Escape's reset of every gesture and hover hint; the pointer listeners of an endpoint drag are removed too. */
    method CancelGestures()
      modifies this
      ensures ui == old(ui).(marquee := None, resizing := None, dragging := false, linkDraft := None, endpointDrag := None,
                             endpointListening := false, hoverTargetCardId := None, hoverTargetCpId := None, hoverNearCp := false)
    {
      ui := ui.(marquee := None, resizing := None, dragging := false, linkDraft := None, endpointDrag := None,
                endpointListening := false, hoverTargetCardId := None, hoverTargetCpId := None, hoverNearCp := false);
    }

    method OnKeyUp(key: Key)
      modifies this
      ensures key == Space ==> ui == old(ui).(spacePressed := false)
      ensures key != Space ==> ui == old(ui)
    {
      if key == Space {
        ui := ui.(spacePressed := false);
      }
    }

    /**
     * `startLinkFrom(card, cpId)`: ignored during any gesture; otherwise a
     * draft starts at the named point (or the card's first) and the
     * gesture's pointer listeners are installed.
     */
    method StartLinkFrom(card: CardModel, cpId: string)
      modifies this
      ensures old(ui.mode) != Idle ==> ui == old(ui)
      ensures old(ui.mode) == Idle ==>
        var cps := ConnectionPoints(card);
        var k := FirstIndex(cps, (c: ConnectionPoint) => c.id == cpId);
        var cp := if k >= 0 then cps[k] else cps[0];
        var from := ToCardAbsoluteUnits(card, cp);
        ui == old(ui).(linkDraft := Some(LinkDraft(card.id, cp.id, from, from)), linkGesture := Some(LinkGesture(card.id, cp.id)),
                       mode := CreateLink)
    {
      if ui.mode != Idle {
        return;
      }
      var cps := ConnectionPoints(card);
      var k := FirstIndex(cps, (c: ConnectionPoint) => c.id == cpId);
      var cp := if k >= 0 then cps[k] else cps[0];
      var from := ToCardAbsoluteUnits(card, cp);
      ui := ui.(linkDraft := Some(LinkDraft(card.id, cp.id, from, from)), linkGesture := Some(LinkGesture(card.id, cp.id)),
                mode := CreateLink);
    }

    /** The link gesture's move listener: the draft follows the pointer; another card under it is the hover target. */
    method OnLinkGestureMove(x: real, y: real)
      modifies this
      ensures old(ui.linkGesture).None? ==> ui == old(ui)
      ensures old(ui.linkGesture).Some? ==>
        && (old(ui.linkDraft).Some? ==> ui.linkDraft == Some(old(ui.linkDraft).value.(to := Pt(x, y))))
        && (old(ui.linkDraft).None? ==> ui.linkDraft.None?)
      ensures old(ui.linkGesture).Some? ==>
        ui == old(ui).(linkDraft := ui.linkDraft, hoverTargetCardId := ui.hoverTargetCardId, hoverTargetCpId := ui.hoverTargetCpId)
      ensures old(ui.linkGesture).Some? ==>
        var cards := board.state.cards;
        var k := TopCardIndex(cards, x, y);
        if k >= 0 && cards[k].id != old(ui.linkGesture).value.cardId
        then ui.hoverTargetCardId == Some(cards[k].id) && ui.hoverTargetCpId == Some(NearestConnectionPoint(cards[k], x, y).id)
        else ui.hoverTargetCardId.None? && ui.hoverTargetCpId.None?
    {
      if ui.linkGesture.None? {
        return;
      }
      var s := board.GetSnapshot();
      if ui.linkDraft.Some? {
        ui := ui.(linkDraft := Some(ui.linkDraft.value.(to := Pt(x, y))));
      }
      var target := GetCardAtPoint(s, x, y);
      var hoverCard: Option<string> := None;
      var hoverCp: Option<string> := None;
      if target.Some? && target.value.id != ui.linkGesture.value.cardId {
        hoverCard, hoverCp := Some(target.value.id), Some(NearestConnectionPoint(target.value, x, y).id);
      }
      ui := ui.(hoverTargetCardId := hoverCard, hoverTargetCpId := hoverCp);
    }

    /**
     * The link gesture's release listener: released over another card, a
     * link is added to that card's nearest point (under `newLinkId`); the
     * gesture ends either way. Escape does not remove these listeners.
     */
    method OnLinkGestureUp(x: real, y: real, newLinkId: string)
      modifies this, board
      ensures old(ui.linkGesture).None? ==> ui == old(ui) && board.state == old(board.state)
      ensures old(ui.linkGesture).Some? ==>
        && ui == old(ui).(linkGesture := None, linkDraft := None, hoverTargetCardId := None, hoverTargetCpId := None, mode := Idle)
        && var g := old(ui.linkGesture).value;
           var cards := old(board.state).cards;
           var k := TopCardIndex(cards, x, y);
           board.state == if k >= 0 && cards[k].id != g.cardId
             then AddLinkStep(old(board.state), newLinkId, g.cardId, g.pointId, cards[k].id,
                              NearestConnectionPoint(cards[k], x, y).id, NO_LINK_OPTS).0
             else old(board.state)
    {
      if ui.linkGesture.None? {
        return;
      }
      var g := ui.linkGesture.value;
      ui := ui.(linkGesture := None);
      var s := board.GetSnapshot();
      var target := GetCardAtPoint(s, x, y);
      if target.Some? && target.value.id != g.cardId {
        var cp2 := NearestConnectionPoint(target.value, x, y);
        var _ := board.AddLink(newLinkId, g.cardId, g.pointId, target.value.id, cp2.id, NO_LINK_OPTS);
      }
      ui := ui.(linkDraft := None, hoverTargetCardId := None, hoverTargetCpId := None, mode := Idle);
    }

    /** `onLinkPointerDown`: Ctrl toggles the link, otherwise an unselected link becomes the selection. */
    method OnLinkPointerDown(ctrlKey: bool, linkId: string)
      modifies board
      ensures ctrlKey ==> board.state == ToggleLinkSelectionStep(old(board.state), linkId)
      ensures !ctrlKey && linkId in old(board.state).selectedLinkIds ==> board.state == old(board.state)
      ensures !ctrlKey && linkId !in old(board.state).selectedLinkIds ==> board.state == SetLinkSelectionStep(old(board.state), [linkId])
    {
      var s := board.GetSnapshot();
      if ctrlKey {
        board.ToggleLinkSelection(linkId);
      } else if linkId !in s.selectedLinkIds {
        board.SetLinkSelection([linkId]);
      }
    }

    /**
     * `onEndpointHandleDown(ln, end)`: drops any link draft; outside a
     * gesture, and with both of the link's cards on the board, starts
     * dragging that end (`start` is where the end is drawn).
     */
    method OnEndpointHandleDown(ln: LinkModel, toSource: bool, start: Pt)
      modifies this
      ensures old(ui.mode) != Idle ==> ui == old(ui).(linkDraft := None)
      ensures old(ui.mode) == Idle && (ln.sourceCardId !in CardIds(board.state.cards) || ln.targetCardId !in CardIds(board.state.cards)) ==>
        ui == old(ui).(linkDraft := None)
      ensures old(ui.mode) == Idle && ln.sourceCardId in CardIds(board.state.cards) && ln.targetCardId in CardIds(board.state.cards) ==>
        ui == old(ui).(linkDraft := None, endpointDrag := Some(EndpointDrag(ln.id, toSource, start, None, None)),
                       endpointListening := true, mode := ReconnectEndpoint)
    {
      ui := ui.(linkDraft := None);
      if ui.mode != Idle {
        return;
      }
      var src := board.GetCardById(ln.sourceCardId);
      var tgt := board.GetCardById(ln.targetCardId);
      if src.None? || tgt.None? {
        return;
      }
      ui := ui.(endpointDrag := Some(EndpointDrag(ln.id, toSource, start, None, None)), mode := ReconnectEndpoint, endpointListening := true);
    }

    /** The endpoint drag's move listener: the end follows the pointer and the card and point under it are remembered. */
    method OnEndpointMove(x: real, y: real)
      modifies this
      ensures !old(ui.endpointListening) || old(ui.endpointDrag).None? ==> ui == old(ui)
      ensures old(ui.endpointListening) && old(ui.endpointDrag).Some? ==>
        && ui.endpointDrag.Some? && ui.endpointDrag.value.linkId == old(ui.endpointDrag).value.linkId && ui.endpointDrag.value.to == Pt(x, y)
        && ui.endpointDrag.value.hoverCardId == ui.hoverTargetCardId && ui.endpointDrag.value.hoverCpId == ui.hoverTargetCpId
        && (ui.hoverTargetCardId.None? <==> ui.hoverTargetCpId.None?)
        && var cards := board.state.cards;
           var k := TopCardIndex(cards, x, y);
           if k >= 0
           then ui.hoverTargetCardId == Some(cards[k].id) && ui.hoverTargetCpId == Some(NearestConnectionPoint(cards[k], x, y).id)
           else ui.hoverTargetCardId.None? && ui.hoverTargetCpId.None?
      ensures old(ui.endpointListening) && old(ui.endpointDrag).Some? ==>
        ui == old(ui).(endpointDrag := ui.endpointDrag, hoverTargetCardId := ui.hoverTargetCardId, hoverTargetCpId := ui.hoverTargetCpId)
    {
      if !ui.endpointListening || ui.endpointDrag.None? {
        return;
      }
      var s := board.GetSnapshot();
      var card, cp := HoverTarget(s, x, y);
      ui := ui.(endpointDrag := Some(ui.endpointDrag.value.(to := Pt(x, y), hoverCardId := card, hoverCpId := cp)),
                hoverTargetCardId := card, hoverTargetCpId := cp);
    }

    /** The endpoint drag's release listener: released over a card's point, the link's end is reconnected there. */
    method OnEndpointUp()
      modifies this, board
      ensures !old(ui.endpointListening) ==> ui == old(ui) && board.state == old(board.state)
      ensures old(ui.endpointListening) && old(ui.endpointDrag).None? ==>
        ui == old(ui).(endpointListening := false) && board.state == old(board.state)
      ensures old(ui.endpointListening) && old(ui.endpointDrag).Some? ==>
        && ui == old(ui).(endpointListening := false, endpointDrag := None, hoverTargetCardId := None, hoverTargetCpId := None, mode := Idle)
        && var d := old(ui.endpointDrag).value;
           board.state == if d.hoverCardId.Some? && d.hoverCpId.Some?
             then CommitReconnectStep(old(board.state), d.linkId, d.toSource, d.hoverCardId.value, d.hoverCpId.value)
             else old(board.state)
    {
      if !ui.endpointListening {
        return;
      }
      var drag := ui.endpointDrag;
      ui := ui.(endpointListening := false, endpointDrag := None);
      if drag.None? {
        return;
      }
      var d := drag.value;
      if d.hoverCardId.Some? && d.hoverCpId.Some? {
        board.CommitReconnect(d.linkId, d.toSource, d.hoverCardId.value, d.hoverCpId.value);
      }
      ui := ui.(hoverTargetCardId := None, hoverTargetCpId := None, mode := Idle);
    }
  }
}
