/**
 * `BoardStateService` (src/app/features/tools/board/services/board-state.service.ts):
 * the board's copy-on-write store. Every operation builds the next
 * `BoardState` from the current one and publishes it; each is a function
 * from state to state here, and the `BoardStateService` class holds the
 * published state.
 *
 * `newId`/`newLinkId` draw on `crypto.randomUUID` or the clock and a random
 * number: the id is a parameter.
 */
module BoardStore {
  import opened Wrappers
  import opened Collections
  import opened BoardModels

  /** `Partial<CardModel>` as `updateCard` receives it: the fields it sets. */
  datatype CardPatch = CardPatch(
    x: Option<real>, y: Option<real>, width: Option<real>, height: Option<real>,
    title: Option<string>, body: Option<string>, color: Option<string>, shape: Option<CardShape>,
    titleStyle: Option<CardTitleStyle>, rectStyle: Option<CardRectStyle>)

  const NO_CARD_PATCH: CardPatch := CardPatch(None, None, None, None, None, None, None, None, None, None)

  /** `Partial<LinkModel>` as `updateLink` receives it; `Some(None)` sets the label to `undefined`. */
  datatype LinkPatch = LinkPatch(style: Option<LinkStyle>, linkLabel: Option<Option<LinkLabel>>)

  /** The `opts` of `addCardAt`. */
  datatype CardOpts = CardOpts(
    width: Option<real>, height: Option<real>, title: Option<string>, body: Option<string>, color: Option<string>, shape: Option<CardShape>)

  const NO_CARD_OPTS: CardOpts := CardOpts(None, None, None, None, None, None)

  /** The `opts` of `addLink`. */
  datatype LinkOpts = LinkOpts(
    color: Option<string>, width: Option<real>, dash: Option<LinkDashStyle>,
    arrowHead: Option<LinkArrowStyle>, arrowTail: Option<LinkArrowStyle>, labelText: Option<string>)

  const NO_LINK_OPTS: LinkOpts := LinkOpts(None, None, None, None, None, None)

  /** Selections hold each id once. */
  predicate ValidBoard(s: BoardState) {
    NoDup(s.selectedCardIds) && NoDup(s.selectedLinkIds)
  }

  /** No link joins a card to itself. */
  predicate NoSelfLinks(s: BoardState) {
    forall l :: l in s.links ==> l.sourceCardId != l.targetCardId
  }

  function CardIds(cards: seq<CardModel>): set<string> {
    set c | c in cards :: c.id
  }

  /** Replacing a card by one with the same id keeps the set of ids. */
  lemma SameIdKeepsIds(cards: seq<CardModel>, i: nat, c: CardModel)
    requires i < |cards| && c.id == cards[i].id
    ensures CardIds(cards[i := c]) == CardIds(cards)
  {
    var r := cards[i := c];
    forall x | x in CardIds(cards)
      ensures x in CardIds(r)
    {
      var d :| d in cards && d.id == x;
      var j :| 0 <= j < |cards| && cards[j] == d;
      assert r[j].id == x;
    }
    forall x | x in CardIds(r)
      ensures x in CardIds(cards)
    {
      var d :| d in r && d.id == x;
      var j :| 0 <= j < |r| && r[j] == d;
      assert cards[j].id == x;
    }
  }

  /** `{...c, ...patch}`. */
  function PatchedCard(c: CardModel, p: CardPatch): (r: CardModel)
    ensures r.id == c.id && r.boardId == c.boardId && r.connectionPoints == c.connectionPoints
    ensures p == NO_CARD_PATCH ==> r == c
  {
    c.(x := p.x.GetOr(c.x), y := p.y.GetOr(c.y), width := p.width.GetOr(c.width), height := p.height.GetOr(c.height),
       title := p.title.GetOr(c.title), body := p.body.GetOr(c.body), color := p.color.GetOr(c.color),
       shape := p.shape.GetOr(c.shape),
       titleStyle := if p.titleStyle.Some? then p.titleStyle else c.titleStyle,
       rectStyle := if p.rectStyle.Some? then p.rectStyle else c.rectStyle)
  }

  /** `{...l, ...patch}`. */
  function PatchedLink(l: LinkModel, p: LinkPatch): (r: LinkModel)
    ensures r.id == l.id && r.sourceCardId == l.sourceCardId && r.targetCardId == l.targetCardId
    ensures p.style.Some? ==> r.style == p.style.value
    ensures p.style.None? ==> r.style == l.style
    ensures p.linkLabel.Some? ==> r.linkLabel == p.linkLabel.value
    ensures p.linkLabel.None? ==> r.linkLabel == l.linkLabel
  {
    l.(style := p.style.GetOr(l.style), linkLabel := p.linkLabel.GetOr(l.linkLabel))
  }

  /** `cards.find(c => c.id === id)`. */
  function CardById(s: BoardState, id: string): (r: Option<CardModel>)
    ensures r.Some? ==> r.value in s.cards && r.value.id == id
    ensures r.None? <==> id !in CardIds(s.cards)
  {
    var i := FirstIndex(s.cards, (c: CardModel) => c.id == id);
    if i < 0 then
      assert forall c :: c in s.cards ==> c.id != id;
      None
    else Some(s.cards[i])
  }

  /** `addCardAt(x, y, opts)` with the new card's id: one card at exactly `(x, y)`, now the only selected card. */
  function AddCardAtStep(s: BoardState, id: string, x: real, y: real, opts: CardOpts): (r: BoardState)
    ensures |r.cards| == |s.cards| + 1 && r.cards[..|s.cards|] == s.cards
    ensures var c := r.cards[|s.cards|];
      && c.id == id && c.boardId == s.boardId && c.x == x && c.y == y
      && c.width == opts.width.GetOr(MIN_CARD_SIZE_UNITS) && c.height == opts.height.GetOr(MIN_CARD_SIZE_UNITS)
      && c.title == opts.title.GetOr("New card") && c.body == opts.body.GetOr("") && c.color == opts.color.GetOr("#ffffff")
      && c.shape == opts.shape.GetOr(Rect)
      && c.connectionPoints.None? && c.titleStyle.None? && c.rectStyle.None?
    ensures r.selectedCardIds == [id]
    ensures r.selectedLinkIds == s.selectedLinkIds && r.links == s.links && r.viewport == s.viewport
  {
    var c := CardModel(id, s.boardId, x, y, opts.width.GetOr(MIN_CARD_SIZE_UNITS), opts.height.GetOr(MIN_CARD_SIZE_UNITS),
                       opts.title.GetOr("New card"), opts.body.GetOr(""), opts.color.GetOr("#ffffff"), opts.shape.GetOr(Rect),
                       None, None, None);
    s.(cards := s.cards + [c], selectedCardIds := [id])
  }

  /** With a fresh id, looking the new card up finds it, at the requested place and with the default size. */
  lemma {:induction false} AddedCardIsFound(s: BoardState, id: string, x: real, y: real)
    requires id !in CardIds(s.cards)
    ensures var r := AddCardAtStep(s, id, x, y, NO_CARD_OPTS);
      var c := CardById(r, id);
      c.Some? && c.value.x == x && c.value.y == y
      && c.value.width == MIN_CARD_SIZE_UNITS && c.value.height == MIN_CARD_SIZE_UNITS
  {
    var r := AddCardAtStep(s, id, x, y, NO_CARD_OPTS);
    var i := FirstIndex(r.cards, (c: CardModel) => c.id == id);
    assert forall j :: 0 <= j < |s.cards| ==> r.cards[j] == s.cards[j];
    assert i == |s.cards|;
  }

  /** `i` is where `findIndex(c => c.id === id)` stops: the first card with that id. */
  predicate FirstCardAt(cards: seq<CardModel>, id: string, i: int) {
    0 <= i < |cards| && cards[i].id == id && forall j :: 0 <= j < i ==> cards[j].id != id
  }

  /** A card with the id exists exactly when a first one does, and that first one is unique. */
  lemma FirstCardIndex(cards: seq<CardModel>, id: string)
    ensures FirstIndex(cards, (c: CardModel) => c.id == id) >= 0 <==> id in CardIds(cards)
    ensures forall i :: FirstCardAt(cards, id, i) <==> i == FirstIndex(cards, (c: CardModel) => c.id == id) && i >= 0
  {
    var k := FirstIndex(cards, (c: CardModel) => c.id == id);
    if id in CardIds(cards) {
      var c :| c in cards && c.id == id;
      var j :| 0 <= j < |cards| && cards[j] == c;
      assert k >= 0;
    }
  }

  /** `updateCard(id, patch)`: the first card with that id is patched; without one nothing changes. */
  function UpdateCardStep(s: BoardState, id: string, p: CardPatch): (r: BoardState)
    ensures |r.cards| == |s.cards|
    ensures r.selectedCardIds == s.selectedCardIds && r.selectedLinkIds == s.selectedLinkIds
    ensures r.links == s.links && r.viewport == s.viewport
    ensures id !in CardIds(s.cards) ==> r == s
    ensures forall i :: FirstCardAt(s.cards, id, i) ==> r.cards == s.cards[i := PatchedCard(s.cards[i], p)]
    ensures CardIds(r.cards) == CardIds(s.cards)
  {
    FirstCardIndex(s.cards, id);
    var i := FirstIndex(s.cards, (c: CardModel) => c.id == id);
    if i < 0 then
      s
    else
      SameIdKeepsIds(s.cards, i, PatchedCard(s.cards[i], p));
      s.(cards := s.cards[i := PatchedCard(s.cards[i], p)])
  }

  /**
   * `resizeCard(id, x, y, w, h)`: the first card with that id moves to `(x, y)`
   * and takes the size, each side raised to at least `MIN_CARD_SIZE_UNITS`;
   * the rest of it and of the board stays.
   */
  function ResizeCardStep(s: BoardState, id: string, x: real, y: real, width: real, height: real): (r: BoardState)
    ensures r == s.(cards := r.cards) && |r.cards| == |s.cards|
    ensures id !in CardIds(s.cards) ==> r == s
    ensures forall i :: FirstCardAt(s.cards, id, i) ==>
      r.cards == s.cards[i := s.cards[i].(x := x, y := y, width := Max(width, MIN_CARD_SIZE_UNITS), height := Max(height, MIN_CARD_SIZE_UNITS))]
  {
    UpdateCardStep(s, id, NO_CARD_PATCH.(x := Some(x), y := Some(y), width := Some(Max(width, MIN_CARD_SIZE_UNITS)),
                                      height := Some(Max(height, MIN_CARD_SIZE_UNITS))))
  }

  /** After a resize every card keeps at least the minimum size, if it had it before. */
  lemma ResizeKeepsMinimum(s: BoardState, id: string, x: real, y: real, width: real, height: real)
    requires forall c :: c in s.cards ==> c.width >= MIN_CARD_SIZE_UNITS && c.height >= MIN_CARD_SIZE_UNITS
    ensures forall c :: c in ResizeCardStep(s, id, x, y, width, height).cards ==>
      c.width >= MIN_CARD_SIZE_UNITS && c.height >= MIN_CARD_SIZE_UNITS
  {
    var r := ResizeCardStep(s, id, x, y, width, height);
    forall c | c in r.cards
      ensures c.width >= MIN_CARD_SIZE_UNITS && c.height >= MIN_CARD_SIZE_UNITS
    {
      var j :| 0 <= j < |r.cards| && r.cards[j] == c;
      assert s.cards[j] in s.cards;
    }
  }

  /** The cards after `moveSelected(dx, dy)`'s `map`: exactly the selected ones shift. */
  function MoveCards(cards: seq<CardModel>, selected: seq<string>, dx: real, dy: real): (r: seq<CardModel>)
    ensures |r| == |cards|
    ensures forall i :: 0 <= i < |cards| ==>
      r[i] == if cards[i].id in selected then cards[i].(x := cards[i].x + dx, y := cards[i].y + dy) else cards[i]
  {
    if cards == [] then []
    else
      var c := cards[0];
      [if c.id in selected then c.(x := c.x + dx, y := c.y + dy) else c] + MoveCards(cards[1..], selected, dx, dy)
  }

  /** `moveSelected(dx, dy)`: a zero move publishes nothing. */
  function MoveSelectedStep(s: BoardState, dx: real, dy: real): (r: BoardState)
    ensures dx == 0.0 && dy == 0.0 ==> r == s
    ensures r == s.(cards := r.cards)
    ensures |r.cards| == |s.cards|
    ensures forall i :: 0 <= i < |s.cards| && s.cards[i].id !in s.selectedCardIds ==> r.cards[i] == s.cards[i]
    ensures forall i :: 0 <= i < |s.cards| && s.cards[i].id in s.selectedCardIds ==>
      r.cards[i] == s.cards[i].(x := s.cards[i].x + dx, y := s.cards[i].y + dy)
  {
    if dx == 0.0 && dy == 0.0 then s
    else s.(cards := MoveCards(s.cards, s.selectedCardIds, dx, dy))
  }

  /** Moving by `(dx, dy)` and back by `(-dx, -dy)` restores the board. */
  lemma {:induction false} MoveAndBack(s: BoardState, dx: real, dy: real)
    ensures MoveSelectedStep(MoveSelectedStep(s, dx, dy), -dx, -dy) == s
  {
    var r := MoveSelectedStep(MoveSelectedStep(s, dx, dy), -dx, -dy);
    assert |r.cards| == |s.cards|;
    forall i | 0 <= i < |s.cards|
      ensures r.cards[i] == s.cards[i]
    {
    }
    assert r.cards == s.cards;
  }

  /** The cards a removal keeps: those not selected. */
  function Unselected(ids: seq<string>): CardModel -> bool {
    (c: CardModel) => c.id !in ids
  }

  /** The links a removal keeps: those not selected and touching no removed card. */
  function SurvivingLink(linkIds: seq<string>, deleted: set<string>): LinkModel -> bool {
    (l: LinkModel) => l.id !in linkIds && l.sourceCardId !in deleted && l.targetCardId !in deleted
  }

  /** `removeSelected()`: the kept cards and links in their order, both selections cleared. */
  function RemoveSelectedStep(s: BoardState): (r: BoardState)
    ensures r.cards == Filter(s.cards, Unselected(s.selectedCardIds))
    ensures var deleted := set c | c in s.cards && c.id in s.selectedCardIds :: c.id;
      r.links == Filter(s.links, SurvivingLink(s.selectedLinkIds, deleted))
    ensures forall c :: c in r.cards <==> c in s.cards && c.id !in s.selectedCardIds
    ensures var deleted := set c | c in s.cards && c.id in s.selectedCardIds :: c.id;
      forall l :: l in r.links <==>
        l in s.links && l.id !in s.selectedLinkIds && l.sourceCardId !in deleted && l.targetCardId !in deleted
    ensures r.selectedCardIds == [] && r.selectedLinkIds == []
    ensures r.viewport == s.viewport && r.boardId == s.boardId
  {
    var deleted := set c | c in s.cards && c.id in s.selectedCardIds :: c.id;
    var cards := Filter(s.cards, Unselected(s.selectedCardIds));
    var notSelected := (l: LinkModel) => l.id !in s.selectedLinkIds;
    var links := Filter(s.links, notSelected);
    var detached := (l: LinkModel) => l.sourceCardId !in deleted && l.targetCardId !in deleted;
    var links' := if |deleted| > 0 then Filter(links, detached) else links;
    FilterFilter(s.links, notSelected, detached, SurvivingLink(s.selectedLinkIds, deleted));
    if |deleted| == 0 then FilterAll(links, detached); s.(cards := cards, links := links', selectedCardIds := [], selectedLinkIds := [])
    else s.(cards := cards, links := links', selectedCardIds := [], selectedLinkIds := [])
  }

  /** After a removal no link is left dangling from a removed card, provided none was dangling before. */
  lemma RemoveSelectedLeavesNoDanglingLinks(s: BoardState)
    requires forall l :: l in s.links ==> l.sourceCardId in CardIds(s.cards) && l.targetCardId in CardIds(s.cards)
    ensures var r := RemoveSelectedStep(s);
      forall l :: l in r.links ==> l.sourceCardId in CardIds(r.cards) && l.targetCardId in CardIds(r.cards)
  {
    var r := RemoveSelectedStep(s);
    forall l | l in r.links
      ensures l.sourceCardId in CardIds(r.cards) && l.targetCardId in CardIds(r.cards)
    {
      var a :| a in s.cards && a.id == l.sourceCardId;
      var b :| b in s.cards && b.id == l.targetCardId;
      assert a in r.cards;
      assert b in r.cards;
    }
  }

  /** `setSelection(ids)`: the ids once each; links unselected. */
  function SetSelectionStep(s: BoardState, ids: seq<string>): (r: BoardState)
    ensures NoDup(r.selectedCardIds) && (forall x :: x in r.selectedCardIds <==> x in ids)
    ensures r.selectedLinkIds == []
    ensures r == s.(selectedCardIds := r.selectedCardIds, selectedLinkIds := [])
  {
    s.(selectedCardIds := Dedup(ids), selectedLinkIds := [])
  }

  /** `clearSelection()`. */
  function ClearSelectionStep(s: BoardState): (r: BoardState)
    ensures r.selectedCardIds == [] && r.selectedLinkIds == [] && r.cards == s.cards && r.links == s.links
  {
    s.(selectedCardIds := [], selectedLinkIds := [])
  }

  /** `toggleSelection(id)`: flips the card's membership; links unselected. */
  function ToggleSelectionStep(s: BoardState, id: string): (r: BoardState)
    ensures NoDup(r.selectedCardIds)
    ensures id in r.selectedCardIds <==> id !in s.selectedCardIds
    ensures forall x :: x != id ==> (x in r.selectedCardIds <==> x in s.selectedCardIds)
    ensures r == s.(selectedCardIds := r.selectedCardIds, selectedLinkIds := [])
  {
    s.(selectedCardIds := Toggle(s.selectedCardIds, id), selectedLinkIds := [])
  }

  /** `setLinkSelection(ids)`: the ids once each; cards unselected. */
  function SetLinkSelectionStep(s: BoardState, ids: seq<string>): (r: BoardState)
    ensures NoDup(r.selectedLinkIds) && (forall x :: x in r.selectedLinkIds <==> x in ids)
    ensures r.selectedCardIds == []
    ensures r == s.(selectedLinkIds := r.selectedLinkIds, selectedCardIds := [])
  {
    s.(selectedLinkIds := Dedup(ids), selectedCardIds := [])
  }

  /** `toggleLinkSelection(id)`: flips the link's membership; cards unselected. */
  function ToggleLinkSelectionStep(s: BoardState, id: string): (r: BoardState)
    ensures NoDup(r.selectedLinkIds)
    ensures id in r.selectedLinkIds <==> id !in s.selectedLinkIds
    ensures forall x :: x != id ==> (x in r.selectedLinkIds <==> x in s.selectedLinkIds)
    ensures r == s.(selectedLinkIds := r.selectedLinkIds, selectedCardIds := [])
  {
    s.(selectedLinkIds := Toggle(s.selectedLinkIds, id), selectedCardIds := [])
  }

  /** `setZoom(z)`. */
  function SetZoomStep(s: BoardState, z: real): (r: BoardState)
    ensures MIN_ZOOM <= r.viewport.zoom <= MAX_ZOOM
    ensures MIN_ZOOM <= z <= MAX_ZOOM ==> r.viewport.zoom == z
    ensures r == s.(viewport := s.viewport.(zoom := r.viewport.zoom))
  {
    s.(viewport := s.viewport.(zoom := ClampZoom(z)))
  }

  /** `setPan(x, y)`. */
  function SetPanStep(s: BoardState, offsetX: real, offsetY: real): (r: BoardState)
    ensures r.viewport == ViewportState(s.viewport.zoom, offsetX, offsetY)
    ensures r == s.(viewport := r.viewport)
  {
    s.(viewport := s.viewport.(offsetX := offsetX, offsetY := offsetY))
  }

  /** `panBy(dx, dy)`. */
  function PanByStep(s: BoardState, dx: real, dy: real): (r: BoardState)
    ensures r.viewport.offsetX - s.viewport.offsetX == dx && r.viewport.offsetY - s.viewport.offsetY == dy
    ensures r == s.(viewport := r.viewport.(zoom := s.viewport.zoom))
  {
    s.(viewport := s.viewport.(offsetX := s.viewport.offsetX + dx, offsetY := s.viewport.offsetY + dy))
  }

  /** Two pans add up. */
  lemma PanByAdds(s: BoardState, dx1: real, dy1: real, dx2: real, dy2: real)
    ensures PanByStep(PanByStep(s, dx1, dy1), dx2, dy2) == PanByStep(s, dx1 + dx2, dy1 + dy2)
  {
  }

  /** The style `addLink` gives: each option, else its default. */
  function DefaultedLinkStyle(opts: LinkOpts): (st: LinkStyle)
    ensures opts == NO_LINK_OPTS ==> st == LinkStyle("#546e7a", 0.5, Some(Solid), Some(Filled), Some(NoArrow))
  {
    LinkStyle(opts.color.GetOr("#546e7a"), opts.width.GetOr(0.5), Some(opts.dash.GetOr(Solid)),
              Some(opts.arrowHead.GetOr(Filled)), Some(opts.arrowTail.GetOr(NoArrow)))
  }

  /**
   * `addLink(src, srcPoint, tgt, tgtPoint, opts)` with the new link's id:
   * refused (no id, nothing changes) when either card is missing or both are
   * the same card; otherwise one dynamic-anchored link is appended.
   */
  function AddLinkStep(s: BoardState, linkId: string, sourceCardId: string, sourcePointId: string,
                   targetCardId: string, targetPointId: string, opts: LinkOpts): (p: (BoardState, Option<string>))
    ensures p.1.None? <==> sourceCardId !in CardIds(s.cards) || targetCardId !in CardIds(s.cards) || sourceCardId == targetCardId
    ensures p.1.None? ==> p.0 == s
    ensures p.1.Some? ==> p.1.value == linkId && p.0 == s.(links := s.links + [LinkModel(linkId, s.boardId, sourceCardId, sourcePointId,
      targetCardId, targetPointId, DefaultedLinkStyle(opts),
      if opts.labelText.Some? then Some(LinkLabel(opts.labelText.value, Some(0.5))) else None,
      Some(Dynamic), Some(Dynamic))])
  {
    var src := CardById(s, sourceCardId);
    var tgt := CardById(s, targetCardId);
    if src.None? || tgt.None? then (s, None)
    else if sourceCardId == targetCardId then (s, None)
    else
      var lbl := if opts.labelText.Some? then Some(LinkLabel(opts.labelText.value, Some(0.5))) else None;
      var link := LinkModel(linkId, s.boardId, sourceCardId, sourcePointId, targetCardId, targetPointId,
                            DefaultedLinkStyle(opts), lbl, Some(Dynamic), Some(Dynamic));
      (s.(links := s.links + [link]), Some(linkId))
  }

  /** `i` is where `findIndex(l => l.id === id)` stops: the first link with that id. */
  predicate FirstLinkAt(links: seq<LinkModel>, id: string, i: int) {
    0 <= i < |links| && links[i].id == id && forall j :: 0 <= j < i ==> links[j].id != id
  }

  /** `updateLink(id, patch)`: the first link with that id is patched; without one nothing changes. */
  function UpdateLinkStep(s: BoardState, id: string, p: LinkPatch): (r: BoardState)
    ensures |r.links| == |s.links| && r.cards == s.cards
    ensures r == s.(links := r.links)
    ensures (forall l :: l in s.links ==> l.id != id) ==> r == s
    ensures forall i :: FirstLinkAt(s.links, id, i) ==> r.links == s.links[i := PatchedLink(s.links[i], p)]
  {
    var i := FirstIndex(s.links, (l: LinkModel) => l.id == id);
    if i < 0 then s
    else
      assert s.links[i] in s.links;
      s.(links := s.links[i := PatchedLink(s.links[i], p)])
  }

  /** The links other than the one with the id. */
  function OtherLink(id: string): LinkModel -> bool {
    (l: LinkModel) => l.id != id
  }

  /** `removeLink(id)`: every link with that id goes, the others stay in order. */
  function RemoveLinkStep(s: BoardState, id: string): (r: BoardState)
    ensures r.links == Filter(s.links, OtherLink(id))
    ensures forall l :: l in r.links <==> l in s.links && l.id != id
    ensures r == s.(links := r.links)
  {
    s.(links := Filter(s.links, OtherLink(id)))
  }

  /** Adding a link under a fresh id and removing it again restores the board. */
  lemma {:induction false} AddLinkThenRemove(s: BoardState, linkId: string, sourceCardId: string, sourcePointId: string,
                                             targetCardId: string, targetPointId: string, opts: LinkOpts)
    requires forall l :: l in s.links ==> l.id != linkId
    ensures RemoveLinkStep(AddLinkStep(s, linkId, sourceCardId, sourcePointId, targetCardId, targetPointId, opts).0, linkId) == s
  {
    var p := AddLinkStep(s, linkId, sourceCardId, sourcePointId, targetCardId, targetPointId, opts);
    var keep := OtherLink(linkId);
    FilterAll(s.links, keep);
    if p.1.Some? {
      var link := p.0.links[|s.links|];
      assert p.0.links == s.links + [link];
      FilterAppend(s.links, [link], keep);
      assert Filter([link], keep) == [];
    }
  }

  /**
   * `commitReconnect(linkId, end, cardId, pointId)`: the chosen end moves to
   * that card and point with a fixed anchor, unless that would join the
   * link's two ends on one card. Whether the card exists is not checked.
   */
  function CommitReconnectStep(s: BoardState, linkId: string, toSource: bool, cardId: string, pointId: string): (r: BoardState)
    ensures r == s.(links := r.links) && |r.links| == |s.links|
    ensures var i := FirstIndex(s.links, (l: LinkModel) => l.id == linkId);
      && (forall j :: 0 <= j < |s.links| && j != i ==> r.links[j] == s.links[j])
      && (i >= 0 && toSource && cardId != s.links[i].targetCardId ==>
            r.links[i] == s.links[i].(sourceCardId := cardId, sourcePointId := pointId, sourceAnchor := Some(FixedAnchor)))
      && (i >= 0 && !toSource && cardId != s.links[i].sourceCardId ==>
            r.links[i] == s.links[i].(targetCardId := cardId, targetPointId := pointId, targetAnchor := Some(FixedAnchor)))
      && (i < 0 || (toSource && cardId == s.links[i].targetCardId) || (!toSource && cardId == s.links[i].sourceCardId) ==> r == s)
  {
    var i := FirstIndex(s.links, (l: LinkModel) => l.id == linkId);
    if i < 0 then s
    else
      var ln := s.links[i];
      if toSource then
        if cardId == ln.targetCardId then s
        else s.(links := s.links[i := ln.(sourceCardId := cardId, sourcePointId := pointId, sourceAnchor := Some(FixedAnchor))])
      else
        if cardId == ln.sourceCardId then s
        else s.(links := s.links[i := ln.(targetCardId := cardId, targetPointId := pointId, targetAnchor := Some(FixedAnchor))])
  }

  /** Adding, reconnecting and removing links never creates a self-link. */
  lemma {:induction false} LinkOpsKeepNoSelfLinks(s: BoardState, linkId: string, a: string, ap: string, b: string, bp: string,
                                                  opts: LinkOpts, toSource: bool)
    requires NoSelfLinks(s)
    ensures NoSelfLinks(AddLinkStep(s, linkId, a, ap, b, bp, opts).0)
    ensures NoSelfLinks(CommitReconnectStep(s, linkId, toSource, a, ap))
    ensures NoSelfLinks(RemoveLinkStep(s, linkId))
    ensures NoSelfLinks(RemoveSelectedStep(s))
  {
    var r := CommitReconnectStep(s, linkId, toSource, a, ap);
    forall l | l in r.links
      ensures l.sourceCardId != l.targetCardId
    {
      var j :| 0 <= j < |r.links| && r.links[j] == l;
      assert s.links[j] in s.links;
    }
  }

  /** The link a reconnection commits may point at a card that is not on the board. */
  lemma ReconnectToMissingCard(s: BoardState, i: nat, cardId: string, pointId: string)
    requires i < |s.links| && forall j :: 0 <= j < i ==> s.links[j].id != s.links[i].id
    requires cardId != s.links[i].targetCardId && cardId !in CardIds(s.cards)
    ensures var r := CommitReconnectStep(s, s.links[i].id, true, cardId, pointId);
      r.links[i].sourceCardId == cardId && cardId !in CardIds(r.cards)
  {
  }

  /** Every operation keeps each selection free of duplicates. */
  lemma {:induction false} OperationsKeepValid(s: BoardState, id: string, ids: seq<string>, x: real, y: real, opts: CardOpts)
    requires ValidBoard(s)
    ensures ValidBoard(AddCardAtStep(s, id, x, y, opts))
    ensures ValidBoard(SetSelectionStep(s, ids)) && ValidBoard(SetLinkSelectionStep(s, ids))
    ensures ValidBoard(ToggleSelectionStep(s, id)) && ValidBoard(ToggleLinkSelectionStep(s, id))
    ensures ValidBoard(RemoveSelectedStep(s)) && ValidBoard(ClearSelectionStep(s))
    ensures ValidBoard(MoveSelectedStep(s, x, y)) && ValidBoard(UpdateCardStep(s, id, NO_CARD_PATCH))
  {
  }

  /** Every zoom the store publishes lies in `[MIN_ZOOM, MAX_ZOOM]`, so a pixels-per-unit scale is never zero. */
  lemma ZoomStaysInRange(s: BoardState, id: string, ids: seq<string>, x: real, y: real, opts: CardOpts, p: CardPatch)
    requires MIN_ZOOM <= s.viewport.zoom <= MAX_ZOOM
    ensures MIN_ZOOM <= SetZoomStep(s, x).viewport.zoom <= MAX_ZOOM
    ensures SetPanStep(s, x, y).viewport.zoom == s.viewport.zoom && PanByStep(s, x, y).viewport.zoom == s.viewport.zoom
    ensures AddCardAtStep(s, id, x, y, opts).viewport == s.viewport && UpdateCardStep(s, id, p).viewport == s.viewport
    ensures MoveSelectedStep(s, x, y).viewport == s.viewport && RemoveSelectedStep(s).viewport == s.viewport
    ensures SetSelectionStep(s, ids).viewport == s.viewport && ToggleSelectionStep(s, id).viewport == s.viewport
    ensures MIN_ZOOM <= INITIAL_STATE.viewport.zoom <= MAX_ZOOM
  {
  }

  class BoardStateService {
    /** The value of the `subject`: the last published state. */
    var state: BoardState

    constructor ()
      ensures state == INITIAL_STATE
    {
      state := INITIAL_STATE;
    }

    /** `getSnapshot()`. */
    method GetSnapshot() returns (s: BoardState)
      ensures s == state
    {
      s := state;
    }

    method AddCardAt(id: string, x: real, y: real, opts: CardOpts) returns (r: string)
      modifies this
      ensures state == AddCardAtStep(old(state), id, x, y, opts) && r == id
    {
      state := AddCardAtStep(state, id, x, y, opts);
      r := id;
    }

    method UpdateCard(id: string, patch: CardPatch)
      modifies this
      ensures state == UpdateCardStep(old(state), id, patch)
    {
      state := UpdateCardStep(state, id, patch);
    }

    method RemoveSelected()
      modifies this
      ensures state == RemoveSelectedStep(old(state))
    {
      state := RemoveSelectedStep(state);
    }

    method SetSelection(ids: seq<string>)
      modifies this
      ensures state == SetSelectionStep(old(state), ids)
    {
      state := SetSelectionStep(state, ids);
    }

    method ClearSelection()
      modifies this
      ensures state == ClearSelectionStep(old(state))
    {
      state := ClearSelectionStep(state);
    }

    method ToggleSelection(id: string)
      modifies this
      ensures state == ToggleSelectionStep(old(state), id)
    {
      state := ToggleSelectionStep(state, id);
    }

    /** `moveSelected` and its alias `nudgeSelected`. */
    method MoveSelected(dx: real, dy: real)
      modifies this
      ensures state == MoveSelectedStep(old(state), dx, dy)
    {
      if dx == 0.0 && dy == 0.0 {
        return;
      }
      state := state.(cards := MoveCards(state.cards, state.selectedCardIds, dx, dy));
    }

    method ResizeCard(id: string, x: real, y: real, width: real, height: real)
      modifies this
      ensures state == ResizeCardStep(old(state), id, x, y, width, height)
    {
      var w := Max(width, MIN_CARD_SIZE_UNITS);
      var h := Max(height, MIN_CARD_SIZE_UNITS);
      UpdateCard(id, NO_CARD_PATCH.(x := Some(x), y := Some(y), width := Some(w), height := Some(h)));
    }

    method SetZoom(z: real)
      modifies this
      ensures state == SetZoomStep(old(state), z)
    {
      state := SetZoomStep(state, z);
    }

    method SetPan(offsetX: real, offsetY: real)
      modifies this
      ensures state == SetPanStep(old(state), offsetX, offsetY)
    {
      state := SetPanStep(state, offsetX, offsetY);
    }

    method PanBy(dx: real, dy: real)
      modifies this
      ensures state == PanByStep(old(state), dx, dy)
    {
      state := PanByStep(state, dx, dy);
    }

    /** `getCardById(id)`. */
    method GetCardById(id: string) returns (r: Option<CardModel>)
      ensures r == CardById(state, id)
    {
      r := CardById(state, id);
    }

    method AddLink(linkId: string, sourceCardId: string, sourcePointId: string, targetCardId: string, targetPointId: string, opts: LinkOpts)
      returns (r: Option<string>)
      modifies this
      ensures (state, r) == AddLinkStep(old(state), linkId, sourceCardId, sourcePointId, targetCardId, targetPointId, opts)
    {
      var p := AddLinkStep(state, linkId, sourceCardId, sourcePointId, targetCardId, targetPointId, opts);
      state := p.0;
      r := p.1;
    }

    method UpdateLink(id: string, patch: LinkPatch)
      modifies this
      ensures state == UpdateLinkStep(old(state), id, patch)
    {
      state := UpdateLinkStep(state, id, patch);
    }

    method RemoveLink(id: string)
      modifies this
      ensures state == RemoveLinkStep(old(state), id)
    {
      state := RemoveLinkStep(state, id);
    }

    method CommitReconnect(linkId: string, toSource: bool, cardId: string, pointId: string)
      modifies this
      ensures state == CommitReconnectStep(old(state), linkId, toSource, cardId, pointId)
    {
      state := CommitReconnectStep(state, linkId, toSource, cardId, pointId);
    }

    method SetLinkSelection(ids: seq<string>)
      modifies this
      ensures state == SetLinkSelectionStep(old(state), ids)
    {
      state := SetLinkSelectionStep(state, ids);
    }

    method ToggleLinkSelection(id: string)
      modifies this
      ensures state == ToggleLinkSelectionStep(old(state), id)
    {
      state := ToggleLinkSelectionStep(state, id);
    }
  }
}
