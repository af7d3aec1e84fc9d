/**
 * The properties panel's helpers
 * (src/app/features/tools/board/components/board-properties.component.ts):
 * which card or link the panel edits, and the patches it hands to the
 * board store when a style or label is edited.
 */
module BoardProperties {
  import opened Wrappers
  import opened Strings
  import opened Collections
  import opened BoardModels
  import opened BoardStore

  /** `getSingleSelected(s)`: the card, when exactly one card id is selected and a card has it. */
  function GetSingleSelected(s: BoardState): (r: Option<CardModel>)
    ensures r.Some? <==> |s.selectedCardIds| == 1 && s.selectedCardIds[0] in CardIds(s.cards)
    ensures r.Some? ==> r.value in s.cards && r.value.id == s.selectedCardIds[0]
  {
    if |s.selectedCardIds| != 1 then None else CardById(s, s.selectedCardIds[0])
  }

  function LinkIds(links: seq<LinkModel>): set<string> {
    set l | l in links :: l.id
  }

  /** `getSingleSelectedLink(s)`: the link, when exactly one link id is selected and a link has it. */
  function GetSingleSelectedLink(s: BoardState): (r: Option<LinkModel>)
    ensures r.Some? <==> |s.selectedLinkIds| == 1 && s.selectedLinkIds[0] in LinkIds(s.links)
    ensures r.Some? ==> r.value in s.links && r.value.id == s.selectedLinkIds[0]
  {
    if |s.selectedLinkIds| != 1 then None
    else
      var id := s.selectedLinkIds[0];
      var i := FirstIndex(s.links, (l: LinkModel) => l.id == id);
      if i < 0 then
        assert forall l :: l in s.links ==> l.id != id;
        None
      else Some(s.links[i])
  }

  /** After the panel selects a card with `setSelection([id])`, that card is the one it edits. */
  lemma {:induction false} SelectingOneCardEditsIt(s: BoardState, id: string)
    requires id in CardIds(s.cards)
    ensures var r := GetSingleSelected(SetSelectionStep(s, [id]));
      r.Some? && r.value.id == id
  {
    DedupNoDup([id]);
  }

  /** `{...prev, ...partial}` over title styles: a field the partial sets wins, the others are kept. */
  function MergeTitleStyle(prev: CardTitleStyle, partial: CardTitleStyle): (r: CardTitleStyle)
    ensures partial == EMPTY_TITLE_STYLE ==> r == prev
    ensures prev == EMPTY_TITLE_STYLE ==> r == partial
  {
    CardTitleStyle(
      if partial.fontFamily.Some? then partial.fontFamily else prev.fontFamily,
      if partial.fontWeight.Some? then partial.fontWeight else prev.fontWeight,
      if partial.fontStyle.Some? then partial.fontStyle else prev.fontStyle,
      if partial.color.Some? then partial.color else prev.color,
      if partial.sizeMode.Some? then partial.sizeMode else prev.sizeMode,
      if partial.fontSizeUnits.Some? then partial.fontSizeUnits else prev.fontSizeUnits,
      if partial.lineHeight.Some? then partial.lineHeight else prev.lineHeight,
      if partial.paddingUnits.Some? then partial.paddingUnits else prev.paddingUnits)
  }

  /** Two edits in a row are one edit with the later partial laid over the earlier one. */
  lemma MergeTitleStyleComposes(prev: CardTitleStyle, p: CardTitleStyle, q: CardTitleStyle)
    ensures MergeTitleStyle(MergeTitleStyle(prev, p), q) == MergeTitleStyle(prev, MergeTitleStyle(p, q))
  {
  }

  /** Repeating an edit changes nothing more. */
  lemma MergeTitleStyleIdempotent(prev: CardTitleStyle, p: CardTitleStyle)
    ensures MergeTitleStyle(MergeTitleStyle(prev, p), p) == MergeTitleStyle(prev, p)
  {
  }

  /** `updateTitleStyle(card, partial)`: the patch that sets the merged title style, starting from `{}` when the card has none. */
  function TitleStylePatch(card: CardModel, partial: CardTitleStyle): (p: CardPatch)
    ensures p.titleStyle.Some? && p == NO_CARD_PATCH.(titleStyle := p.titleStyle)
    ensures card.titleStyle.None? ==> p.titleStyle.value == partial
    ensures partial == EMPTY_TITLE_STYLE && card.titleStyle.Some? ==> p.titleStyle == card.titleStyle
  {
    NO_CARD_PATCH.(titleStyle := Some(MergeTitleStyle(card.titleStyle.GetOr(EMPTY_TITLE_STYLE), partial)))
  }

  /** `{...prev, ...partial}` over rectangle styles. */
  function MergeRectStyle(prev: CardRectStyle, partial: CardRectStyle): (r: CardRectStyle)
    ensures partial.cornerRadiusUnits.Some? ==> r == partial
    ensures partial.cornerRadiusUnits.None? ==> r == prev
  {
    CardRectStyle(if partial.cornerRadiusUnits.Some? then partial.cornerRadiusUnits else prev.cornerRadiusUnits)
  }

  /** `updateRectStyle(card, partial)`: the patch that sets the merged rectangle style, starting from `{}` when the card has none. */
  function RectStylePatch(card: CardModel, partial: CardRectStyle): (p: CardPatch)
    ensures p.rectStyle.Some? && p == NO_CARD_PATCH.(rectStyle := p.rectStyle)
    ensures partial.cornerRadiusUnits.Some? ==> p.rectStyle.value == partial
    ensures partial.cornerRadiusUnits.None? && card.rectStyle.Some? ==> p.rectStyle == card.rectStyle
    ensures partial.cornerRadiusUnits.None? && card.rectStyle.None? ==> p.rectStyle == Some(CardRectStyle(None))
  {
    NO_CARD_PATCH.(rectStyle := Some(MergeRectStyle(card.rectStyle.GetOr(CardRectStyle(None)), partial)))
  }

  /** Editing a card's title style through the store changes that card's title style and nothing else on the board. */
  lemma {:induction false} TitleStyleEditTouchesOnlyTitleStyle(s: BoardState, card: CardModel, partial: CardTitleStyle)
    ensures var r := UpdateCardStep(s, card.id, TitleStylePatch(card, partial));
      && |r.cards| == |s.cards| && r.links == s.links && r.selectedCardIds == s.selectedCardIds
      && (forall j :: 0 <= j < |s.cards| ==> r.cards[j] == s.cards[j].(titleStyle := r.cards[j].titleStyle))
      && (forall j :: 0 <= j < |s.cards| && !FirstCardAt(s.cards, card.id, j) ==> r.cards[j] == s.cards[j])
      && (forall i :: FirstCardAt(s.cards, card.id, i) ==>
            r.cards[i].titleStyle == Some(MergeTitleStyle(card.titleStyle.GetOr(EMPTY_TITLE_STYLE), partial)))
  {
    var p := TitleStylePatch(card, partial);
    var r := UpdateCardStep(s, card.id, p);
    FirstCardIndex(s.cards, card.id);
    var k := FirstIndex(s.cards, (c: CardModel) => c.id == card.id);
    if k >= 0 {
      assert FirstCardAt(s.cards, card.id, k);
      assert r.cards == s.cards[k := PatchedCard(s.cards[k], p)];
    } else {
      assert r == s;
    }
  }

  /** `{...ln.style, ...partial}`. */
  function MergeLinkStyle(style: LinkStyle, partial: LinkStylePatch): (r: LinkStyle)
    ensures r.color == partial.color.GetOr(style.color) && r.width == partial.width.GetOr(style.width)
    ensures partial.dash.Some? ==> r.dash == partial.dash
    ensures partial.dash.None? ==> r.dash == style.dash
    ensures partial.arrowHead.Some? ==> r.arrowHead == partial.arrowHead
    ensures partial.arrowHead.None? ==> r.arrowHead == style.arrowHead
    ensures partial.arrowTail.Some? ==> r.arrowTail == partial.arrowTail
    ensures partial.arrowTail.None? ==> r.arrowTail == style.arrowTail
  {
    LinkStyle(partial.color.GetOr(style.color), partial.width.GetOr(style.width),
              if partial.dash.Some? then partial.dash else style.dash,
              if partial.arrowHead.Some? then partial.arrowHead else style.arrowHead,
              if partial.arrowTail.Some? then partial.arrowTail else style.arrowTail)
  }

  /** An empty partial leaves the style as it is. */
  lemma MergeLinkStyleEmpty(style: LinkStyle)
    ensures MergeLinkStyle(style, LinkStylePatch(None, None, None, None, None)) == style
  {
  }

  /** `updateLinkStyle(ln, partial)`: the link patch carrying the merged style. */
  function LinkStyleUpdate(ln: LinkModel, partial: LinkStylePatch): (p: LinkPatch)
    ensures p.linkLabel.None? && p.style == Some(MergeLinkStyle(ln.style, partial))
  {
    LinkPatch(Some(MergeLinkStyle(ln.style, partial)), None)
  }

  /** `ln.label?.t ?? 0.5`. */
  function LabelPosition(ln: LinkModel): real {
    if ln.linkLabel.Some? && ln.linkLabel.value.t.Some? then ln.linkLabel.value.t.value else 0.5
  }

  /**
   * `updateLinkLabel(ln, text)`: the label to set. Blank text removes the
   * label; otherwise the trimmed text keeps the old position along the
   * link, or the middle.
   */
  function LinkLabelFor(ln: LinkModel, text: string): (r: Option<LinkLabel>)
    ensures r.None? <==> Trim(text) == []
    ensures r.Some? ==> r.value.text == Trim(text) && r.value.t == Some(LabelPosition(ln))
    ensures r.Some? ==> !IsSpace(r.value.text[0]) && !IsSpace(r.value.text[|r.value.text| - 1])
  {
    var trimmed := Trim(text);
    if |trimmed| > 0 then Some(LinkLabel(trimmed, Some(LabelPosition(ln)))) else None
  }

  /** The link patch `updateLinkLabel` sends: it always sets the label, possibly to nothing. */
  function LinkLabelUpdate(ln: LinkModel, text: string): (p: LinkPatch)
    ensures p.style.None? && p.linkLabel == Some(LinkLabelFor(ln, text))
  {
    LinkPatch(None, Some(LinkLabelFor(ln, text)))
  }

  /** Relabelling a labelled link keeps the label where it was along the link. */
  lemma RelabelKeepsPosition(ln: LinkModel, text: string, text2: string)
    requires LinkLabelFor(ln, text).Some?
    ensures var ln2 := PatchedLink(ln, LinkLabelUpdate(ln, text));
      LinkLabelFor(ln2, text2).Some? ==> LinkLabelFor(ln2, text2).value.t == Some(LabelPosition(ln))
  {
  }

  /** `toNum(v)`: `Number(v)`, with `NaN` read as 0; `number` is JavaScript's conversion, `None` standing for `NaN`. */
  function ToNum<V>(v: V, number: V -> Option<real>): (r: real)
    ensures number(v).None? ==> r == 0.0
    ensures number(v).Some? ==> r == number(v).value
  {
    number(v).GetOr(0.0)
  }
}
