/**
 * The board's records (src/app/features/tools/board/models/board.models.ts):
 * cards, connection points, links, the viewport and the whole board state,
 * with the constants of the board's unit system. Lengths are in board units.
 *
 * An optional property is an `Option`; a style "partial" is a style record
 * whose `None` fields are the ones it does not specify.
 */
module BoardModels {
  import opened Wrappers

  const DEFAULT_BOARD_ID: string := "default-board"
  /** Pixels per board unit at 100% zoom. */
  const UNIT_TO_PX_AT_100: real := 10.0
  /** The smallest card side. */
  const MIN_CARD_SIZE_UNITS: real := 10.0
  const MIN_ZOOM: real := 0.1
  const MAX_ZOOM: real := 8.0

  datatype CardShape = Rect | RoundedRect | Circle | Triangle | Polyline
  datatype ConnectionPointShape = CircleCp | RectCp

  /** A connection point, at `(relX, relY)` of the card's rectangle. */
  datatype ConnectionPoint = ConnectionPoint(
    id: string, relX: real, relY: real, shape: Option<ConnectionPointShape>, hotRadius: Option<real>)

  datatype FontWeight = Numeric(n: real) | Named(name: string)
  datatype FontStyle = Normal | Italic
  datatype SizeMode = Auto | Fixed

  datatype CardTitleStyle = CardTitleStyle(
    fontFamily: Option<string>,
    fontWeight: Option<FontWeight>,
    fontStyle: Option<FontStyle>,
    color: Option<string>,
    sizeMode: Option<SizeMode>,
    fontSizeUnits: Option<real>,
    lineHeight: Option<real>,
    paddingUnits: Option<real>)

  const EMPTY_TITLE_STYLE: CardTitleStyle := CardTitleStyle(None, None, None, None, None, None, None, None)

  datatype CardRectStyle = CardRectStyle(cornerRadiusUnits: Option<real>)

  datatype CardModel = CardModel(
    id: string,
    boardId: string,
    x: real,
    y: real,
    width: real,
    height: real,
    title: string,
    body: string,
    color: string,
    shape: CardShape,
    connectionPoints: Option<seq<ConnectionPoint>>,
    titleStyle: Option<CardTitleStyle>,
    rectStyle: Option<CardRectStyle>)

  datatype ViewportState = ViewportState(zoom: real, offsetX: real, offsetY: real)

  datatype LinkDashStyle = Solid | Dashed | Dotted
  datatype LinkArrowStyle = NoArrow | Open | Filled

  datatype LinkStyle = LinkStyle(
    color: string, width: real, dash: Option<LinkDashStyle>, arrowHead: Option<LinkArrowStyle>, arrowTail: Option<LinkArrowStyle>)

  /** A partial link style: the fields it sets. */
  datatype LinkStylePatch = LinkStylePatch(
    color: Option<string>, width: Option<real>, dash: Option<LinkDashStyle>, arrowHead: Option<LinkArrowStyle>, arrowTail: Option<LinkArrowStyle>)

  datatype LinkLabel = LinkLabel(text: string, t: Option<real>)

  datatype LinkAnchor = Dynamic | FixedAnchor

  /** A link (`label` is `linkLabel` here); its routing is always `'bezier'`. */
  datatype LinkModel = LinkModel(
    id: string,
    boardId: string,
    sourceCardId: string,
    sourcePointId: string,
    targetCardId: string,
    targetPointId: string,
    style: LinkStyle,
    linkLabel: Option<LinkLabel>,
    sourceAnchor: Option<LinkAnchor>,
    targetAnchor: Option<LinkAnchor>)

  datatype BoardState = BoardState(
    boardId: string,
    cards: seq<CardModel>,
    selectedCardIds: seq<string>,
    selectedLinkIds: seq<string>,
    viewport: ViewportState,
    links: seq<LinkModel>)

  /** The state a board starts in. */
  const INITIAL_STATE: BoardState := BoardState(DEFAULT_BOARD_ID, [], [], [], ViewportState(1.0, 0.0, 0.0), [])

  /** `Math.max(0.1, Math.min(z, 8))`. */
  function ClampZoom(z: real): (r: real)
    ensures MIN_ZOOM <= r <= MAX_ZOOM
    ensures MIN_ZOOM <= z <= MAX_ZOOM ==> r == z
    ensures z < MIN_ZOOM ==> r == MIN_ZOOM
    ensures z > MAX_ZOOM ==> r == MAX_ZOOM
  {
    if z < MIN_ZOOM then MIN_ZOOM else if z > MAX_ZOOM then MAX_ZOOM else z
  }

  function Max(a: real, b: real): (r: real)
    ensures r >= a && r >= b && (r == a || r == b)
  {
    if a >= b then a else b
  }

  function Min(a: real, b: real): (r: real)
    ensures r <= a && r <= b && (r == a || r == b)
  {
    if a <= b then a else b
  }

  function Abs(a: real): (r: real)
    ensures r >= 0.0 && (r == a || r == -a)
  {
    if a < 0.0 then -a else a
  }
}
