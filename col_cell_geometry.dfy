/**
 * The expression-only parts of the pivot column header cell (`ColCell`):
 * action-icon space, text width, the sticky-label viewport, the icon anchor of
 * a group header, bold text, the vertical resize hotspot's candidate box, clip
 * box and offset, and the hidden-column indicator.
 *
 * The scroll-text helpers and the other collaborators whose code is not part
 * of this model are passed in as function values, so nothing here assumes
 * anything about them beyond their types.
 */
module ColCellGeometry {
  import opened Wrappers
  import opened Geometry

  /** Where the text and its following icon go in a leaf cell. */
  datatype TextAndIconPosition = TextAndIconPosition(text: Point, icon: Point)

  /**
   * The text-placement collaborators: the three scroll-text helpers, the leaf
   * "text followed by icon" placement and the base cell's icon position.
   */
  datatype TextHelpers = TextHelpers(
    adjustViewport: (AreaRange, TextAlign, Option<Padding>) -> AreaRange,
    textAreaRange: (AreaRange, AreaRange, real) -> AreaRange,
    adjustTextPosition: (AreaRange, real, real, TextAlign) -> real,
    textAndFollowingIcon: (BBox, CellStyle, real, nat) -> TextAndIconPosition,
    baseIconPosition: nat -> Point)

  /** The visibility test for a resize hotspot: candidate box, clip box, scrollX, scrollY. */
  type ShouldAddResizeArea = (BBox, BBox, Option<real>, Option<real>) -> bool

  // ---------------------------------------------------------------------------
  // Action icons and text width

  /** Horizontal space reserved for `count` action icons. */
  function ActionIconsWidth(icon: IconStyle, count: nat): (w: real)
    ensures count == 0 ==> w == 0.0
    ensures count > 0 ==> w == (icon.size + icon.marginLeft) * count as real + icon.marginRight
  {
    (icon.size + icon.marginLeft) * count as real + (if count > 0 then icon.marginRight else 0.0)
  }

  /** One more icon adds its size and left margin; the first one also adds the right margin. */
  lemma ActionIconsWidthStep(icon: IconStyle, n: nat)
    ensures ActionIconsWidth(icon, n + 1)
         == ActionIconsWidth(icon, n) + icon.size + icon.marginLeft + (if n == 0 then icon.marginRight else 0.0)
  {
  }

  /** With non-negative sizes the reserved space never shrinks as icons are added. */
  lemma {:induction false} ActionIconsWidthMonotone(icon: IconStyle, m: nat, n: nat)
    requires IconStyleNonNegative(icon)
    requires m <= n
    ensures ActionIconsWidth(icon, m) <= ActionIconsWidth(icon, n)
  {
    if m < n {
      ActionIconsWidthMonotone(icon, m, n - 1);
      ActionIconsWidthStep(icon, n - 1);
    }
  }

  /** Width left for the label once the action icons have their space. */
  function MaxTextWidth(contentBox: BBox, icon: IconStyle, count: nat): (w: real)
    ensures w + ActionIconsWidth(icon, count) == contentBox.width
    ensures count == 0 ==> w == contentBox.width
    ensures IconStyleNonNegative(icon) ==> w <= contentBox.width
  {
    if IconStyleNonNegative(icon) then
      ActionIconsWidthMonotone(icon, 0, count);
      contentBox.width - ActionIconsWidth(icon, count)
    else
      contentBox.width - ActionIconsWidth(icon, count)
  }

  // ---------------------------------------------------------------------------
  // Sticky label of a group (non-leaf) header

  /**
   * The visible window of the column header in the header's own coordinates.
   * When the row header scrolls with the columns, the window is widened to the
   * left by the corner width, so its right edge does not move.
   */
  function NonLeafViewport(cfg: ColHeaderConfig): (v: AreaRange)
    ensures v.start + v.width == cfg.scrollX.GetOr(0.0) + cfg.width
    ensures !cfg.scrollContainsRowHeader ==> v == AreaRange(cfg.scrollX.GetOr(0.0), cfg.width)
    ensures cfg.scrollContainsRowHeader ==> v.start == cfg.scrollX.GetOr(0.0) - cfg.cornerWidth.GetOr(0.0)
  {
    var corner := if cfg.scrollContainsRowHeader then cfg.cornerWidth.GetOr(0.0) else 0.0;
    AreaRange(cfg.scrollX.GetOr(0.0) - corner, cfg.width + corner)
  }

  /**
   * The label anchor of a group header: x comes from the scroll-text helpers
   * applied to the viewport, the content box and the text-and-icon block;
   * y is the vertical centre of the content box.
   */
  function NonLeafTextPosition(cfg: ColHeaderConfig, style: CellStyle, contentBox: BBox,
                               textWidth: real, iconCount: nat, helpers: TextHelpers): (p: Point)
    ensures p.y == contentBox.y + contentBox.height / 2.0
  {
    var viewport := NonLeafViewport(cfg);
    var adjusted := helpers.adjustViewport(viewport, style.textAlign, style.padding);
    var iconSpace := ActionIconsWidth(style.icon, iconCount);
    var textArea := helpers.textAreaRange(adjusted, AreaRange(contentBox.x, contentBox.width), textWidth + iconSpace);
    var textX := helpers.adjustTextPosition(textArea, textWidth, iconSpace, style.textAlign);
    Point(textX, contentBox.y + contentBox.height / 2.0)
  }

  /**
   * The label anchor depends on the scroll state only through the visible
   * window: scrolling the row header with the columns is the same as starting
   * the window `cornerWidth` earlier and making it `cornerWidth` wider.
   */
  lemma RowHeaderScrollFoldsIntoViewport(cfg: ColHeaderConfig, style: CellStyle, contentBox: BBox,
                                         textWidth: real, iconCount: nat, helpers: TextHelpers)
    requires cfg.scrollContainsRowHeader
    ensures
      var corner := cfg.cornerWidth.GetOr(0.0);
      var folded := cfg.(scrollContainsRowHeader := false,
                         scrollX := Some(cfg.scrollX.GetOr(0.0) - corner),
                         width := cfg.width + corner);
      NonLeafTextPosition(cfg, style, contentBox, textWidth, iconCount, helpers)
        == NonLeafTextPosition(folded, style, contentBox, textWidth, iconCount, helpers)
  {
    var corner := cfg.cornerWidth.GetOr(0.0);
    var folded := cfg.(scrollContainsRowHeader := false,
                       scrollX := Some(cfg.scrollX.GetOr(0.0) - corner),
                       width := cfg.width + corner);
    assert NonLeafViewport(cfg) == NonLeafViewport(folded);
  }

  /**
   * Where a label drawn at `anchorX` with the given alignment lies on the x
   * axis, by the canvas convention: the anchor is the left edge, the centre
   * or the right edge of the text.
   */
  function TextSpan(anchorX: real, textWidth: real, align: TextAlign): AreaRange {
    match align
    case Left => AreaRange(anchorX, textWidth)
    case Center => AreaRange(anchorX - textWidth / 2.0, textWidth)
    case Right => AreaRange(anchorX - textWidth, textWidth)
  }

  /**
   * The action icon of a group header, placed from the stored text anchor:
   * it sits `marginLeft` after the trailing edge of the label whatever the
   * alignment, and is vertically centred on the label's line.
   */
  function NonLeafIconPosition(textPosition: Point, textWidth: real, icon: IconStyle, align: TextAlign): (p: Point)
    ensures p.y + icon.size / 2.0 == textPosition.y
    ensures p.x == TextSpan(textPosition.x, textWidth, align).start
                 + TextSpan(textPosition.x, textWidth, align).width + icon.marginLeft
    ensures icon.marginLeft >= 0.0 ==>
              p.x >= TextSpan(textPosition.x, textWidth, align).start + TextSpan(textPosition.x, textWidth, align).width
  {
    var y := textPosition.y - icon.size / 2.0;
    if align == Left then
      Point(textPosition.x + textWidth + icon.marginLeft, y)
    else if align == Right then
      Point(textPosition.x + icon.marginLeft, y)
    else
      Point(textPosition.x + textWidth / 2.0 + icon.marginLeft, y)
  }

  /** Group headers and totals are drawn in bold. */
  function IsBolderText(meta: Node): (bold: bool)
    ensures bold <==> (meta.isTotals || !meta.isLeaf)
  {
    meta.isTotals || !meta.isLeaf
  }

  // ---------------------------------------------------------------------------
  // Horizontal (column-height) resize hotspot name

  /** The prefix of every horizontal resize hotspot's name. */
  const HorizontalResizeAreaKeyPre: string := "horizontal-resize-area-"

  /** The name under which a horizontal hotspot is deduplicated: the prefix followed by `suffix`. */
  function ResizeAreaName(suffix: string): (name: string)
    ensures |name| == |HorizontalResizeAreaKeyPre| + |suffix|
    ensures name[..|HorizontalResizeAreaKeyPre|] == HorizontalResizeAreaKeyPre
    ensures name[|HorizontalResizeAreaKeyPre|..] == suffix
  {
    HorizontalResizeAreaKeyPre + suffix
  }

  /** Two names coincide exactly when their suffixes do. */
  lemma ResizeAreaNameInjective(a: string, b: string)
    ensures ResizeAreaName(a) == ResizeAreaName(b) <==> a == b
  {
    if ResizeAreaName(a) == ResizeAreaName(b) {
      assert a == ResizeAreaName(a)[|HorizontalResizeAreaKeyPre|..];
    }
  }

  /** The pivot cell's name is keyed on the node key. */
  function HorizontalResizeAreaName(meta: Node): (name: string)
    ensures name == ResizeAreaName(meta.key)
  {
    ResizeAreaName(meta.key)
  }

  /** Two pivot cells share a hotspot name exactly when their nodes share a key. */
  lemma PivotNameDedupsByKey(m1: Node, m2: Node)
    ensures HorizontalResizeAreaName(m1) == HorizontalResizeAreaName(m2) <==> m1.key == m2.key
  {
    ResizeAreaNameInjective(m1.key, m2.key);
  }

  // ---------------------------------------------------------------------------
  // Vertical (column-width) resize hotspot

  /** The hotspot candidate: a strip `size` wide flush with the trailing edge of `box`, full height. */
  function ResizeCandidateBBox(box: BBox, size: real): (r: BBox)
    ensures r.x + r.width == box.x + box.width
    ensures r.width == size && r.y == box.y && r.height == box.height
  {
    BBox(box.x + box.width - size, box.y, size, box.height)
  }

  /** The pivot cell's clip window: the header width, extended left over the corner when the row header scrolls. */
  function PivotResizeClipBBox(cfg: ColHeaderConfig): (r: BBox)
    ensures r.y == 0.0 && r.height == cfg.height
    ensures r.x + r.width == cfg.width
    ensures cfg.scrollContainsRowHeader ==> r.x == -cfg.cornerWidth.GetOr(0.0)
    ensures !cfg.scrollContainsRowHeader ==> r.x == 0.0
  {
    var corner := cfg.cornerWidth.GetOr(0.0);
    BBox(if cfg.scrollContainsRowHeader then -corner else 0.0, 0.0,
         if cfg.scrollContainsRowHeader then corner + cfg.width else cfg.width, cfg.height)
  }

  /** The node's own logical box. */
  function NodeBox(meta: Node): BBox {
    BBox(meta.x, meta.y, meta.width, meta.height)
  }

  /**
   * Whether the pivot cell's vertical hotspot is visible: the visibility test
   * applied to the candidate strip and the clip window, with scrollX and scrollY
   * passed as they are (possibly undefined).
   */
  function PivotShouldAddVerticalResizeArea(meta: Node, cfg: ColHeaderConfig, size: real,
                                            shouldAdd: ShouldAddResizeArea): (r: bool)
    ensures r <==> shouldAdd(ResizeCandidateBBox(NodeBox(meta), size), PivotResizeClipBBox(cfg), cfg.scrollX, cfg.scrollY)
  {
    var candidate := ResizeCandidateBBox(NodeBox(meta), size);
    var clip := PivotResizeClipBBox(cfg);
    shouldAdd(candidate, clip, cfg.scrollX, cfg.scrollY)
  }

  /** Where the pivot cell's vertical hotspot is placed on the canvas: header origin plus node position, minus scroll. */
  function PivotVerticalResizeAreaOffset(meta: Node, cfg: ColHeaderConfig): (p: Point)
    ensures p.y == cfg.position.y + meta.y
    ensures p.x + cfg.scrollX.GetOr(0.0) == cfg.position.x + meta.x
  {
    Point(cfg.position.x + meta.x - cfg.scrollX.GetOr(0.0), cfg.position.y + meta.y)
  }

  /** Scrolling by `delta` moves the pivot hotspot by exactly `-delta` and leaves its y alone. */
  lemma PivotOffsetShiftsWithScroll(meta: Node, cfg: ColHeaderConfig, delta: real)
    ensures
      var scrolled := cfg.(scrollX := Some(cfg.scrollX.GetOr(0.0) + delta));
      PivotVerticalResizeAreaOffset(meta, scrolled).x == PivotVerticalResizeAreaOffset(meta, cfg).x - delta &&
      PivotVerticalResizeAreaOffset(meta, scrolled).y == PivotVerticalResizeAreaOffset(meta, cfg).y
  {
  }

  // ---------------------------------------------------------------------------
  // Hidden-column indicator

  /** The pair of visible neighbours of a run of hidden columns, by node id. */
  datatype DisplaySibling = DisplaySibling(prev: Option<string>, next: Option<string>)

  /** One entry of the sheet's hidden-columns record. */
  datatype HiddenColumnsInfo = HiddenColumnsInfo(hideColumnNodes: seq<string>, displaySiblingNode: Option<DisplaySibling>)

  /** The comparison of a display-sibling pair with a node id. */
  type SiblingIdTest = (Option<DisplaySibling>, string) -> bool

  /** `column?.displaySiblingNode`: absent when the entry itself is absent. */
  function SiblingOf(column: Option<HiddenColumnsInfo>): Option<DisplaySibling> {
    match column
    case None => None
    case Some(c) => c.displaySiblingNode
  }

  /** Emptiness of a possibly undefined list, as lodash `isEmpty` sees it. */
  predicate IsEmptyList<T>(list: Option<seq<T>>) {
    list.None? || list.value == []
  }

  /** Entry `i` is the first of `detail` whose display-sibling pair passes the test for `id`. */
  predicate FirstSiblingMatch(detail: seq<Option<HiddenColumnsInfo>>, id: string, isEqual: SiblingIdTest, i: int) {
    0 <= i < |detail| && isEqual(SiblingOf(detail[i]), id)
    && forall j :: 0 <= j < i ==> !isEqual(SiblingOf(detail[j]), id)
  }

  /**
   * `!!detail.find(column => isEqual(column?.displaySiblingNode, id))`: the
   * search stops at the first entry that passes the test, and the result is
   * whether that entry is defined. A matching undefined entry therefore hides
   * every later match.
   */
  function AnyDisplaysSibling(detail: seq<Option<HiddenColumnsInfo>>, id: string, isEqual: SiblingIdTest): (found: bool)
    ensures found <==> exists i :: FirstSiblingMatch(detail, id, isEqual, i) && detail[i].Some?
    ensures !found <==> forall i :: FirstSiblingMatch(detail, id, isEqual, i) ==> detail[i].None?
  {
    if detail == [] then false
    else if isEqual(SiblingOf(detail[0]), id) then
      assert FirstSiblingMatch(detail, id, isEqual, 0);
      detail[0].Some?
    else
      var rest := AnyDisplaysSibling(detail[1..], id, isEqual);
      assert forall i :: 1 <= i < |detail| ==> detail[i] == detail[1..][i - 1];
      assert forall i :: FirstSiblingMatch(detail, id, isEqual, i) <==> i >= 1 && FirstSiblingMatch(detail[1..], id, isEqual, i - 1);
      rest
  }

  /** With every entry defined, the search is true exactly when some entry passes the test. */
  lemma {:induction false} AnyDisplaysSiblingOfDefinedEntries(detail: seq<Option<HiddenColumnsInfo>>, id: string,
                                                              isEqual: SiblingIdTest)
    requires forall i :: 0 <= i < |detail| ==> detail[i].Some?
    ensures AnyDisplaysSibling(detail, id, isEqual) <==> exists i :: 0 <= i < |detail| && isEqual(SiblingOf(detail[i]), id)
  {
    if exists i :: 0 <= i < |detail| && isEqual(SiblingOf(detail[i]), id) {
      var k :| 0 <= k < |detail| && isEqual(SiblingOf(detail[k]), id);
      FirstSiblingMatchExists(detail, id, isEqual, k);
    }
  }

  /** An undefined entry that passes the test stops the search, so a defined match after it is not seen. */
  lemma UndefinedMatchHidesLaterMatches(c: HiddenColumnsInfo, id: string, isEqual: SiblingIdTest)
    requires isEqual(SiblingOf(None), id)
    ensures !AnyDisplaysSibling([None, Some(c)], id, isEqual)
  {
    assert FirstSiblingMatch([None, Some(c)], id, isEqual, 0);
  }

  /** If some entry at or before `k` passes the test, a first passing entry exists. */
  lemma {:induction false} FirstSiblingMatchExists(detail: seq<Option<HiddenColumnsInfo>>, id: string,
                                                   isEqual: SiblingIdTest, k: int)
    requires 0 <= k < |detail| && isEqual(SiblingOf(detail[k]), id)
    ensures exists i :: 0 <= i <= k && FirstSiblingMatch(detail, id, isEqual, i)
    decreases k
  {
    if !FirstSiblingMatch(detail, id, isEqual, k) {
      var j :| 0 <= j < k && isEqual(SiblingOf(detail[j]), id);
      FirstSiblingMatchExists(detail, id, isEqual, j);
    }
  }

  /**
   * Whether the cell shows the hidden-column indicator: the hidden-columns
   * record and the hidden field list are non-empty, the tooltip's
   * hidden-columns operation is on, and the first entry that names this node
   * as its display sibling is defined.
   */
  function HasHiddenColumnCell(detail: seq<Option<HiddenColumnsInfo>>, hiddenColumnFields: Option<seq<string>>,
                               tooltipHiddenColumns: Option<bool>, id: string, isEqual: SiblingIdTest): (r: bool)
    ensures r <==> detail != [] && !IsEmptyList(hiddenColumnFields) && tooltipHiddenColumns == Some(true)
                   && exists i :: FirstSiblingMatch(detail, id, isEqual, i) && detail[i].Some?
  {
    if detail == [] || IsEmptyList(hiddenColumnFields) || tooltipHiddenColumns != Some(true) then false
    else AnyDisplaysSibling(detail, id, isEqual)
  }

  /** The divider's x: the trailing edge of the last column, the leading edge of any other. */
  function ExpandColumnSplitLineX(box: BBox, isLastColumn: bool): (x: real)
    ensures isLastColumn ==> x == box.x + box.width
    ensures !isLastColumn ==> x == box.x
  {
    if isLastColumn then box.x + box.width else box.x
  }

  /**
   * The expand icon's box: twice the icon size wide, one size high, centred
   * horizontally on the divider and vertically on the cell.
   */
  function ExpandColumnIconConfig(iconSize: Option<real>, box: BBox, isLastColumn: bool): (r: BBox)
    ensures r.width == 2.0 * iconSize.GetOr(0.0) && r.height == iconSize.GetOr(0.0)
    ensures r.x + r.width / 2.0 == ExpandColumnSplitLineX(box, isLastColumn)
    ensures r.y + r.height / 2.0 == box.y + box.height / 2.0
  {
    var size := iconSize.GetOr(0.0);
    var baseIconX := box.x - size;
    var iconX := if isLastColumn then baseIconX + box.width else baseIconX;
    BBox(iconX, box.y + box.height / 2.0 - size / 2.0, size * 2.0, size)
  }

  /** The divider line and the expand icon a cell adjacent to hidden columns draws. */
  datatype ExpandIndicator = ExpandIndicator(lineX: real, lineY1: real, lineY2: real, icon: BBox)

  /**
   * What the cell adds for hidden columns: nothing unless it has a hidden
   * column beside it; otherwise a full-height divider and the expand icon
   * centred on it.
   */
  function ExpandColumnIndicator(hasHiddenColumn: bool, iconSize: Option<real>, box: BBox, isLastColumn: bool)
    : (r: Option<ExpandIndicator>)
    ensures r.Some? <==> hasHiddenColumn
    ensures r.Some? ==> r.value.lineY1 == box.y && r.value.lineY2 == box.y + box.height
    ensures r.Some? ==> r.value.icon.x + r.value.icon.width / 2.0 == r.value.lineX
    ensures r.Some? ==> r.value.lineX == ExpandColumnSplitLineX(box, isLastColumn)
  {
    if !hasHiddenColumn then None
    else
      var lineX := ExpandColumnSplitLineX(box, isLastColumn);
      Some(ExpandIndicator(lineX, box.y, box.y + box.height, ExpandColumnIconConfig(iconSize, box, isLastColumn)))
  }
}
