/**
 * The expression-only parts of the table column header cell (`TableColCell`),
 * which differ from the pivot cell because the table sheet has frozen
 * leading and trailing column groups: hotspot visibility and offset, the
 * per-node resize-area name, the sort-parameter merge, and the sort flag.
 */
module TableColCellGeometry {
  import opened Wrappers
  import opened Geometry
  import opened ColCellGeometry

  // ---------------------------------------------------------------------------
  // Vertical (column-width) resize hotspot

  /** The scrollable window between the frozen leading and trailing column groups. */
  function TableResizeClipBBox(cfg: ColHeaderConfig): (r: BBox)
    ensures r.x == cfg.frozenCol.width && r.y == 0.0 && r.height == cfg.height
    ensures r.x + r.width + cfg.frozenTrailingCol.width == cfg.width
  {
    var colWidth := cfg.frozenCol.width;
    var trailingColWidth := cfg.frozenTrailingCol.width;
    BBox(colWidth, 0.0, cfg.width - colWidth - trailingColWidth, cfg.height)
  }

  /**
   * Whether a table cell gets a vertical hotspot: a frozen cell always does,
   * whatever the scroll; any other cell when its candidate strip passes the
   * visibility test against the scrollable window.
   */
  function TableShouldAddVerticalResizeArea(meta: Node, borderBox: BBox, cfg: ColHeaderConfig, size: real,
                                            shouldAdd: ShouldAddResizeArea): (r: bool)
    ensures meta.isFrozen ==> r
    ensures !meta.isFrozen ==>
              (r <==> shouldAdd(ResizeCandidateBBox(borderBox, size), TableResizeClipBBox(cfg), cfg.scrollX, cfg.scrollY))
  {
    if meta.isFrozen then true
    else
      var candidate := ResizeCandidateBBox(borderBox, size);
      shouldAdd(candidate, TableResizeClipBBox(cfg), cfg.scrollX, cfg.scrollY)
  }

  /**
   * Where a table cell's vertical hotspot is placed. A frozen-head cell is
   * measured from its group's origin, a frozen-trailing cell keeps its
   * distance from the trailing group's right edge to the viewport's right
   * edge, and only a scrollable cell moves with scrollX (exactly as the
   * pivot cell does).
   */
  function TableVerticalResizeAreaOffset(meta: Node, cfg: ColHeaderConfig): (p: Point)
    ensures p.y == cfg.position.y + meta.y
    ensures meta.isFrozenHead ==> p.x == cfg.position.x + meta.x - cfg.frozenCol.x
    ensures !meta.isFrozenHead && meta.isFrozenTrailing ==>
              (cfg.position.x + cfg.viewportWidth) - p.x
                == (cfg.frozenTrailingCol.x + cfg.frozenTrailingCol.width) - meta.x
    ensures !meta.isFrozenHead && !meta.isFrozenTrailing ==> p == PivotVerticalResizeAreaOffset(meta, cfg)
  {
    var offsetX :=
      if meta.isFrozenHead then
        cfg.position.x + (meta.x - cfg.frozenCol.x)
      else if meta.isFrozenTrailing then
        cfg.position.x + (meta.x - cfg.frozenTrailingCol.x + cfg.viewportWidth - cfg.frozenTrailingCol.width)
      else
        cfg.position.x + (meta.x - cfg.scrollX.GetOr(0.0));
    Point(offsetX, cfg.position.y + meta.y)
  }

  /** A frozen cell's hotspot does not move when the sheet scrolls, horizontally or vertically. */
  lemma FrozenOffsetIgnoresScroll(meta: Node, cfg: ColHeaderConfig, scrollX: Option<real>, scrollY: Option<real>)
    requires meta.isFrozenHead || meta.isFrozenTrailing
    ensures TableVerticalResizeAreaOffset(meta, cfg.(scrollX := scrollX, scrollY := scrollY))
         == TableVerticalResizeAreaOffset(meta, cfg)
  {
  }

  /** A scrollable cell's hotspot moves by exactly `-delta` when scrollX grows by `delta`. */
  lemma ScrollableOffsetShiftsWithScroll(meta: Node, cfg: ColHeaderConfig, delta: real)
    requires !meta.isFrozenHead && !meta.isFrozenTrailing
    ensures
      var scrolled := cfg.(scrollX := Some(cfg.scrollX.GetOr(0.0) + delta));
      TableVerticalResizeAreaOffset(meta, scrolled).x == TableVerticalResizeAreaOffset(meta, cfg).x - delta &&
      TableVerticalResizeAreaOffset(meta, scrolled).y == TableVerticalResizeAreaOffset(meta, cfg).y
  {
    PivotOffsetShiftsWithScroll(meta, cfg, delta);
  }

  // ---------------------------------------------------------------------------
  // Horizontal (column-height) resize hotspot name

  /** The table cell's name is keyed on the node id. */
  function TableHorizontalResizeAreaName(meta: Node): (name: string)
    ensures name == ResizeAreaName(meta.id)
  {
    ResizeAreaName(meta.id)
  }

  /** Two table cells share a hotspot name exactly when their nodes share an id, whatever their keys. */
  lemma TableNameDedupsById(m1: Node, m2: Node)
    ensures TableHorizontalResizeAreaName(m1) == TableHorizontalResizeAreaName(m2) <==> m1.id == m2.id
  {
    ResizeAreaNameInjective(m1.id, m2.id);
  }

  // ---------------------------------------------------------------------------
  // Sort parameters

  /** `item?.sortFieldId === field`. */
  predicate SortParamMatches(item: Option<Props>, field: string) {
    item.Some? && "sortFieldId" in item.value && item.value["sortFieldId"] == Text(field)
  }

  /** The first sort parameter whose `sortFieldId` is `field`, if any (lodash `find`). */
  function FindSortParam(sortParams: seq<Option<Props>>, field: string): (r: Option<Props>)
    ensures r.None? <==> forall i :: 0 <= i < |sortParams| ==> !SortParamMatches(sortParams[i], field)
    ensures r.Some? ==>
              exists i :: 0 <= i < |sortParams| && sortParams[i] == r && SortParamMatches(sortParams[i], field)
                          && forall j :: 0 <= j < i ==> !SortParamMatches(sortParams[j], field)
  {
    if sortParams == [] then None
    else if SortParamMatches(sortParams[0], field) then sortParams[0]
    else
      var r := FindSortParam(sortParams[1..], field);
      assert forall i :: 1 <= i < |sortParams| ==> sortParams[i] == sortParams[1..][i - 1];
      r
  }

  /** `{ ...a, ...b }`: every property of either object, the later one winning. */
  function Spread(a: Props, b: Props): (r: Props)
    ensures r.Keys == a.Keys + b.Keys
    ensures forall k :: k in r ==> r[k] == (if k in b then b[k] else a[k])
  {
    a + b
  }

  /**
   * The table cell's new `sortParam`: the existing one, overridden by the
   * matching entry of the sheet's sort parameters, with `type` always set to
   * the computed sort icon type.
   */
  function MergeSortParam(existing: Option<Props>, found: Option<Props>, typeIcon: PropValue): (r: Props)
    ensures r.Keys == existing.GetOr(map[]).Keys + found.GetOr(map[]).Keys + {"type"}
    ensures r["type"] == typeIcon
    ensures forall k :: k in r && k != "type" ==>
              r[k] == (if k in found.GetOr(map[]) then found.GetOr(map[])[k] else existing.GetOr(map[])[k])
  {
    Spread(Spread(existing.GetOr(map[]), found.GetOr(map[])), map["type" := typeIcon])
  }

  /** Every table column header is a sort cell. */
  function IsSortCell(): (r: bool)
    ensures r
  {
    true
  }
}
