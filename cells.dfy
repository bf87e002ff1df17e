/**
 * The column header cell as an object: the stored text anchor that the icon
 * query reads back, the two resize-hotspot operations that add to the shared
 * resize-area group, and the table cell's header-configuration update.
 *
 * The pivot cell (`ColCell`) and the table cell (`TableColCell`, which
 * overrides the frozen-aware members) are one class here; `kind` selects the
 * overriding member wherever the table cell has its own.
 */
module Cells {
  import opened Wrappers
  import opened Geometry
  import opened ColCellGeometry
  import opened TableColCellGeometry
  import opened ResizeArea

  datatype CellKind = PivotColCell | TableColCell

  /**
   * What the resize-hotspot operations read from the sheet and the theme:
   * the configured column height, the per-type "draw resize area" switches,
   * the frame's vertical border width, the hotspot thickness, the hotspot
   * attribute builder (which closes over the header's resize theme) and the
   * visibility test.
   */
  datatype ResizeEnv = ResizeEnv(
    colCfgHeight: Option<real>,
    drawColCellVertical: bool,
    drawColCellHorizontal: bool,
    verticalBorderWidth: real,
    resizeSize: real,
    attrs: ResizeAttrsInput -> ResizeShape,
    shouldAdd: ShouldAddResizeArea)

  // ---------------------------------------------------------------------------
  // The members the table cell overrides

  /** The horizontal hotspot's name: keyed on the node key (pivot) or the node id (table). */
  function HorizontalName(kind: CellKind, meta: Node): (name: string)
    ensures kind == PivotColCell ==> name == ResizeAreaName(meta.key)
    ensures kind == TableColCell ==> name == ResizeAreaName(meta.id)
  {
    match kind
    case PivotColCell => HorizontalResizeAreaName(meta)
    case TableColCell => TableHorizontalResizeAreaName(meta)
  }

  /** Whether the vertical hotspot is visible, by the cell kind's own rule. */
  function ShouldAddVertical(kind: CellKind, meta: Node, borderBox: BBox, cfg: ColHeaderConfig, env: ResizeEnv): (r: bool)
    ensures kind == TableColCell && meta.isFrozen ==> r
  {
    match kind
    case PivotColCell => PivotShouldAddVerticalResizeArea(meta, cfg, env.resizeSize, env.shouldAdd)
    case TableColCell => TableShouldAddVerticalResizeArea(meta, borderBox, cfg, env.resizeSize, env.shouldAdd)
  }

  /** Where the vertical hotspot is placed, by the cell kind's own rule. */
  function VerticalOffset(kind: CellKind, meta: Node, cfg: ColHeaderConfig): (p: Point)
    ensures p.y == cfg.position.y + meta.y
    ensures kind == PivotColCell || (!meta.isFrozenHead && !meta.isFrozenTrailing) ==>
              p.x + cfg.scrollX.GetOr(0.0) == cfg.position.x + meta.x
  {
    match kind
    case PivotColCell => PivotVerticalResizeAreaOffset(meta, cfg)
    case TableColCell => TableVerticalResizeAreaOffset(meta, cfg)
  }

  // ---------------------------------------------------------------------------
  // Horizontal (column-height) hotspot

  /** The horizontal hotspot is wanted unless the column header is hidden (height 0) or switched off. */
  predicate DrawsHorizontal(env: ResizeEnv) {
    env.colCfgHeight != Some(0.0) && env.drawColCellVertical
  }

  /**
   * The horizontal hotspot: the builder's attributes with the name, x, y and
   * width overridden; it starts at the header's left edge, ends `resizeSize`
   * above the cell's bottom edge, and spans corner, border and viewport.
   */
  function HorizontalResizeShape(kind: CellKind, meta: Node, cfg: ColHeaderConfig, env: ResizeEnv): (s: ResizeShape)
    ensures s.name == Some(HorizontalName(kind, meta))
    ensures s.x == 0.0 && s.y + env.resizeSize == meta.y + meta.height
    ensures s.width == cfg.cornerWidth.GetOr(0.0) + env.verticalBorderWidth + cfg.viewportWidth
  {
    var width := cfg.cornerWidth.GetOr(0.0) + env.verticalBorderWidth + cfg.viewportWidth;
    var attrs := env.attrs(ResizeAttrsInput(Vertical, Field, meta.key, 0.0, meta.y, width, meta.height, meta));
    attrs.(name := Some(HorizontalName(kind, meta)), x := 0.0, y := meta.y + meta.height - env.resizeSize, width := width)
  }

  /**
   * The group's children after the horizontal hotspot operation: unchanged
   * when it is not wanted or a shape of its name is already there, otherwise
   * the hotspot appended.
   */
  function HorizontalResizeStep(kind: CellKind, meta: Node, cfg: ColHeaderConfig, env: ResizeEnv,
                                shapes: seq<ResizeShape>): (r: seq<ResizeShape>)
    ensures |shapes| <= |r| <= |shapes| + 1
    ensures r[..|shapes|] == shapes
    ensures |r| == |shapes| + 1 <==> DrawsHorizontal(env) && !HasName(shapes, HorizontalName(kind, meta))
    ensures |r| == |shapes| + 1 ==> r[|shapes|] == HorizontalResizeShape(kind, meta, cfg, env)
  {
    if !DrawsHorizontal(env) then shapes
    else InsertIfAbsent(shapes, HorizontalResizeShape(kind, meta, cfg, env))
  }

  /** Running the horizontal hotspot operation twice is the same as running it once. */
  lemma HorizontalResizeIdempotent(kind: CellKind, meta: Node, cfg: ColHeaderConfig, env: ResizeEnv,
                                   shapes: seq<ResizeShape>)
    ensures
      var once := HorizontalResizeStep(kind, meta, cfg, env, shapes);
      HorizontalResizeStep(kind, meta, cfg, env, once) == once
  {
    if DrawsHorizontal(env) {
      InsertIfAbsentIdempotent(shapes, HorizontalResizeShape(kind, meta, cfg, env));
    }
  }

  /**
   * When the hotspot is wanted and its name occurred at most once, running
   * the operation twice leaves exactly one shape of that name.
   */
  lemma HorizontalResizeLeavesOneShape(kind: CellKind, meta: Node, cfg: ColHeaderConfig, env: ResizeEnv,
                                       shapes: seq<ResizeShape>)
    requires DrawsHorizontal(env)
    requires NameCount(shapes, HorizontalName(kind, meta)) <= 1
    ensures
      var twice := HorizontalResizeStep(kind, meta, cfg, env, HorizontalResizeStep(kind, meta, cfg, env, shapes));
      NameCount(twice, HorizontalName(kind, meta)) == 1
  {
    InsertIfAbsentLeavesOne(shapes, HorizontalResizeShape(kind, meta, cfg, env));
  }

  /** Two table cells whose nodes share an id register one horizontal hotspot between them. */
  lemma TableCellsSharingIdShareHotspot(m1: Node, m2: Node, cfg: ColHeaderConfig, env: ResizeEnv,
                                        shapes: seq<ResizeShape>)
    requires m1.id == m2.id
    ensures
      var after1 := HorizontalResizeStep(TableColCell, m1, cfg, env, shapes);
      HorizontalResizeStep(TableColCell, m2, cfg, env, after1) == after1
  {
    var after1 := HorizontalResizeStep(TableColCell, m1, cfg, env, shapes);
    if DrawsHorizontal(env) {
      assert HasName(after1, HorizontalName(TableColCell, m1));
    }
  }

  // ---------------------------------------------------------------------------
  // Vertical (column-width) hotspot

  /** The vertical hotspot is added for a visible leaf cell when switched on. */
  predicate DrawsVertical(kind: CellKind, meta: Node, borderBox: BBox, cfg: ColHeaderConfig, env: ResizeEnv) {
    meta.isLeaf && env.drawColCellHorizontal && ShouldAddVertical(kind, meta, borderBox, cfg, env)
  }

  /**
   * The vertical hotspot: the builder's attributes with x, y and height
   * overridden; a strip ending at the cell's trailing edge, translated by the
   * kind's offset, as tall as the cell.
   */
  function VerticalResizeShape(kind: CellKind, meta: Node, cfg: ColHeaderConfig, env: ResizeEnv): (s: ResizeShape)
    ensures s.x + env.resizeSize == VerticalOffset(kind, meta, cfg).x + meta.width
    ensures s.y == VerticalOffset(kind, meta, cfg).y && s.height == meta.height
  {
    var offset := VerticalOffset(kind, meta, cfg);
    var attrs := env.attrs(ResizeAttrsInput(Horizontal, Cell, meta.labelText, offset.x, offset.y, meta.width, meta.height, meta));
    attrs.(x := offset.x + meta.width - env.resizeSize, y := offset.y, height := meta.height)
  }

  /** The group's children after the vertical hotspot operation. */
  function VerticalResizeStep(kind: CellKind, meta: Node, borderBox: BBox, cfg: ColHeaderConfig, env: ResizeEnv,
                              shapes: seq<ResizeShape>): (r: seq<ResizeShape>)
    ensures !meta.isLeaf ==> r == shapes
    ensures |r| == |shapes| + (if DrawsVertical(kind, meta, borderBox, cfg, env) then 1 else 0)
    ensures r[..|shapes|] == shapes
    ensures |r| > |shapes| ==> r[|shapes|] == VerticalResizeShape(kind, meta, cfg, env)
  {
    if DrawsVertical(kind, meta, borderBox, cfg, env) then
      assert (shapes + [VerticalResizeShape(kind, meta, cfg, env)])[..|shapes|] == shapes;
      shapes + [VerticalResizeShape(kind, meta, cfg, env)]
    else shapes
  }

  /**
   * A pivot cell's, or a scrollable table cell's, vertical hotspot moves by
   * exactly `-delta` when scrollX grows by `delta`.
   */
  lemma VerticalResizeShapeTracksScroll(kind: CellKind, meta: Node, cfg: ColHeaderConfig, env: ResizeEnv, delta: real)
    requires kind == PivotColCell || (!meta.isFrozenHead && !meta.isFrozenTrailing)
    ensures
      var scrolled := cfg.(scrollX := Some(cfg.scrollX.GetOr(0.0) + delta));
      VerticalResizeShape(kind, meta, scrolled, env).x == VerticalResizeShape(kind, meta, cfg, env).x - delta
  {
    var scrolled := cfg.(scrollX := Some(cfg.scrollX.GetOr(0.0) + delta));
    assert VerticalOffset(kind, meta, scrolled).x == VerticalOffset(kind, meta, cfg).x - delta;
  }

  /** A frozen table cell's vertical hotspot is added and placed the same whatever the scroll. */
  lemma FrozenVerticalResizeIgnoresScroll(meta: Node, borderBox: BBox, cfg: ColHeaderConfig, env: ResizeEnv,
                                          shapes: seq<ResizeShape>, scrollX: Option<real>, scrollY: Option<real>)
    requires meta.isFrozen && (meta.isFrozenHead || meta.isFrozenTrailing)
    ensures
      var scrolled := cfg.(scrollX := scrollX, scrollY := scrollY);
      VerticalResizeStep(TableColCell, meta, borderBox, scrolled, env, shapes)
        == VerticalResizeStep(TableColCell, meta, borderBox, cfg, env, shapes)
  {
    FrozenOffsetIgnoresScroll(meta, cfg, scrollX, scrollY);
  }

  // ---------------------------------------------------------------------------
  // The cell object

  class ColCell {
    const kind: CellKind
    const meta: Node
    var headerConfig: ColHeaderConfig
    /** The label anchor of a group header, once computed. */
    var textPosition: Option<Point>

    constructor (kind: CellKind, meta: Node, headerConfig: ColHeaderConfig)
      ensures this.kind == kind && this.meta == meta && this.headerConfig == headerConfig
      ensures textPosition == None
    {
      this.kind := kind;
      this.meta := meta;
      this.headerConfig := headerConfig;
      textPosition := None;
    }

    /**
     * The label anchor. A leaf cell places text and icon together and stores
     * nothing; a group header computes the sticky anchor, stores it, and the
     * icon later placed from it is centred on the content box's middle line.
     */
    method GetTextPosition(style: CellStyle, contentBox: BBox, actualTextWidth: real, actionIconsCount: nat,
                           helpers: TextHelpers) returns (p: Point)
      modifies this`textPosition
      ensures meta.isLeaf ==> p == helpers.textAndFollowingIcon(contentBox, style, actualTextWidth, actionIconsCount).text
      ensures meta.isLeaf ==> textPosition == old(textPosition)
      ensures !meta.isLeaf ==>
                p == NonLeafTextPosition(headerConfig, style, contentBox, actualTextWidth, actionIconsCount, helpers)
      ensures !meta.isLeaf ==> textPosition == Some(p) && p.y == contentBox.y + contentBox.height / 2.0
      ensures !meta.isLeaf ==>
                GetIconPosition(style, actualTextWidth, actionIconsCount, helpers).y + style.icon.size / 2.0
                  == contentBox.y + contentBox.height / 2.0
    {
      if meta.isLeaf {
        p := helpers.textAndFollowingIcon(contentBox, style, actualTextWidth, actionIconsCount).text;
        return;
      }
      p := NonLeafTextPosition(headerConfig, style, contentBox, actualTextWidth, actionIconsCount, helpers);
      textPosition := Some(p);
    }

    /**
     * The action icon's position. A leaf cell uses the base cell's placement;
     * a group header places it after the stored label anchor, which must
     * have been computed first.
     */
    function GetIconPosition(style: CellStyle, actualTextWidth: real, actionIconsCount: nat,
                             helpers: TextHelpers): (p: Point)
      reads this
      requires !meta.isLeaf ==> textPosition.Some?
      ensures meta.isLeaf ==> p == helpers.baseIconPosition(actionIconsCount)
      ensures !meta.isLeaf ==> p.y + style.icon.size / 2.0 == textPosition.value.y
      ensures !meta.isLeaf ==>
                var span := TextSpan(textPosition.value.x, actualTextWidth, style.textAlign);
                p.x == span.start + span.width + style.icon.marginLeft
    {
      if meta.isLeaf then helpers.baseIconPosition(actionIconsCount)
      else NonLeafIconPosition(textPosition.value, actualTextWidth, style.icon, style.textAlign)
    }

    /** Adds the column-height hotspot to `group` unless it is unwanted, absent or already there. */
    method DrawHorizontalResizeArea(group: ResizeAreaGroup?, env: ResizeEnv)
      modifies group
      ensures group != null ==> group.shapes == HorizontalResizeStep(kind, meta, headerConfig, env, old(group.shapes))
    {
      if env.colCfgHeight == Some(0.0) || !env.drawColCellVertical {
        return;
      }
      if group == null {
        return;
      }
      var name := HorizontalName(kind, meta);
      var existed := group.Find(name);
      if existed.Some? {
        return;
      }
      group.AddShape(HorizontalResizeShape(kind, meta, headerConfig, env));
    }

    /** Adds the column-width hotspot of a visible leaf cell to `group`. */
    method DrawVerticalResizeArea(group: ResizeAreaGroup?, env: ResizeEnv, borderBox: BBox)
      modifies group
      ensures group != null ==>
                group.shapes == VerticalResizeStep(kind, meta, borderBox, headerConfig, env, old(group.shapes))
    {
      if !meta.isLeaf || !env.drawColCellHorizontal {
        return;
      }
      if group == null || !ShouldAddVertical(kind, meta, borderBox, headerConfig, env) {
        return;
      }
      group.AddShape(VerticalResizeShape(kind, meta, headerConfig, env));
    }

    /** Both hotspots, horizontal first. */
    method DrawResizeArea(group: ResizeAreaGroup?, env: ResizeEnv, borderBox: BBox)
      modifies group
      ensures group != null ==>
                group.shapes == VerticalResizeStep(kind, meta, borderBox, headerConfig, env,
                                  HorizontalResizeStep(kind, meta, headerConfig, env, old(group.shapes)))
    {
      DrawHorizontalResizeArea(group, env);
      DrawVerticalResizeArea(group, env, borderBox);
    }

    /**
     * The table cell's configuration update: a copy of `cfg` whose sort
     * parameter keeps the existing fields, takes those of the first sort
     * parameter for this node's field, and has `type` set to the sort icon
     * type computed from that parameter.
     */
    method HandleRestOptions(cfg: ColHeaderConfig, sortParams: seq<Option<Props>>,
                             sortTypeIcon: Option<Props> -> PropValue)
      requires kind == TableColCell
      modifies this`headerConfig
      ensures var found := FindSortParam(sortParams, meta.field);
              headerConfig == cfg.(sortParam := Some(MergeSortParam(cfg.sortParam, found, sortTypeIcon(found))))
      ensures headerConfig.sortParam.Some? && headerConfig.sortParam.value["type"] == sortTypeIcon(FindSortParam(sortParams, meta.field))
    {
      headerConfig := cfg;
      var sortParam := FindSortParam(sortParams, meta.field);
      var typeIcon := sortTypeIcon(sortParam);
      headerConfig := headerConfig.(sortParam := Some(MergeSortParam(headerConfig.sortParam, sortParam, typeIcon)));
    }
  }
}
