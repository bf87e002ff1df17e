# Column header geometry of S2 header cells, in Dafny

This project models the geometry of the column header cells of the S2 pivot/table
grid: the pivot column cell (`ColCell`) and the table column cell (`TableColCell`,
whose leading and trailing column groups can be frozen). It covers:

- the space reserved for action icons and the width left for the label;
- the sticky-label anchor of a group (non-leaf) header under horizontal scrolling,
  stored on the cell and read back when the action icon is placed;
- the column-height ("horizontal") resize hotspot, registered once per name in
  the shared resize-area group;
- the column-width ("vertical") resize hotspot: its candidate strip, its clip
  window, and its offset for frozen-head, frozen-trailing and scrollable cells;
- the hidden-column indicator: its trigger, its divider line and its expand icon;
- bold text, the table cell's sort-parameter merge and its sort flag.

Coordinates are exact `real`s. Collaborators whose code is outside this model
are parameters: function values inside `ColCellGeometry.TextHelpers` and
`Cells.ResizeEnv`, or plain values. These are the scroll-text helpers, the leaf
text-and-icon placement, the base cell's icon position, `shouldAddResizeArea`,
`getResizeAreaAttrs`, `isEqualDisplaySiblingNodeId`, `getSortTypeIcon`,
`isLastColumnAfterHidden`, `shouldDrawResizeAreaByType` and
`Frame.getVerticalBorderWidth`. Nothing is assumed about them beyond their types.

Files:
- `geometry.dfy`: `Wrappers` (Option) and `Geometry` (points, boxes, ranges,
  nodes, header configuration, style).
- `col_cell_geometry.dfy`: `ColCellGeometry`, the expression-only members of `ColCell`.
- `table_col_cell_geometry.dfy`: `TableColCellGeometry`, the members `TableColCell` overrides.
- `resize_area.dfy`: `ResizeArea`, the resize-area group as a class over a sequence
  of shapes, plus the deduplicating insert.
- `cells.dfy`: `Cells`. The cell is a class with the stored `textPosition`; a
  `kind` selects the table cell's overrides, and the drawing methods mutate the
  group.

The value of `HORIZONTAL_RESIZE_AREA_KEY_PRE` is defined in S2's common constant
module, which is not part of this model. It is taken here as
`"horizontal-resize-area-"`, and the proofs use only that it is a fixed prefix.

## Model

| member | source | states |
|---|---|---|
| `ColCellGeometry.ActionIconsWidth` | packages/s2-core/src/cell/col-cell.ts:212-218 | zero icons reserve nothing; otherwise `(size + margin.left) * count + margin.right` |
| `ColCellGeometry.ActionIconsWidthStep` | packages/s2-core/src/cell/col-cell.ts:212-218 | each extra icon adds its size and left margin; the first one also adds the right margin |
| `ColCellGeometry.ActionIconsWidthMonotone` | packages/s2-core/src/cell/col-cell.ts:212-218 | with non-negative sizes the reserved width never decreases as the icon count grows |
| `ColCellGeometry.MaxTextWidth` | packages/s2-core/src/cell/col-cell.ts:68-71 | text width plus icon width is the content-box width; it is the whole width with no icons, and never more than it |
| `ColCellGeometry.NonLeafViewport` | packages/s2-core/src/cell/col-cell.ts:177-180 | the viewport's end is `scrollX + width` whether or not the row header scrolls; without that flag the viewport is exactly `{scrollX, width}`, with it the start moves left by the corner width |
| `ColCellGeometry.NonLeafTextPosition` | packages/s2-core/src/cell/col-cell.ts:163-209 | the group-header label's y is the vertical centre of the content box |
| `ColCellGeometry.RowHeaderScrollFoldsIntoViewport` | packages/s2-core/src/cell/col-cell.ts:177-205 | scrolling with the row header gives the same anchor as a window starting `cornerWidth` earlier and `cornerWidth` wider, so the anchor depends on scroll only through the viewport |
| `ColCellGeometry.NonLeafIconPosition` | packages/s2-core/src/cell/col-cell.ts:78-129 | for every alignment the icon sits `margin.left` after the label's trailing edge under the canvas anchor convention, so it never overlaps the label when the margin is non-negative; y is the label line minus half the icon size |
| `ColCellGeometry.IsBolderText` | packages/s2-core/src/cell/col-cell.ts:131-138 | bold exactly for totals and for non-leaf cells |
| `ColCellGeometry.ResizeAreaName` | packages/s2-core/src/cell/col-cell.ts:231-233 | a hotspot name is the fixed prefix followed by the suffix |
| `ColCellGeometry.ResizeAreaNameInjective` | packages/s2-core/src/cell/col-cell.ts:231-233 | two names are equal exactly when their suffixes are |
| `ColCellGeometry.HorizontalResizeAreaName` | packages/s2-core/src/cell/col-cell.ts:231-233 | the pivot cell's name is keyed on `meta.key` |
| `ColCellGeometry.PivotNameDedupsByKey` | packages/s2-core/src/cell/col-cell.ts:254-263 | two pivot cells share a hotspot name exactly when their nodes share a key |
| `ColCellGeometry.ResizeCandidateBBox` | packages/s2-core/src/cell/col-cell.ts:304-309 | the candidate is a strip `size` wide, flush with the cell's trailing edge, at the cell's y and height |
| `ColCellGeometry.PivotResizeClipBBox` | packages/s2-core/src/cell/col-cell.ts:311-316 | the clip window ends at the header width, starts at `-cornerWidth` or `0`, and has y 0 and the header's height |
| `ColCellGeometry.PivotShouldAddVerticalResizeArea` | packages/s2-core/src/cell/col-cell.ts:291-322 | visibility is the test applied to the candidate strip and the clip window, with the raw (possibly undefined) scroll offsets |
| `ColCellGeometry.PivotVerticalResizeAreaOffset` | packages/s2-core/src/cell/col-cell.ts:324-331 | offset x plus scrollX is the header origin plus the node x; offset y is the origin y plus the node y |
| `ColCellGeometry.PivotOffsetShiftsWithScroll` | packages/s2-core/src/cell/col-cell.ts:324-331 | growing scrollX by `delta` moves the offset by exactly `-delta` and leaves y alone |
| `ColCellGeometry.AnyDisplaysSibling` | packages/s2-core/src/cell/col-cell.ts:395-397 | `find` stops at the first entry whose display sibling passes the test, and `!!` asks whether that entry is defined: true exactly when such a first entry exists and is defined |
| `ColCellGeometry.AnyDisplaysSiblingOfDefinedEntries` | packages/s2-core/src/cell/col-cell.ts:395-397 | when every entry is defined, the search is true exactly when some entry records this node as its display sibling |
| `ColCellGeometry.UndefinedMatchHidesLaterMatches` | packages/s2-core/src/cell/col-cell.ts:395-397 | an undefined entry that passes the test ends the search with false, even when a later defined entry also matches |
| `ColCellGeometry.HasHiddenColumnCell` | packages/s2-core/src/cell/col-cell.ts:380-398 | true exactly when the record and the hidden field list are non-empty, the tooltip option is on, and the first entry naming this node is defined; so it is false if any of those three fails |
| `ColCellGeometry.ExpandColumnSplitLineX` | packages/s2-core/src/cell/col-cell.ts:405-409 | the divider is at the trailing edge for the last column and at the leading edge otherwise |
| `ColCellGeometry.ExpandColumnIconConfig` | packages/s2-core/src/cell/col-cell.ts:448-462 | the icon box is `2*size` by `size`, centred horizontally on the divider and vertically on the cell |
| `ColCellGeometry.ExpandColumnIndicator` | packages/s2-core/src/cell/col-cell.ts:427-433 | an indicator exists exactly when the cell has a hidden column; its divider spans the cell height and the icon is centred on it |
| `TableColCellGeometry.TableResizeClipBBox` | packages/s2-core/src/cell/table-col-cell.ts:60-71 | the clip window starts after the frozen leading width and ends before the frozen trailing width, with y 0 and the header's height |
| `TableColCellGeometry.TableShouldAddVerticalResizeArea` | packages/s2-core/src/cell/table-col-cell.ts:38-77 | a frozen cell is always eligible; any other cell is eligible when the test passes for its border-box strip against the scrollable window |
| `TableColCellGeometry.TableVerticalResizeAreaOffset` | packages/s2-core/src/cell/table-col-cell.ts:79-112 | frozen head: origin + x - group x; frozen trailing: the distance to the viewport's right edge equals the node's distance to the trailing group's right edge; scrollable: the pivot offset; y is origin y + node y |
| `TableColCellGeometry.FrozenOffsetIgnoresScroll` | packages/s2-core/src/cell/table-col-cell.ts:96-103 | a frozen-head or frozen-trailing offset is unchanged by any scrollX or scrollY |
| `TableColCellGeometry.ScrollableOffsetShiftsWithScroll` | packages/s2-core/src/cell/table-col-cell.ts:104-111 | a scrollable cell's offset moves by exactly `-delta` when scrollX grows by `delta`; y is unchanged |
| `TableColCellGeometry.TableHorizontalResizeAreaName` | packages/s2-core/src/cell/table-col-cell.ts:132-134 | the table cell's name is keyed on `meta.id` |
| `TableColCellGeometry.TableNameDedupsById` | packages/s2-core/src/cell/table-col-cell.ts:132-134 | two table cells share a hotspot name exactly when their nodes share an id, whatever their keys |
| `TableColCellGeometry.FindSortParam` | packages/s2-core/src/cell/table-col-cell.ts:20-21 | absent exactly when no entry has `sortFieldId == field`; otherwise it is the first such entry |
| `TableColCellGeometry.Spread` | packages/s2-core/src/cell/table-col-cell.ts:24-28 | object spread: the union of the properties, with the later object winning |
| `TableColCellGeometry.MergeSortParam` | packages/s2-core/src/cell/table-col-cell.ts:22-28 | keeps the existing sort fields, overrides them with the matched entry's, and always sets `type` to the computed icon type |
| `TableColCellGeometry.IsSortCell` | packages/s2-core/src/cell/table-col-cell.ts:114-116 | a table column cell is always a sort cell |
| `ResizeArea.InsertIfAbsent` | packages/s2-core/src/cell/col-cell.ts:254-288 | existing shapes are unchanged; the name is present afterwards; exactly one shape is appended when the name was absent, none otherwise |
| `ResizeArea.InsertIfAbsentIdempotent` | packages/s2-core/src/cell/col-cell.ts:254-263 | inserting the same shape again changes nothing |
| `ResizeArea.InsertIfAbsentLeavesOne` | packages/s2-core/src/cell/col-cell.ts:254-288 | with at most one shape of the name before, one or two insertions leave exactly one |
| `ResizeArea.InsertIfAbsentKeepsNamesUnique` | packages/s2-core/src/cell/col-cell.ts:254-288 | the insertion keeps shape names pairwise distinct |
| `ResizeArea.ResizeAreaGroup.Find` | packages/s2-core/src/cell/col-cell.ts:256-258 | finds a shape exactly when one has the name, and returns the first one that does |
| `ResizeArea.ResizeAreaGroup.AddShape` | packages/s2-core/src/cell/col-cell.ts:270-288 | appends the shape to the group's children |
| `Cells.HorizontalName` | packages/s2-core/src/cell/col-cell.ts:231-233 | dispatch: key-based name for the pivot cell, id-based for the table cell |
| `Cells.ShouldAddVertical` | packages/s2-core/src/cell/col-cell.ts:291-322 | dispatch of hotspot visibility; a frozen table cell is always eligible |
| `Cells.VerticalOffset` | packages/s2-core/src/cell/col-cell.ts:324-331 | dispatch of the offset: y is always origin y + node y; pivot and scrollable table cells satisfy x + scrollX = origin x + node x |
| `Cells.HorizontalResizeShape` | packages/s2-core/src/cell/col-cell.ts:265-288 | named by the cell's kind, `x = 0`, `y = y + height - size`, width `cornerWidth + border width + viewportWidth` |
| `Cells.HorizontalResizeStep` | packages/s2-core/src/cell/col-cell.ts:235-289 | existing shapes are kept; one shape is appended exactly when the area is wanted (height not 0, switched on) and no shape has its name; the appended shape is the horizontal hotspot |
| `Cells.HorizontalResizeIdempotent` | packages/s2-core/src/cell/col-cell.ts:254-263 | running the horizontal operation twice equals running it once |
| `Cells.HorizontalResizeLeavesOneShape` | packages/s2-core/src/cell/col-cell.ts:235-289 | when the area is wanted, running it twice leaves exactly one shape with its name |
| `Cells.TableCellsSharingIdShareHotspot` | packages/s2-core/src/cell/table-col-cell.ts:132-134 | a second table cell with the same node id adds nothing after the first |
| `Cells.VerticalResizeShape` | packages/s2-core/src/cell/col-cell.ts:350-371 | `x = offset.x + width - size`, `y = offset.y`, height equal to the cell's |
| `Cells.VerticalResizeStep` | packages/s2-core/src/cell/col-cell.ts:333-372 | non-leaf cells add nothing; existing shapes are kept; exactly one shape, the vertical hotspot, is appended when the leaf is switched on and visible |
| `Cells.VerticalResizeShapeTracksScroll` | packages/s2-core/src/cell/col-cell.ts:324-367 | a pivot or scrollable table hotspot's x moves by exactly `-delta` when scrollX grows by `delta` |
| `Cells.FrozenVerticalResizeIgnoresScroll` | packages/s2-core/src/cell/table-col-cell.ts:38-103 | a frozen table cell's vertical step (whether and where it adds a hotspot) is the same for any scrollX and scrollY |
| `Cells.ColCell.GetTextPosition` | packages/s2-core/src/cell/col-cell.ts:140-210 | leaf: the text of the text-and-icon placement, nothing stored; non-leaf: the sticky anchor, stored in `textPosition`, y at the content centre, and the icon later placed from it is vertically centred there |
| `Cells.ColCell.GetIconPosition` | packages/s2-core/src/cell/col-cell.ts:73-129 | leaf: the base placement; non-leaf (requires a stored anchor): `margin.left` after the label's trailing edge, y half an icon above the label line |
| `Cells.ColCell.DrawHorizontalResizeArea` | packages/s2-core/src/cell/col-cell.ts:235-289 | an absent group is left alone; otherwise the group's children become `HorizontalResizeStep` of the old children |
| `Cells.ColCell.DrawVerticalResizeArea` | packages/s2-core/src/cell/col-cell.ts:333-372 | an absent group is left alone; otherwise the group's children become `VerticalResizeStep` of the old children |
| `Cells.ColCell.DrawResizeArea` | packages/s2-core/src/cell/col-cell.ts:375-378 | the horizontal step followed by the vertical step |
| `Cells.ColCell.HandleRestOptions` | packages/s2-core/src/cell/table-col-cell.ts:17-29 | the new configuration is the given one, with `sortParam` set to the merge of its own sort parameter and the first matching entry, and `type` the computed icon type |

## Left out

- Drawing: `renderIcon`, `renderLine`, `renderRect`, the other `draw*Shape` methods, `initCell`, `drawBackgroundShape`, `getBorderPositions`, `cellType`, `getTextStyle`, `showSortIcon` and `getFormattedFieldValue`. They only hand computed values to the drawing layer or to the formatter. `addShape` is modelled as an append to the group's sequence of shapes.
- The expand icon's click handler, which emits `LAYOUT_COLS_EXPANDED` on the sheet's event bus. It is event wiring, not geometry.
- The collaborators listed above, and the `HeaderCell` base class (`getBBoxByType`, `getActionIconsCount`, `actualTextWidth`, `getResizeAreaStyle`, `getIconStyle`). Their results are inputs. The cell's icon style from `getIconStyle()` and the theme's `icon` read by `getActionIconsWidth` are taken to be the same `IconStyle`.
- `getColResizeArea`: the group handle is a parameter that may be null.
- IEEE-754 arithmetic. Numbers are exact reals, so rounding, `NaN` from an undefined `position`, and undefined `size` or `margin` values are not modelled. `scrollContainsRowHeader` is a boolean, so an undefined value reads as false, as JavaScript does.
- ColCellGeometry.NonLeafTextPosition: its contract constrains only y. The x is whatever the scroll-text helpers return, so the intended behaviour that a sticky label stays inside its own cell cannot be stated without their code. `RowHeaderScrollFoldsIntoViewport` states what can be said about x.
- TableColCellGeometry.TableShouldAddVerticalResizeArea: a scrollable cell's strip that lies outside the scrollable window is meant to get no hotspot. That is decided by `shouldAddResizeArea`, whose code is not part of this model, so only the window passed to it is stated.
- Cells.ColCell.HandleRestOptions: requires a table cell. The pivot cell inherits `handleRestOptions` from `HeaderCell`, which is not part of this model.
- The generic interval arithmetic (overlap, clipping, alignment with rounding) has no code among the modelled files. Those operations live in the scroll-text helpers.

Where the usual description of the header and the code differ, the model follows the code:
- The expand icon is often described as sitting at the edge ± the icon size. In the code the icon box starts `size` before the divider and is `2*size` wide, so it is centred on the divider. `ExpandColumnIconConfig` states this.
- The vertical hotspot is often described as sitting at `x + width - size`. In the code the x also includes the header origin and subtracts scrollX (`position.x + x - scrollX + width - size`).
