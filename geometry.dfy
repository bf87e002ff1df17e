/** Optional values: `None` stands for a JavaScript property that is absent or `undefined`. */
module Wrappers {
  datatype Option<+T> = None | Some(value: T) {
    /** The value, or `default` when absent (a destructuring default such as `{ scrollX = 0 }`). */
    function GetOr(default: T): T {
      match this
      case Some(v) => v
      case None => default
    }
  }
}

/**
 * The geometric vocabulary shared by the column-header cells: points, boxes,
 * one-dimensional ranges, header nodes, header configuration and cell style.
 * Coordinates are exact reals; the JavaScript numbers they stand for are not
 * modelled bit for bit.
 */
module Geometry {
  import opened Wrappers

  datatype Point = Point(x: real, y: real)

  /** An axis-aligned box, `SimpleBBox` in the source. */
  datatype BBox = BBox(x: real, y: real, width: real, height: real)

  /** A one-dimensional range `[start, start + width]`, `AreaRange` in the source. */
  datatype AreaRange = AreaRange(start: real, width: real)

  datatype TextAlign = Left | Center | Right

  datatype Padding = Padding(top: real, right: real, bottom: real, left: real)

  /** The icon part of the cell theme: size and horizontal margins. */
  datatype IconStyle = IconStyle(size: real, marginLeft: real, marginRight: real)

  /** Icon sizes and margins that are not negative, as every theme supplies them. */
  predicate IconStyleNonNegative(icon: IconStyle) {
    icon.size >= 0.0 && icon.marginLeft >= 0.0 && icon.marginRight >= 0.0
  }

  /** The text and icon part of the cell style the header cells read. */
  datatype CellStyle = CellStyle(textAlign: TextAlign, padding: Option<Padding>, icon: IconStyle)

  /** A header node as laid out by the hierarchy builder; read-only to the cells. */
  datatype Node = Node(
    id: string, key: string, field: string, labelText: string,
    x: real, y: real, width: real, height: real,
    isLeaf: bool, isTotals: bool,
    isFrozen: bool, isFrozenHead: bool, isFrozenTrailing: bool)

  /** The `{x, width}` extent of a frozen column group. */
  datatype FrozenGroupArea = FrozenGroupArea(x: real, width: real)

  /** A JavaScript property value of a sort parameter; `Undefined` is an explicit `undefined`. */
  datatype PropValue = Undefined | Text(s: string) | Other(tag: nat)

  /** A plain JavaScript object seen as its own enumerable properties. */
  type Props = map<string, PropValue>

  /**
   * The column header configuration. `scrollX`, `scrollY` and `cornerWidth`
   * may be undefined; the frozen group areas are those of the sheet's frozen
   * facet, reached in the source through `headerConfig.spreadsheet.facet`.
   */
  datatype ColHeaderConfig = ColHeaderConfig(
    scrollX: Option<real>, scrollY: Option<real>, cornerWidth: Option<real>,
    width: real, height: real, viewportWidth: real,
    position: Point, scrollContainsRowHeader: bool,
    frozenCol: FrozenGroupArea, frozenTrailingCol: FrozenGroupArea,
    sortParam: Option<Props>)
}
