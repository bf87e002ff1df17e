/**
 * The column resize-area group: the shared collection of resize hotspots the
 * column header cells add to during one render pass. Adding a shape is an
 * append; the horizontal hotspot is added only when no shape of the same name
 * is already there, which makes that insertion idempotent.
 */
module ResizeArea {
  import opened Wrappers
  import opened Geometry

  datatype ResizeDirection = Horizontal | Vertical

  /** Whether dragging resizes one cell or every cell of the field. */
  datatype ResizeEffect = Cell | Field

  /**
   * What a cell hands to the hotspot-attribute builder, the cell's node
   * included. The resize theme it also passes is fixed for the whole header,
   * so it is part of the builder rather than of this record.
   */
  datatype ResizeAttrsInput = ResizeAttrsInput(
    direction: ResizeDirection, effect: ResizeEffect, id: string,
    offsetX: real, offsetY: real, width: real, height: real, meta: Node)

  /**
   * A hotspot rectangle. `name` is absent unless some attribute sets it;
   * `appendInfo` holds what the attribute builder records for the drag handler.
   */
  datatype ResizeShape = ResizeShape(
    name: Option<string>, x: real, y: real, width: real, height: real, appendInfo: ResizeAttrsInput)

  /** Some shape in `shapes` is named `name`. */
  predicate HasName(shapes: seq<ResizeShape>, name: string) {
    exists i :: 0 <= i < |shapes| && shapes[i].name == Some(name)
  }

  /** How many shapes in `shapes` are named `name`. */
  function NameCount(shapes: seq<ResizeShape>, name: string): nat {
    if shapes == [] then 0
    else (if shapes[0].name == Some(name) then 1 else 0) + NameCount(shapes[1..], name)
  }

  /** No two shapes share a name. */
  predicate NamesUnique(shapes: seq<ResizeShape>) {
    forall i, j :: 0 <= i < j < |shapes| && shapes[i].name.Some? ==> shapes[i].name != shapes[j].name
  }

  /** A name is present exactly when it is counted at least once. */
  lemma {:induction false} HasNameIffCounted(shapes: seq<ResizeShape>, name: string)
    ensures HasName(shapes, name) <==> NameCount(shapes, name) > 0
  {
    if shapes != [] {
      HasNameIffCounted(shapes[1..], name);
      if HasName(shapes[1..], name) {
        var i :| 0 <= i < |shapes[1..]| && shapes[1..][i].name == Some(name);
        assert shapes[i + 1].name == Some(name);
      }
      if HasName(shapes, name) && shapes[0].name != Some(name) {
        var i :| 0 <= i < |shapes| && shapes[i].name == Some(name);
        assert shapes[1..][i - 1].name == Some(name);
      }
    }
  }

  /** Appending one shape adds one to its own name's count and leaves every other count alone. */
  lemma {:induction false} NameCountAppend(shapes: seq<ResizeShape>, shape: ResizeShape, name: string)
    ensures NameCount(shapes + [shape], name) == NameCount(shapes, name) + (if shape.name == Some(name) then 1 else 0)
  {
    if shapes != [] {
      assert (shapes + [shape])[1..] == shapes[1..] + [shape];
      NameCountAppend(shapes[1..], shape, name);
    }
  }

  /**
   * The deduplicating insertion: `shape` is appended unless a shape of the
   * same name is already there. Existing shapes are never changed, and the
   * name is present afterwards.
   */
  function InsertIfAbsent(shapes: seq<ResizeShape>, shape: ResizeShape): (r: seq<ResizeShape>)
    requires shape.name.Some?
    ensures |r| == |shapes| + (if HasName(shapes, shape.name.value) then 0 else 1)
    ensures r[..|shapes|] == shapes
    ensures HasName(r, shape.name.value)
    ensures !HasName(shapes, shape.name.value) ==> r[|shapes|] == shape
  {
    if HasName(shapes, shape.name.value) then shapes
    else
      assert (shapes + [shape])[|shapes|] == shape;
      shapes + [shape]
  }

  /** Inserting the same shape a second time changes nothing. */
  lemma InsertIfAbsentIdempotent(shapes: seq<ResizeShape>, shape: ResizeShape)
    requires shape.name.Some?
    ensures InsertIfAbsent(InsertIfAbsent(shapes, shape), shape) == InsertIfAbsent(shapes, shape)
  {
  }

  /**
   * After an insertion the name occurs exactly once, provided it occurred at
   * most once before; in particular inserting twice leaves one shape of that name.
   */
  lemma InsertIfAbsentLeavesOne(shapes: seq<ResizeShape>, shape: ResizeShape)
    requires shape.name.Some?
    requires NameCount(shapes, shape.name.value) <= 1
    ensures NameCount(InsertIfAbsent(shapes, shape), shape.name.value) == 1
    ensures NameCount(InsertIfAbsent(InsertIfAbsent(shapes, shape), shape), shape.name.value) == 1
  {
    var name := shape.name.value;
    HasNameIffCounted(shapes, name);
    if !HasName(shapes, name) {
      NameCountAppend(shapes, shape, name);
    }
    InsertIfAbsentIdempotent(shapes, shape);
  }

  /** The insertion keeps the names of a collection distinct. */
  lemma InsertIfAbsentKeepsNamesUnique(shapes: seq<ResizeShape>, shape: ResizeShape)
    requires shape.name.Some?
    requires NamesUnique(shapes)
    ensures NamesUnique(InsertIfAbsent(shapes, shape))
  {
    var r := InsertIfAbsent(shapes, shape);
    if !HasName(shapes, shape.name.value) {
      forall i, j | 0 <= i < j < |r| && r[i].name.Some?
        ensures r[i].name != r[j].name
      {
        if j == |shapes| {
          assert r[i] == shapes[i];
        } else {
          assert r[i] == shapes[i] && r[j] == shapes[j];
        }
      }
    }
  }

  /** The resize-area group: its children, in the order they were added. */
  class ResizeAreaGroup {
    var shapes: seq<ResizeShape>

    constructor ()
      ensures shapes == []
    {
      shapes := [];
    }

    /** The first shape named `name`, if any (`group.find`). */
    method Find(name: string) returns (found: Option<ResizeShape>)
      ensures found.Some? <==> HasName(shapes, name)
      ensures found.Some? ==>
                exists i :: 0 <= i < |shapes| && shapes[i] == found.value && shapes[i].name == Some(name)
                            && forall j :: 0 <= j < i ==> shapes[j].name != Some(name)
    {
      var i := 0;
      while i < |shapes|
        invariant 0 <= i <= |shapes|
        invariant forall j :: 0 <= j < i ==> shapes[j].name != Some(name)
      {
        if shapes[i].name == Some(name) {
          return Some(shapes[i]);
        }
        i := i + 1;
      }
      return None;
    }

    /** Appends `shape` to the group (`group.addShape`). */
    method AddShape(shape: ResizeShape)
      modifies this
      ensures shapes == old(shapes) + [shape]
    {
      shapes := shapes + [shape];
    }
  }
}
