/** The rectangle the image viewers write into the builder's shared
    `selection` state, and the highlight they draw while the pointer is used.
    Coordinates are fractions of the image element's width and height,
    modelled as exact reals. */
module Selection {

  /** A pointer position, as a fraction of the element's size. */
  datatype Point = Point(x: real, y: real)

  const Origin: Point := Point(0.0, 0.0)

  /** The `selection` object as the viewers write it. A committed or reset
      selection is a corner pair (start and end are the press and release
      points, in that order, never sorted); while a drag is in progress the
      viewers write the older box shape `{active: false, x, y, width,
      height}`, all zero. */
  datatype Selection =
    | Corners(active: bool, startX: real, startY: real, endX: real, endY: real)
    | Box(active: bool, x: real, y: real, width: real, height: real)

  /** What `resetSelection` writes. */
  const Cleared: Selection := Corners(false, 0.0, 0.0, 0.0, 0.0)

  /** What the drag effect writes while the pointer is held. */
  const DragInProgress: Selection := Box(false, 0.0, 0.0, 0.0, 0.0)

  function Min(a: real, b: real): real { if a <= b then a else b }
  function Max(a: real, b: real): real { if a <= b then b else a }

  /** A CSS offset of the highlight: `unset`, or a fraction of the element. */
  datatype Edge = Unset | At(fraction: real)

  /** The absolutely positioned highlight: which edges are set, and its
      size, as fractions (the one-pixel border adjustments of the style are
      not modelled). */
  datatype Highlight = Highlight(left: Edge, right: Edge, top: Edge, bottom: Edge,
                                 width: real, height: real)

  /** The interval a highlight covers along one axis of an element of size 1:
      from the near edge when it is set, otherwise back from the far edge. */
  function Span(near: Edge, far: Edge, size: real): (real, real)
  {
    if near.At? then (near.fraction, near.fraction + size)
    else if far.At? then (1.0 - far.fraction - size, 1.0 - far.fraction)
    else (0.0, size)
  }

  /** The highlight drawn between the press point `start` and the current
      pointer point `value`: a backwards drag is anchored from the right
      (bottom) edge instead of the left (top) one, and either way it covers
      exactly the interval between the two points on each axis. */
  function DrawnHighlight(start: Point, value: Point): (h: Highlight)
    ensures h.width == Max(start.x, value.x) - Min(start.x, value.x)
    ensures h.height == Max(start.y, value.y) - Min(start.y, value.y)
    ensures h.right.At? <==> value.x < start.x
    ensures h.left.At? <==> !(value.x < start.x)
    ensures h.bottom.At? <==> value.y < start.y
    ensures h.top.At? <==> !(value.y < start.y)
    ensures Span(h.left, h.right, h.width) == (Min(start.x, value.x), Max(start.x, value.x))
    ensures Span(h.top, h.bottom, h.height) == (Min(start.y, value.y), Max(start.y, value.y))
  {
    var backX := value.x < start.x;
    var backY := value.y < start.y;
    Highlight(
      left := if backX then Unset else At(start.x),
      right := if backX then At(1.0 - start.x) else Unset,
      top := if backY then Unset else At(start.y),
      bottom := if backY then At(1.0 - start.y) else Unset,
      width := if backX then start.x - value.x else value.x - start.x,
      height := if backY then start.y - value.y else value.y - start.y)
  }
}
