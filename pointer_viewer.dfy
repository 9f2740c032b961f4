/** The image viewer of the builder: the pointer draws a selection over the
    image and writes it into the shared `selection` state. The hooks that
    report the pointer (`useMove`'s position and `active` flag, `useMouse`'s
    coordinates, `useElementSize`'s size) are inputs of the methods, and each
    effect is a method run when its dependency changes. */
module PointerViewer {
  import opened Selection

  /** Whether the press and current points are both still at the origin,
      the state in which releasing the pointer commits nothing. */
  predicate Untouched(start: Point, value: Point)
  {
    value.x == 0.0 && value.y == 0.0 && start.x == 0.0 && start.y == 0.0
  }

  /** What the drag effect writes over `current` when the pointer is
      released: the press and current points as an active corner pair, in
      that order, or nothing new when both are still at the origin. */
  function Released(start: Point, value: Point, current: Selection): Selection
  {
    if Untouched(start, value) then current
    else Corners(true, start.x, start.y, value.x, value.y)
  }

  /** A release writes the active corner pair of the two points exactly when
      they are not both at the origin, and otherwise leaves the selection as
      it was; the corners are stored unordered. */
  lemma ReleaseCommitsUnlessUntouched(start: Point, value: Point, current: Selection)
    ensures !Untouched(start, value) ==>
      Released(start, value, current).Corners? && Released(start, value, current).active
    ensures Untouched(start, value) <==> (start == Origin && value == Origin)
    ensures Untouched(start, value) ==> Released(start, value, current) == current
    ensures !Untouched(start, value) ==>
      var r := Released(start, value, current);
      Point(r.startX, r.startY) == start && Point(r.endX, r.endY) == value
  {
  }

  /** The committed rectangle covers on each axis exactly the interval that
      the highlight drawn during the drag covered. */
  lemma {:induction false} CommitMatchesHighlight(start: Point, value: Point, current: Selection)
    requires !Untouched(start, value)
    ensures var r := Released(start, value, current);
            var h := DrawnHighlight(start, value);
            && Span(h.left, h.right, h.width) == (Min(r.startX, r.endX), Max(r.startX, r.endX))
            && Span(h.top, h.bottom, h.height) == (Min(r.startY, r.endY), Max(r.startY, r.endY))
  {
    var r := Released(start, value, current);
    assert r == Corners(true, start.x, start.y, value.x, value.y);
  }

  /** `{active: true, ...s}`: the spread copies every field of `s` over the
      literal's, `active` included, so the written selection is `s`. */
  function SpreadActive(s: Selection): (r: Selection)
    ensures r == s
  {
    match s
    case Corners(a, sx, sy, ex, ey) => Corners(a, sx, sy, ex, ey)
    case Box(a, x, y, w, h) => Box(a, x, y, w, h)
  }

  /** The viewer's state: the shared `selection`, the press point
      `startValue`, the current point `value`, the lock and view toggles,
      and the parent's `selectionReset` request flag. While `locked`, an
      overlay covers the element, so no press, drag or release reaches it:
      the pointer handlers and the drag effect require the lock to be off. */
  class PointerSelector {
    var selection: Selection
    var startValue: Point
    var value: Point
    var locked: bool
    var view: bool
    var selectionReset: bool

    /** Mounting: both points at the origin and the toggles off, then the
        effects in the order they are declared: the drag effect finds both
        points at the origin and keeps the selection, and a raised reset
        request clears it. */
    constructor(initial: Selection, resetRequested: bool)
      ensures startValue == Origin && value == Origin
      ensures !locked && !view && !selectionReset
      ensures resetRequested ==> selection == Cleared
      ensures !resetRequested ==> selection == initial
    {
      selection := initial;
      selectionReset := resetRequested;
      startValue := Origin;
      value := Origin;
      locked := false;
      view := false;
      new;
      DragEffect(false);
      SelectionResetEffect();
    }

    /** `onMouseDown`: the press point, as fractions of the element's size. */
    method MouseDown(mouseX: real, mouseY: real, width: real, height: real)
      requires !locked
      requires width > 0.0 && height > 0.0
      modifies this
      ensures startValue == Point(mouseX / width, mouseY / height)
      ensures selection == old(selection) && value == old(value)
      ensures locked == old(locked) && view == old(view) && selectionReset == old(selectionReset)
    {
      startValue := Point(mouseX / width, mouseY / height);
    }

    /** `useMove` reports the pointer's position while it is held. */
    method PointerMoved(v: Point)
      requires !locked
      modifies this
      ensures value == v
      ensures selection == old(selection) && startValue == old(startValue)
      ensures locked == old(locked) && view == old(view) && selectionReset == old(selectionReset)
    {
      value := v;
    }

    /** `onMouseUp`: writes `{active: true, ...selection}`, which is the
        selection itself. */
    method MouseUp()
      requires !locked
      modifies this
      ensures selection == old(selection)
      ensures startValue == old(startValue) && value == old(value)
      ensures locked == old(locked) && view == old(view) && selectionReset == old(selectionReset)
    {
      selection := SpreadActive(selection);
    }

    /** The effect on `useMove`'s `active` flag: while the pointer is held
        the selection is the inactive, all-zero box; on release it is
        committed as the corner pair of the press and current points unless
        both are at the origin. */
    method DragEffect(active: bool)
      requires !locked
      modifies this
      ensures active ==> selection == DragInProgress
      ensures !active ==> selection == Released(startValue, value, old(selection))
      ensures startValue == old(startValue) && value == old(value)
      ensures locked == old(locked) && view == old(view) && selectionReset == old(selectionReset)
    {
      if active {
        selection := Box(false, 0.0, 0.0, 0.0, 0.0);
      } else if value.x == 0.0 && value.y == 0.0 && startValue.x == 0.0 && startValue.y == 0.0 {
        return;
      } else {
        selection := Corners(true, startValue.x, startValue.y, value.x, value.y);
      }
    }

    /** `resetSelection`: the selection cleared, both points back at the
        origin, and the lock released whatever it was. */
    method ResetSelection()
      modifies this
      ensures selection == Cleared && startValue == Origin && value == Origin
      ensures !locked
      ensures view == old(view) && selectionReset == old(selectionReset)
    {
      selection := Corners(false, 0.0, 0.0, 0.0, 0.0);
      startValue := Point(0.0, 0.0);
      value := Point(0.0, 0.0);
      if locked {
        ToggleLock();
      }
    }

    method ToggleLock()
      modifies this
      ensures locked == !old(locked)
      ensures selection == old(selection) && startValue == old(startValue) && value == old(value)
      ensures view == old(view) && selectionReset == old(selectionReset)
    {
      locked := !locked;
    }

    method ToggleView()
      modifies this
      ensures view == !old(view)
      ensures selection == old(selection) && startValue == old(startValue) && value == old(value)
      ensures locked == old(locked) && selectionReset == old(selectionReset)
    {
      view := !view;
    }

    /** The effect on the parent's `selectionReset` flag: a raised flag
        resets the selection and is lowered again; a lowered one changes
        nothing. */
    method SelectionResetEffect()
      modifies this
      ensures !selectionReset
      ensures old(selectionReset) ==>
        selection == Cleared && startValue == Origin && value == Origin && !locked
      ensures !old(selectionReset) ==>
        selection == old(selection) && startValue == old(startValue)
        && value == old(value) && locked == old(locked)
      ensures view == old(view)
    {
      if selectionReset {
        ResetSelection();
        selectionReset := false;
      }
    }

    /** The highlight drawn over the image for the current drag. */
    function Highlight(): (h: Highlight)
      reads this
      ensures Span(h.left, h.right, h.width)
           == (Min(startValue.x, value.x), Max(startValue.x, value.x))
      ensures Span(h.top, h.bottom, h.height)
           == (Min(startValue.y, value.y), Max(startValue.y, value.y))
    {
      DrawnHighlight(startValue, value)
    }
  }
}
