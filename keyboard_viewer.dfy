/** The generation tool's image viewer: the pointer selection of the
    builder's viewer, plus a keyboard mode in which a rectangle is moved or
    resized with the arrow keys in steps of 0.01 and committed to the shared
    `selection` when a mode is left. Key events, `useMove`'s `active` flag
    and the pointer coordinates are inputs of the methods; each effect is a
    method run when its dependency changes. */
module KeyboardViewer {
  import opened Selection
  import opened PointerViewer

  /** `keyboardSelection`: the rectangle the arrow keys act on. */
  datatype KeyboardRect = KeyboardRect(active: bool, startX: real, startY: real, endX: real, endY: real)

  /** The rectangle at mount. */
  const DefaultRect: KeyboardRect := KeyboardRect(false, 0.05, 0.05, 0.15, 0.15)

  /** The rectangle a reset in keyboard mode restores. */
  const ResetRect: KeyboardRect := KeyboardRect(true, 0.05, 0.05, 0.15, 0.15)

  /** The distance one arrow key moves an edge, as a fraction of the image. */
  const Step: real := 0.01

  /** What leaving a keyboard mode writes into the shared selection. */
  function Commit(k: KeyboardRect): Selection
  {
    Corners(true, k.startX, k.startY, k.endX, k.endY)
  }

  /** A key press in move mode: the arrow keys shift both corners by one
      step along their axis (up is towards smaller y); other keys leave the
      rectangle alone. */
  function MoveStep(k: KeyboardRect, key: string): (r: KeyboardRect)
    ensures r.endX - r.startX == k.endX - k.startX
    ensures r.endY - r.startY == k.endY - k.startY
    ensures r.active == k.active
    ensures key == "ArrowLeft" || key == "ArrowRight" ==> r.startY == k.startY && r.endY == k.endY
    ensures key == "ArrowUp" || key == "ArrowDown" ==> r.startX == k.startX && r.endX == k.endX
    ensures !IsArrow(key) ==> r == k
  {
    if key == "ArrowUp" then k.(startY := k.startY - Step, endY := k.endY - Step)
    else if key == "ArrowDown" then k.(startY := k.startY + Step, endY := k.endY + Step)
    else if key == "ArrowLeft" then k.(startX := k.startX - Step, endX := k.endX - Step)
    else if key == "ArrowRight" then k.(startX := k.startX + Step, endX := k.endX + Step)
    else k
  }

  /** A key press in resize mode: the arrow keys move only the end corner
      by one step; the start corner never moves. */
  function ResizeStep(k: KeyboardRect, key: string): (r: KeyboardRect)
    ensures r.startX == k.startX && r.startY == k.startY
    ensures r.active == k.active
    ensures key == "ArrowLeft" || key == "ArrowRight" ==> r.endY == k.endY
    ensures key == "ArrowUp" || key == "ArrowDown" ==> r.endX == k.endX
    ensures !IsArrow(key) ==> r == k
  {
    if key == "ArrowUp" then k.(endY := k.endY - Step)
    else if key == "ArrowDown" then k.(endY := k.endY + Step)
    else if key == "ArrowLeft" then k.(endX := k.endX - Step)
    else if key == "ArrowRight" then k.(endX := k.endX + Step)
    else k
  }

  predicate IsArrow(key: string)
  {
    key == "ArrowUp" || key == "ArrowDown" || key == "ArrowLeft" || key == "ArrowRight"
  }

  /** The keys the handlers compare against to leave a mode, as written. */
  function IsExitKeyAsWritten(key: string): (r: bool)
    ensures r ==> !IsArrow(key) && key != SpacebarKey
  {
    key == "Escape" || key == "Enter" || key == "Space"
  }

  /** The `key` value of the spacebar in a `keydown` event. */
  const SpacebarKey: string := " "

  /** The exit keys with the spacebar's own key value, as the on-screen
      instruction "Press the spacebar to confirm" intends. */
  function IsExitKey(key: string): (r: bool)
    ensures r ==> !IsArrow(key)
    ensures key == SpacebarKey ==> r
  {
    key == "Escape" || key == "Enter" || key == SpacebarKey
  }

  /** Which exit comparison the key handlers use: the one written in the
      handlers, or the intended one with the spacebar's real key value. */
  datatype ExitKeys = AsWritten | Intended

  predicate Exits(keys: ExitKeys, key: string)
  {
    match keys
    case AsWritten => IsExitKeyAsWritten(key)
    case Intended => IsExitKey(key)
  }

  /** As written, the spacebar neither leaves a mode nor moves the
      rectangle: its key value is " ", never "Space". With the intended
      comparison it leaves the mode, and every other key behaves as
      written. */
  lemma SpacebarDoesNotConfirm(k: KeyboardRect)
    ensures !IsExitKeyAsWritten(SpacebarKey) && !IsArrow(SpacebarKey)
    ensures MoveStep(k, SpacebarKey) == k && ResizeStep(k, SpacebarKey) == k
    ensures IsExitKey(SpacebarKey)
    ensures forall key :: key != SpacebarKey && key != "Space" ==>
      (IsExitKey(key) <==> IsExitKeyAsWritten(key))
  {
    assert SpacebarKey[0] == ' ';
    assert "Escape"[0] != ' ' && "Enter"[0] != ' ';
    assert "ArrowUp"[0] != ' ' && "ArrowDown"[0] != ' ' && "ArrowLeft"[0] != ' ' && "ArrowRight"[0] != ' ';
  }

  /** Opposite arrows undo each other, in both modes. */
  lemma OppositeStepsCancel(k: KeyboardRect)
    ensures MoveStep(MoveStep(k, "ArrowUp"), "ArrowDown") == k
    ensures MoveStep(MoveStep(k, "ArrowLeft"), "ArrowRight") == k
    ensures ResizeStep(ResizeStep(k, "ArrowUp"), "ArrowDown") == k
    ensures ResizeStep(ResizeStep(k, "ArrowLeft"), "ArrowRight") == k
  {
  }

  /** `n` presses of the same key. */
  function MoveSteps(k: KeyboardRect, key: string, n: nat): KeyboardRect
  {
    if n == 0 then k else MoveStep(MoveSteps(k, key, n - 1), key)
  }

  function ResizeSteps(k: KeyboardRect, key: string, n: nat): KeyboardRect
  {
    if n == 0 then k else ResizeStep(ResizeSteps(k, key, n - 1), key)
  }

  /** `n` presses of ArrowRight in move mode shift both x edges by `n`
      steps and leave the y edges alone; `n` presses of ArrowDown do the
      same along y. */
  lemma {:induction false} MoveStepsShift(k: KeyboardRect, n: nat)
    ensures var r := MoveSteps(k, "ArrowRight", n);
      r == k.(startX := k.startX + n as real * Step, endX := k.endX + n as real * Step)
    ensures var r := MoveSteps(k, "ArrowDown", n);
      r == k.(startY := k.startY + n as real * Step, endY := k.endY + n as real * Step)
  {
    if n > 0 {
      MoveStepsShift(k, n - 1);
    }
  }

  /** `n` presses of ArrowRight in resize mode widen the rectangle by `n`
      steps; the start corner stays put. */
  lemma {:induction false} ResizeStepsWiden(k: KeyboardRect, n: nat)
    ensures var r := ResizeSteps(k, "ArrowRight", n);
      r == k.(endX := k.endX + n as real * Step)
    ensures var r := ResizeSteps(k, "ArrowDown", n);
      r == k.(endY := k.endY + n as real * Step)
  {
    if n > 0 {
      ResizeStepsWiden(k, n - 1);
    }
  }

  /** A key that both handlers hear gives the same rectangle whichever
      handler runs first, so the order in which the two listeners were
      registered does not matter. */
  lemma MoveResizeCommute(k: KeyboardRect, key: string)
    ensures MoveStep(ResizeStep(k, key), key) == ResizeStep(MoveStep(k, key), key)
  {
  }

  /** Nothing keeps the rectangle inside the image or its corners in order:
      from the default rectangle, six presses of ArrowLeft in move mode take
      it past the left edge, and eleven presses of ArrowLeft in resize mode
      put the end corner before the start corner. */
  lemma NoClamping()
    ensures MoveSteps(DefaultRect, "ArrowLeft", 6).startX < 0.0
    ensures var r := ResizeSteps(DefaultRect, "ArrowLeft", 11); r.endX < r.startX
  {
    MoveStepsLeft(DefaultRect, 6);
    ResizeStepsLeft(DefaultRect, 11);
  }

  /** `n` presses of ArrowLeft in move mode shift both x edges back by `n`
      steps and leave the y edges alone; `n` presses of ArrowUp do the same
      along y. */
  lemma {:induction false} MoveStepsLeft(k: KeyboardRect, n: nat)
    ensures var r := MoveSteps(k, "ArrowLeft", n);
      r == k.(startX := k.startX - n as real * Step, endX := k.endX - n as real * Step)
    ensures var r := MoveSteps(k, "ArrowUp", n);
      r == k.(startY := k.startY - n as real * Step, endY := k.endY - n as real * Step)
  {
    if n > 0 {
      MoveStepsLeft(k, n - 1);
    }
  }

  /** `n` presses of ArrowLeft in resize mode move only the end x edge back
      by `n` steps; `n` presses of ArrowUp move only the end y edge. */
  lemma {:induction false} ResizeStepsLeft(k: KeyboardRect, n: nat)
    ensures ResizeSteps(k, "ArrowLeft", n) == k.(endX := k.endX - n as real * Step)
    ensures ResizeSteps(k, "ArrowUp", n) == k.(endY := k.endY - n as real * Step)
  {
    if n > 0 {
      ResizeStepsLeft(k, n - 1);
    }
  }

  /** The viewer's state: the pointer selection's fields as in the
      builder's viewer, the keyboard-mode switch, the rectangle, and the
      move and resize mode flags. As in the builder's viewer, the lock's
      overlay keeps every pointer event away while `locked`. */
  class KeyboardSelector {
    var selection: Selection
    var startValue: Point
    var value: Point
    var locked: bool
    var view: bool
    var selectionReset: bool
    var keyboardEnabled: bool
    var keyboardSelection: KeyboardRect
    var keyboardMove: bool
    var keyboardResize: bool

    /** Mounting: the state's initial values, then the effects in the order
        they are declared. With both modes off the first two commit the
        default rectangle; the drag effect finds both points at the origin;
        a raised reset request clears everything. */
    constructor(initial: Selection, resetRequested: bool)
      ensures !keyboardEnabled && !keyboardMove && !keyboardResize && !view && !locked
      ensures keyboardSelection == DefaultRect
      ensures startValue == Origin && value == Origin && !selectionReset
      ensures resetRequested ==> selection == Cleared
      ensures !resetRequested ==> selection == Commit(DefaultRect)
    {
      selection := initial;
      selectionReset := resetRequested;
      startValue := Origin;
      value := Origin;
      locked := false;
      view := false;
      keyboardEnabled := false;
      keyboardSelection := DefaultRect;
      keyboardMove := false;
      keyboardResize := false;
      new;
      MoveModeEffect();
      ResizeModeEffect();
      DragEffect(false);
      SelectionResetEffect();
    }

    /** The effect on `keyboardMove`: turning it off commits the rectangle;
        turning it on installs the key listener, which `KeyDown` stands
        for. */
    method MoveModeEffect()
      modifies this
      ensures !keyboardMove ==> selection == Commit(keyboardSelection)
      ensures keyboardMove ==> selection == old(selection)
      ensures startValue == old(startValue) && value == old(value) && locked == old(locked)
      ensures view == old(view) && selectionReset == old(selectionReset)
      ensures keyboardEnabled == old(keyboardEnabled) && keyboardSelection == old(keyboardSelection)
      ensures keyboardMove == old(keyboardMove) && keyboardResize == old(keyboardResize)
    {
      if !keyboardMove {
        selection := Corners(true, keyboardSelection.startX, keyboardSelection.startY,
                             keyboardSelection.endX, keyboardSelection.endY);
      }
    }

    /** The effect on `keyboardResize`, alike. */
    method ResizeModeEffect()
      modifies this
      ensures !keyboardResize ==> selection == Commit(keyboardSelection)
      ensures keyboardResize ==> selection == old(selection)
      ensures startValue == old(startValue) && value == old(value) && locked == old(locked)
      ensures view == old(view) && selectionReset == old(selectionReset)
      ensures keyboardEnabled == old(keyboardEnabled) && keyboardSelection == old(keyboardSelection)
      ensures keyboardMove == old(keyboardMove) && keyboardResize == old(keyboardResize)
    {
      if !keyboardResize {
        selection := Corners(true, keyboardSelection.startX, keyboardSelection.startY,
                             keyboardSelection.endX, keyboardSelection.endY);
      }
    }

    /** A `keydown` event reaching the installed listeners: the move
        listener while move mode is on, then the resize listener while
        resize mode is on. Both may be installed at once; an exit key turns
        off the mode whose listener heard it. `keys` chooses the exit
        comparison: `AsWritten` is the program, `Intended` the correction. */
    method KeyDown(key: string, keys: ExitKeys)
      modifies this
      ensures keyboardSelection == (
        var k := if old(keyboardMove) then MoveStep(old(keyboardSelection), key) else old(keyboardSelection);
        if old(keyboardResize) then ResizeStep(k, key) else k)
      ensures keyboardMove == (old(keyboardMove) && !Exits(keys, key))
      ensures keyboardResize == (old(keyboardResize) && !Exits(keys, key))
      ensures selection == old(selection) && startValue == old(startValue) && value == old(value)
      ensures locked == old(locked) && view == old(view) && selectionReset == old(selectionReset)
      ensures keyboardEnabled == old(keyboardEnabled)
    {
      var move, resize := keyboardMove, keyboardResize;
      if move {
        if IsArrow(key) {
          keyboardSelection := MoveStep(keyboardSelection, key);
        } else if Exits(keys, key) {
          keyboardMove := !keyboardMove;
        }
      }
      if resize {
        if IsArrow(key) {
          keyboardSelection := ResizeStep(keyboardSelection, key);
        } else if Exits(keys, key) {
          keyboardResize := !keyboardResize;
        }
      }
    }

    /** A key press followed by the effects of whichever mode flags it
        changed: an arrow key moves or resizes the rectangle in each active
        mode, and an exit key in an active mode leaves that mode and commits
        the rectangle. */
    method PressKey(key: string, keys: ExitKeys)
      modifies this
      ensures keyboardSelection == (
        var k := if old(keyboardMove) then MoveStep(old(keyboardSelection), key) else old(keyboardSelection);
        if old(keyboardResize) then ResizeStep(k, key) else k)
      ensures keyboardMove == (old(keyboardMove) && !Exits(keys, key))
      ensures keyboardResize == (old(keyboardResize) && !Exits(keys, key))
      ensures (old(keyboardMove) || old(keyboardResize)) && Exits(keys, key) ==>
        selection == Commit(keyboardSelection)
      ensures !((old(keyboardMove) || old(keyboardResize)) && Exits(keys, key)) ==>
        selection == old(selection)
      ensures Exits(keys, key) ==> keyboardSelection == old(keyboardSelection)
      ensures startValue == old(startValue) && value == old(value)
      ensures locked == old(locked) && view == old(view) && selectionReset == old(selectionReset)
      ensures keyboardEnabled == old(keyboardEnabled)
    {
      var move, resize := keyboardMove, keyboardResize;
      KeyDown(key, keys);
      if keyboardMove != move {
        MoveModeEffect();
      }
      if keyboardResize != resize {
        ResizeModeEffect();
      }
    }

    /** The move button, shown only while keyboard selection is enabled:
        toggles move mode, and the effect commits the rectangle when the
        mode goes off. */
    method ToggleKeyboardMove()
      requires keyboardEnabled
      modifies this
      ensures keyboardMove == !old(keyboardMove)
      ensures !keyboardMove ==> selection == Commit(keyboardSelection)
      ensures keyboardMove ==> selection == old(selection)
      ensures keyboardSelection == old(keyboardSelection) && keyboardResize == old(keyboardResize)
      ensures startValue == old(startValue) && value == old(value)
      ensures locked == old(locked) && view == old(view) && selectionReset == old(selectionReset)
      ensures keyboardEnabled == old(keyboardEnabled)
    {
      keyboardMove := !keyboardMove;
      MoveModeEffect();
    }

    /** The resize button, alike. */
    method ToggleKeyboardResize()
      requires keyboardEnabled
      modifies this
      ensures keyboardResize == !old(keyboardResize)
      ensures !keyboardResize ==> selection == Commit(keyboardSelection)
      ensures keyboardResize ==> selection == old(selection)
      ensures keyboardSelection == old(keyboardSelection) && keyboardMove == old(keyboardMove)
      ensures startValue == old(startValue) && value == old(value)
      ensures locked == old(locked) && view == old(view) && selectionReset == old(selectionReset)
      ensures keyboardEnabled == old(keyboardEnabled)
    {
      keyboardResize := !keyboardResize;
      ResizeModeEffect();
    }

    /** The "Enable/Disable Keyboard Selection" button; the mode flags and
        their listeners are left as they are. */
    method ToggleKeyboard()
      modifies this
      ensures keyboardEnabled == !old(keyboardEnabled)
      ensures selection == old(selection) && keyboardSelection == old(keyboardSelection)
      ensures keyboardMove == old(keyboardMove) && keyboardResize == old(keyboardResize)
      ensures startValue == old(startValue) && value == old(value)
      ensures locked == old(locked) && view == old(view) && selectionReset == old(selectionReset)
    {
      keyboardEnabled := !keyboardEnabled;
    }

    method MouseDown(mouseX: real, mouseY: real, width: real, height: real)
      requires !locked
      requires width > 0.0 && height > 0.0
      modifies this`startValue
      ensures startValue == Point(mouseX / width, mouseY / height)
    {
      startValue := Point(mouseX / width, mouseY / height);
    }

    method PointerMoved(v: Point)
      requires !locked
      modifies this`value
      ensures value == v
    {
      value := v;
    }

    /** `onMouseUp` writes `{active: true, ...selection}`, the selection
        itself. */
    method MouseUp()
      requires !locked
      modifies this`selection
      ensures selection == old(selection)
    {
      selection := SpreadActive(selection);
    }

    /** The effect on `useMove`'s `active` flag, which does nothing while
        keyboard mode is on; otherwise as in the builder's viewer. */
    method DragEffect(active: bool)
      requires !locked
      modifies this`selection
      ensures keyboardEnabled ==> selection == old(selection)
      ensures !keyboardEnabled && active ==> selection == DragInProgress
      ensures !keyboardEnabled && !active ==> selection == Released(startValue, value, old(selection))
    {
      if !keyboardEnabled {
        if active {
          selection := Box(false, 0.0, 0.0, 0.0, 0.0);
        } else if value.x == 0.0 && value.y == 0.0 && startValue.x == 0.0 && startValue.y == 0.0 {
          return;
        } else {
          selection := Corners(true, startValue.x, startValue.y, value.x, value.y);
        }
      }
    }

    /** `resetSelection`: the selection cleared; in keyboard mode the
        rectangle restored to its default place (now marked active),
        otherwise both pointer points back at the origin; the lock released
        whatever it was. */
    method ResetSelection()
      modifies this
      ensures selection == Cleared && !locked
      ensures keyboardEnabled ==>
        (keyboardSelection == ResetRect && startValue == old(startValue) && value == old(value))
      ensures !keyboardEnabled ==>
        (startValue == Origin && value == Origin && keyboardSelection == old(keyboardSelection))
      ensures keyboardEnabled == old(keyboardEnabled) && keyboardMove == old(keyboardMove)
      ensures keyboardResize == old(keyboardResize)
      ensures view == old(view) && selectionReset == old(selectionReset)
    {
      selection := Corners(false, 0.0, 0.0, 0.0, 0.0);
      if keyboardEnabled {
        keyboardSelection := KeyboardRect(true, 0.05, 0.05, 0.15, 0.15);
      } else {
        startValue := Point(0.0, 0.0);
        value := Point(0.0, 0.0);
      }
      if locked {
        locked := !locked;
      }
    }

    method ToggleLock()
      modifies this`locked
      ensures locked == !old(locked)
    {
      locked := !locked;
    }

    method ToggleView()
      modifies this`view
      ensures view == !old(view)
    {
      view := !view;
    }

    /** The effect on the parent's `selectionReset` flag: a raised flag
        resets and is lowered again. */
    method SelectionResetEffect()
      modifies this
      ensures !selectionReset
      ensures old(selectionReset) ==> (selection == Cleared && !locked)
      ensures old(selectionReset) && keyboardEnabled ==>
        (keyboardSelection == ResetRect && startValue == old(startValue) && value == old(value))
      ensures old(selectionReset) && !keyboardEnabled ==>
        (startValue == Origin && value == Origin && keyboardSelection == old(keyboardSelection))
      ensures !old(selectionReset) ==>
        (selection == old(selection) && locked == old(locked) && startValue == old(startValue)
         && value == old(value) && keyboardSelection == old(keyboardSelection))
      ensures keyboardEnabled == old(keyboardEnabled) && keyboardMove == old(keyboardMove)
      ensures keyboardResize == old(keyboardResize) && view == old(view)
    {
      if selectionReset {
        ResetSelection();
        selectionReset := false;
      }
    }
  }

  /** From the mounted viewer, with keyboard selection enabled, move mode
      switched on and the rectangle moved one step right, a spacebar press:
      with the handlers as written move mode stays on and the selection
      still holds the rectangle committed at mount; with the intended
      comparison move mode is left and the moved rectangle is committed. */
  method SpacebarInMoveMode(keys: ExitKeys) returns (moving: bool, committed: Selection)
    ensures moving <==> keys == AsWritten
    ensures keys == AsWritten ==> committed == Commit(DefaultRect)
    ensures keys == Intended ==> committed == Commit(DefaultRect.(startX := 0.06, endX := 0.16))
  {
    var v := new KeyboardSelector(Cleared, false);
    v.ToggleKeyboard();
    v.ToggleKeyboardMove();
    v.PressKey("ArrowRight", keys);
    v.PressKey(SpacebarKey, keys);
    moving := v.keyboardMove;
    committed := v.selection;
  }
}
