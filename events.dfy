/** Chapter 5: the bookkeeping behind five input demos. A mouse tracker and a
    button count clicks; a keyboard area keeps a ten-key history and the list of
    keys held down; a scroll area counts wheel events and sums their deltas; a row
    of five colour blocks tracks which one the pointer is over. */
module Events {
  import opened BoundedLog
  import opened Wrappers

  // ---------------------------------------------------------------------------
  // Mouse tracker and button
  // ---------------------------------------------------------------------------

  /** The tracker's last-event line: "pressed", "released" or "click #n". */
  datatype TrackerLine = AwaitingMouse | PressedLine | ReleasedLine | ClickLine(number: int)

  class MouseTracker {
    var isPressing: bool
    var clickCount: int
    var lastEvent: TrackerLine

    constructor ()
      ensures !isPressing && clickCount == 0 && lastEvent == AwaitingMouse
    {
      isPressing := false;
      clickCount := 0;
      lastEvent := AwaitingMouse;
    }

    method OnMouseDown()
      modifies this
      ensures isPressing && lastEvent == PressedLine && clickCount == old(clickCount)
    {
      isPressing := true;
      lastEvent := PressedLine;
    }

    method OnMouseUp()
      modifies this
      ensures !isPressing && lastEvent == ReleasedLine && clickCount == old(clickCount)
    {
      isPressing := false;
      lastEvent := ReleasedLine;
    }

    /** Each click counts once and is reported with its new number. */
    method OnClick()
      modifies this
      ensures clickCount == old(clickCount) + 1
      ensures lastEvent == ClickLine(clickCount)
      ensures isPressing == old(isPressing)
    {
      clickCount := clickCount + 1;
      lastEvent := ClickLine(clickCount);
    }
  }

  datatype MouseButton = LeftButton | RightButton | MiddleButton

  /** The modifier keys held during a click. */
  datatype Modifiers = Modifiers(control: bool, shift: bool, alt: bool)

  /** The button demo's last-event line. */
  datatype ButtonLine = AwaitingButton | ClickedLine | ButtonDownLine(button: MouseButton)

  class ButtonDemo {
    var clickCount: int
    var lastEvent: ButtonLine
    /** The modifier line, empty until the first click. */
    var modifiersInfo: Option<Modifiers>

    constructor ()
      ensures clickCount == 0 && lastEvent == AwaitingButton && modifiersInfo == None
    {
      clickCount := 0;
      lastEvent := AwaitingButton;
      modifiersInfo := None;
    }

    /** A click on the main button counts once and records its modifiers. */
    method OnMainClick(modifiers: Modifiers)
      modifies this
      ensures clickCount == old(clickCount) + 1
      ensures lastEvent == ClickedLine && modifiersInfo == Some(modifiers)
    {
      clickCount := clickCount + 1;
      lastEvent := ClickedLine;
      modifiersInfo := Some(modifiers);
    }

    /** A press on one of the three mouse-button blocks; no click is counted. */
    method OnButtonDown(button: MouseButton)
      modifies this`lastEvent
      ensures lastEvent == ButtonDownLine(button)
    {
      lastEvent := ButtonDownLine(button);
    }
  }

  // ---------------------------------------------------------------------------
  // Keyboard
  // ---------------------------------------------------------------------------

  /** A key as the keyboard area prints it ("a", "shift-tab", ...). */
  type Keystroke = string

  /** The key history keeps at most this many keys. */
  const KeyHistoryCap: nat := 10

  predicate NoDuplicates<T(==)>(s: seq<T>)
  {
    forall i, j :: 0 <= i < j < |s| ==> s[i] != s[j]
  }

  /** `r` is `s` with some elements left out and the rest in their order. */
  predicate IsSubsequence<T(==)>(r: seq<T>, s: seq<T>)
    decreases |s|
  {
    if r == [] then true
    else if s == [] then false
    else (r[0] == s[0] && IsSubsequence(r[1..], s[1..])) || IsSubsequence(r, s[1..])
  }

  /** The held keys after a key-up: every copy of `key` removed, the rest kept in order. */
  function Without(keys: seq<Keystroke>, key: Keystroke): (r: seq<Keystroke>)
    ensures forall k :: k in r <==> k in keys && k != key
    ensures IsSubsequence(r, keys)
    ensures NoDuplicates(keys) ==> NoDuplicates(r)
    ensures key !in keys ==> r == keys
  {
    if keys == [] then []
    else if keys[0] == key then Without(keys[1..], key)
    else
      var rest := Without(keys[1..], key);
      assert NoDuplicates(keys) ==> NoDuplicates([keys[0]] + rest) by {
        if NoDuplicates(keys) {
          NoDuplicatesTail(keys);
          NoDuplicatesCons(keys[0], rest);
        }
      }
      [keys[0]] + rest
  }

  lemma NoDuplicatesTail<T>(s: seq<T>)
    requires |s| > 0 && NoDuplicates(s)
    ensures s[0] !in s[1..] && NoDuplicates(s[1..])
  {
  }

  lemma NoDuplicatesCons<T>(x: T, s: seq<T>)
    requires x !in s && NoDuplicates(s)
    ensures NoDuplicates([x] + s)
  {
  }

  /** Releasing a key that was pressed while not held gives back the held keys as
      they were before the press. */
  lemma {:induction false} ReleaseUndoesPress(held: seq<Keystroke>, key: Keystroke)
    requires key !in held
    ensures Without(held + [key], key) == held
  {
    if held == [] {
      assert [] + [key] == [key];
    } else {
      assert (held + [key])[1..] == held[1..] + [key];
      ReleaseUndoesPress(held[1..], key);
    }
  }

  class KeyboardDemo {
    var keyHistory: seq<Keystroke>
    var heldKeys: seq<Keystroke>

    /** The history stays within ten keys and no key is listed as held twice. */
    ghost predicate Valid()
      reads this
    {
      |keyHistory| <= KeyHistoryCap && NoDuplicates(heldKeys)
    }

    constructor ()
      ensures Valid() && keyHistory == [] && heldKeys == []
    {
      keyHistory := [];
      heldKeys := [];
    }

    /** Appends `key` and drops the oldest key once there are more than ten. */
    method AddKey(key: Keystroke)
      requires Valid()
      modifies this`keyHistory
      ensures Valid()
      ensures keyHistory == Push(old(keyHistory), key, KeyHistoryCap)
    {
      keyHistory := keyHistory + [key];
      if |keyHistory| > KeyHistoryCap {
        keyHistory := keyHistory[1..];
      }
    }

    /** A key-down: a repeat from a held key changes nothing; a fresh press goes
        into the history and onto the held list unless it is already there. */
    method OnKeyDown(key: Keystroke, isHeld: bool)
      requires Valid()
      modifies this
      ensures Valid()
      ensures isHeld ==> keyHistory == old(keyHistory) && heldKeys == old(heldKeys)
      ensures !isHeld ==> keyHistory == Push(old(keyHistory), key, KeyHistoryCap)
      ensures !isHeld ==> heldKeys == if key in old(heldKeys) then old(heldKeys) else old(heldKeys) + [key]
    {
      if !isHeld {
        AddKey(key);
        if key !in heldKeys {
          heldKeys := heldKeys + [key];
        }
      }
    }

    /** A key-up: the key leaves the held list; the history is untouched. */
    method OnKeyUp(key: Keystroke)
      requires Valid()
      modifies this`heldKeys
      ensures Valid()
      ensures heldKeys == Without(old(heldKeys), key)
      ensures key !in heldKeys
    {
      heldKeys := Without(heldKeys, key);
    }
  }

  // ---------------------------------------------------------------------------
  // Scroll wheel
  // ---------------------------------------------------------------------------

  class ScrollWheelDemo {
    var scrollDeltaX: real
    var scrollDeltaY: real
    var scrollCount: int

    constructor ()
      ensures scrollDeltaX == 0.0 && scrollDeltaY == 0.0 && scrollCount == 0
    {
      scrollDeltaX, scrollDeltaY := 0.0, 0.0;
      scrollCount := 0;
    }

    /** Each wheel event counts once and adds its pixel delta to the running sum. */
    method OnScrollWheel(dx: real, dy: real)
      modifies this
      ensures scrollCount == old(scrollCount) + 1
      ensures scrollDeltaX == old(scrollDeltaX) + dx && scrollDeltaY == old(scrollDeltaY) + dy
    {
      scrollCount := scrollCount + 1;
      scrollDeltaX := scrollDeltaX + dx;
      scrollDeltaY := scrollDeltaY + dy;
    }

    method Reset()
      modifies this
      ensures scrollDeltaX == 0.0 && scrollDeltaY == 0.0 && scrollCount == 0
    {
      scrollDeltaX, scrollDeltaY := 0.0, 0.0;
      scrollCount := 0;
    }
  }

  // ---------------------------------------------------------------------------
  // Hover
  // ---------------------------------------------------------------------------

  /** The number of colour blocks. */
  const HoverItemCount: nat := 5

  class HoverDemo {
    var hoveredIndex: Option<nat>
    var hoverCount: int

    ghost predicate Valid()
      reads this
    {
      (hoveredIndex.Some? ==> hoveredIndex.value < HoverItemCount) && hoverCount >= 0
    }

    constructor ()
      ensures Valid() && hoveredIndex == None && hoverCount == 0
    {
      hoveredIndex := None;
      hoverCount := 0;
    }

    /** The pointer moves over block `i`: entering it counts one hover, moving
        within it counts nothing. */
    method OnItemMouseMove(i: nat)
      requires Valid() && i < HoverItemCount
      modifies this
      ensures Valid()
      ensures hoveredIndex == Some(i)
      ensures hoverCount == if old(hoveredIndex) == Some(i) then old(hoverCount) else old(hoverCount) + 1
    {
      if hoveredIndex != Some(i) {
        hoveredIndex := Some(i);
        hoverCount := hoverCount + 1;
      }
    }

    /** The pointer moves over the clear area: nothing is hovered, and no hover counted. */
    method OnClearMouseMove()
      requires Valid()
      modifies this`hoveredIndex
      ensures Valid()
      ensures hoveredIndex == None
    {
      if hoveredIndex.Some? {
        hoveredIndex := None;
      }
    }
  }
}
