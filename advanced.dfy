/** Chapter 6: four small views. ActionDemo is a counter driven by actions and a
    key map; AsyncDemo runs a ten-step simulated load that can be cancelled;
    FocusDemo cycles keyboard focus over four areas; GlobalDemo reads and toggles
    an app-wide theme flag. Action dispatch is modelled as a direct call to the
    handler, and the window's focus state is handed to the views as a value. */
module Advanced {
  import opened BoundedLog
  import opened Wrappers

  // ---------------------------------------------------------------------------
  // Actions
  // ---------------------------------------------------------------------------

  /** The actions the app declares. */
  datatype Action = Increment | Decrement | Reset | ToggleTheme

  /** The action log keeps at most this many lines. */
  const ActionLogCap: nat := 5

  /** A line of the action log: "Increment → 3", "Reset → 0", "Digit key → 7". */
  datatype ActionLogEntry =
    | AwaitingAction
    | Incremented(count: int)
    | Decremented(count: int)
    | ResetToZero
    | DigitPressed(digit: int)

  /** What a key press in the action area does. */
  datatype KeyEffect = Dispatch(action: Action) | SetCount(digit: nat) | NoEffect

  /** True of the ten digit keys "0" to "9". */
  predicate IsDigitKey(key: string)
  {
    |key| == 1 && '0' <= key[0] <= '9'
  }

  /** The key map of the action area: the up/down arrows and the vi keys k/j step the count, "r" resets
      it, a digit key sets the count to that digit, and every other key is ignored. */
  function KeyEffectOf(key: string): (r: KeyEffect)
    ensures r == Dispatch(Increment) <==> key == "up" || key == "k"
    ensures r == Dispatch(Decrement) <==> key == "down" || key == "j"
    ensures r == Dispatch(Reset) <==> key == "r"
    ensures r != Dispatch(ToggleTheme)
    ensures r.SetCount? <==> IsDigitKey(key)
    ensures r.SetCount? ==> r.digit <= 9 && key == [('0' as int + r.digit) as char]
  {
    if key == "up" || key == "k" then Dispatch(Increment)
    else if key == "down" || key == "j" then Dispatch(Decrement)
    else if key == "r" then Dispatch(Reset)
    else if IsDigitKey(key) then SetCount(key[0] as int - '0' as int)
    else NoEffect
  }

  /** A counter whose changes are logged in a five-line log. */
  class ActionDemo {
    var count: int
    var actionLog: seq<ActionLogEntry>

    /** The log is never empty (it starts with a placeholder) and never over its cap. */
    ghost predicate Valid()
      reads this
    {
      0 < |actionLog| <= ActionLogCap
    }

    constructor ()
      ensures Valid()
      ensures count == 0 && actionLog == [AwaitingAction]
    {
      count := 0;
      actionLog := [AwaitingAction];
    }

    /** Appends `entry` and drops the oldest line once there are more than five. */
    method LogAction(entry: ActionLogEntry)
      requires Valid()
      modifies this`actionLog
      ensures Valid()
      ensures actionLog == Push(old(actionLog), entry, ActionLogCap)
    {
      actionLog := actionLog + [entry];
      if |actionLog| > ActionLogCap {
        actionLog := actionLog[1..];
      }
    }

    method HandleIncrement()
      requires Valid()
      modifies this
      ensures Valid()
      ensures count == old(count) + 1
      ensures actionLog == Push(old(actionLog), Incremented(count), ActionLogCap)
    {
      count := count + 1;
      LogAction(Incremented(count));
    }

    method HandleDecrement()
      requires Valid()
      modifies this
      ensures Valid()
      ensures count == old(count) - 1
      ensures actionLog == Push(old(actionLog), Decremented(count), ActionLogCap)
    {
      count := count - 1;
      LogAction(Decremented(count));
    }

    method HandleReset()
      requires Valid()
      modifies this
      ensures Valid()
      ensures count == 0
      ensures actionLog == Push(old(actionLog), ResetToZero, ActionLogCap)
    {
      count := 0;
      LogAction(ResetToZero);
    }

    /** An action dispatched to this view; it registers no handler for ToggleTheme. */
    method DispatchAction(action: Action)
      requires Valid()
      modifies this
      ensures Valid()
      ensures action == Increment ==>
        count == old(count) + 1 && actionLog == Push(old(actionLog), Incremented(count), ActionLogCap)
      ensures action == Decrement ==>
        count == old(count) - 1 && actionLog == Push(old(actionLog), Decremented(count), ActionLogCap)
      ensures action == Reset ==>
        count == 0 && actionLog == Push(old(actionLog), ResetToZero, ActionLogCap)
      ensures action == ToggleTheme ==> count == old(count) && actionLog == old(actionLog)
    {
      match action
      case Increment => HandleIncrement();
      case Decrement => HandleDecrement();
      case Reset => HandleReset();
      case ToggleTheme =>
    }

    /** A key press while the action area has focus. */
    method OnKeyDown(key: string)
      requires Valid()
      modifies this
      ensures Valid()
      ensures (key == "up" || key == "k") ==>
        count == old(count) + 1 && actionLog == Push(old(actionLog), Incremented(count), ActionLogCap)
      ensures (key == "down" || key == "j") ==>
        count == old(count) - 1 && actionLog == Push(old(actionLog), Decremented(count), ActionLogCap)
      ensures key == "r" ==> count == 0 && actionLog == Push(old(actionLog), ResetToZero, ActionLogCap)
      ensures IsDigitKey(key) ==> count == key[0] as int - '0' as int
      ensures IsDigitKey(key) ==> actionLog == Push(old(actionLog), DigitPressed(count), ActionLogCap)
      ensures KeyEffectOf(key) == NoEffect ==> count == old(count) && actionLog == old(actionLog)
    {
      match KeyEffectOf(key)
      case Dispatch(action) => DispatchAction(action);
      case SetCount(digit) =>
        count := digit;
        LogAction(DigitPressed(digit));
      case NoEffect =>
    }
  }

  // ---------------------------------------------------------------------------
  // Async loading
  // ---------------------------------------------------------------------------

  /** The number of progress steps of the simulated load. */
  const LoadSteps: nat := 10

  /** The result line: the load finished at a given clock reading, or was cancelled. */
  datatype LoadResult = Loaded(finishedAt: int) | Cancelled

  /** The spawned task the view holds: none, running with some steps done, or done. */
  datatype TaskState = NoTask | Running(stepsDone: nat) | Finished

  class AsyncDemo {
    var loading: bool
    var result: Option<LoadResult>
    var progress: int
    var task: TaskState

    /** Progress stays within 0..100; the view is loading exactly while a task runs,
        and a running task's progress is ten per step done, with no result yet. */
    ghost predicate Valid()
      reads this
    {
      0 <= progress <= 100 &&
      (loading <==> task.Running?) &&
      (task.Running? ==> task.stepsDone < LoadSteps && progress == task.stepsDone * 10 && result == None)
    }

    constructor ()
      ensures Valid()
      ensures !loading && result == None && progress == 0 && task == NoTask
    {
      loading := false;
      result := None;
      progress := 0;
      task := NoTask;
    }

    /** Starts a fresh load; the previous task, if any, is dropped. */
    method StartLoading()
      requires Valid()
      modifies this
      ensures Valid()
      ensures loading && progress == 0 && result == None && task == Running(0)
    {
      loading := true;
      progress := 0;
      result := None;
      task := Running(0);
    }

    /** Drops the task, which stops it, and shows "cancelled". */
    method CancelLoading()
      requires Valid()
      modifies this
      ensures Valid()
      ensures !loading && progress == 0 && result == Some(Cancelled) && task == NoTask
    {
      task := NoTask;
      loading := false;
      progress := 0;
      result := Some(Cancelled);
    }

    /** One wake-up of the spawned task after its timer: step i sets progress to
        i * 10, and the tenth step also finishes the load. A task that was dropped
        never wakes up, so nothing changes then. */
    method Resume(now: int)
      requires Valid()
      modifies this
      ensures Valid()
      ensures !old(task).Running? ==> loading == old(loading) && result == old(result) && progress == old(progress) && task == old(task)
      ensures old(task).Running? ==> progress == (old(task).stepsDone + 1) * 10 && progress > old(progress)
      ensures old(task).Running? && old(task).stepsDone + 1 < LoadSteps ==> task == Running(old(task).stepsDone + 1) && loading
      ensures old(task).Running? && old(task).stepsDone + 1 == LoadSteps ==>
        progress == 100 && !loading && result == Some(Loaded(now)) && task == Finished
    {
      if task.Running? {
        var i := task.stepsDone + 1;
        progress := i * 10;
        if i < LoadSteps {
          task := Running(i);
        } else {
          loading := false;
          result := Some(Loaded(now));
          task := Finished;
        }
      }
    }

    /** The spawned task's loop `for i in 1..=10` run to the end with no cancel in
        between: progress climbs by ten per step and the load finishes. */
    method RunToCompletion(now: int)
      requires Valid() && task == Running(0)
      modifies this
      ensures Valid()
      ensures progress == 100 && !loading && result == Some(Loaded(now)) && task == Finished
    {
      for i := 1 to LoadSteps + 1
        invariant Valid()
        invariant i <= LoadSteps ==> task == Running(i - 1) && progress == (i - 1) * 10
        invariant i == LoadSteps + 1 ==> progress == 100 && result == Some(Loaded(now)) && task == Finished
      {
        Resume(now);
      }
    }

    /** The "start" button only reacts while no load is running. */
    method ClickStart()
      requires Valid()
      modifies this
      ensures Valid()
      ensures old(loading) ==> loading && progress == old(progress) && result == old(result) && task == old(task)
      ensures !old(loading) ==> loading && progress == 0 && result == None && task == Running(0)
    {
      if !loading {
        StartLoading();
      }
    }

    /** The "cancel" button only reacts while a load is running. */
    method ClickCancel()
      requires Valid()
      modifies this
      ensures Valid()
      ensures !old(loading) ==> !loading && progress == old(progress) && result == old(result) && task == old(task)
      ensures old(loading) ==> !loading && progress == 0 && result == Some(Cancelled) && task == NoTask
    {
      if loading {
        CancelLoading();
      }
    }
  }

  // ---------------------------------------------------------------------------
  // Focus
  // ---------------------------------------------------------------------------

  /** The number of focusable areas. */
  const AreaCount: nat := 4

  /** The focus log keeps at most this many lines. */
  const FocusLogCap: nat := 5

  /** A line of the focus log: "focused area n", numbered from 1. */
  datatype FocusLogEntry = AwaitingFocus | FocusedArea(number: nat)

  /** The area that "next" moves to among `n`: the one after the focused one,
      wrapping from the last to the first, or the first when none is focused. */
  function NextArea(current: Option<nat>, n: nat): (r: nat)
    requires n > 0
    ensures r < n
    ensures current == None ==> r == 0
    ensures current.Some? && current.value + 1 < n ==> r == current.value + 1
    ensures current == Some(n - 1) ==> r == 0
  {
    match current
    case Some(i) => (i + 1) % n
    case None => 0
  }

  /** The area that "previous" moves to among `n`: the one before the focused one,
      wrapping from the first to the last, or the last when none is focused. */
  function PrevArea(current: Option<nat>, n: nat): (r: nat)
    requires n > 0
    requires current.Some? ==> current.value < n
    ensures r < n
    ensures current == None ==> r == n - 1
    ensures current == Some(0) ==> r == n - 1
    ensures current.Some? && current.value > 0 ==> r == current.value - 1
  {
    match current
    case Some(i) => if i == 0 then n - 1 else i - 1
    case None => n - 1
  }

  /** "Previous" undoes "next" and "next" undoes "previous" on a focused area. */
  lemma PrevUndoesNext(i: nat, n: nat)
    requires i < n
    ensures PrevArea(Some(NextArea(Some(i), n)), n) == i
    ensures NextArea(Some(PrevArea(Some(i), n)), n) == i
  {
  }

  /** The index of the first area the window reports as focused, if any. */
  function FirstFocused(isFocused: seq<bool>): (r: Option<nat>)
    ensures r.Some? ==> r.value < |isFocused| && isFocused[r.value]
    ensures r.Some? ==> forall j :: 0 <= j < r.value ==> !isFocused[j]
    ensures r == None <==> forall j :: 0 <= j < |isFocused| ==> !isFocused[j]
  {
    if isFocused == [] then None
    else if isFocused[0] then Some(0)
    else match FirstFocused(isFocused[1..])
      case Some(k) => Some(k + 1)
      case None => None
  }

  class FocusDemo {
    var focusedIndex: Option<nat>
    var focusLog: seq<FocusLogEntry>

    ghost predicate Valid()
      reads this
    {
      (focusedIndex.Some? ==> focusedIndex.value < AreaCount) &&
      0 < |focusLog| <= FocusLogCap
    }

    constructor ()
      ensures Valid()
      ensures focusedIndex == None && focusLog == [AwaitingFocus]
    {
      focusedIndex := None;
      focusLog := [AwaitingFocus];
    }

    method LogFocus(entry: FocusLogEntry)
      requires Valid()
      modifies this`focusLog
      ensures Valid()
      ensures focusLog == Push(old(focusLog), entry, FocusLogCap)
    {
      focusLog := focusLog + [entry];
      if |focusLog| > FocusLogCap {
        focusLog := focusLog[1..];
      }
    }

    /** The area "next" asks the window to focus. */
    method FocusNext() returns (target: nat)
      requires Valid()
      ensures target < AreaCount
      ensures target == NextArea(focusedIndex, AreaCount)
    {
      target := NextArea(focusedIndex, AreaCount);
    }

    /** The area "previous" asks the window to focus. */
    method FocusPrev() returns (target: nat)
      requires Valid()
      ensures target < AreaCount
      ensures target == PrevArea(focusedIndex, AreaCount)
    {
      target := PrevArea(focusedIndex, AreaCount);
    }

    /** A key press in a focus area: the area it asks the window to focus, if any.
        Tab moves forward, shift-tab back, right/down forward, left/up back. */
    method OnAreaKeyDown(key: string, shift: bool) returns (target: Option<nat>)
      requires Valid()
      ensures target.Some? ==> target.value < AreaCount
      ensures (key == "tab" && !shift) || key == "right" || key == "down" ==>
        target == Some(NextArea(focusedIndex, AreaCount))
      ensures (key == "tab" && shift) || key == "left" || key == "up" ==>
        target == Some(PrevArea(focusedIndex, AreaCount))
      ensures key !in {"tab", "right", "down", "left", "up"} ==> target == None
    {
      if key == "tab" {
        var t;
        if shift { t := FocusPrev(); } else { t := FocusNext(); }
        target := Some(t);
      } else if key == "right" || key == "down" {
        var t := FocusNext();
        target := Some(t);
      } else if key == "left" || key == "up" {
        var t := FocusPrev();
        target := Some(t);
      } else {
        target := None;
      }
    }

    /** The start of each render: the focused index becomes the first area the
        window reports as focused, and a change onto an area is logged. */
    method SyncFocus(isFocused: seq<bool>)
      requires Valid()
      requires |isFocused| == AreaCount
      modifies this
      ensures Valid()
      ensures focusedIndex == FirstFocused(isFocused)
      ensures focusLog ==
        if focusedIndex != old(focusedIndex) && focusedIndex.Some?
        then Push(old(focusLog), FocusedArea(focusedIndex.value + 1), FocusLogCap)
        else old(focusLog)
    {
      var newFocused: Option<nat> := None;
      var i := 0;
      while i < |isFocused|
        invariant 0 <= i <= |isFocused|
        invariant forall j :: 0 <= j < i ==> !isFocused[j]
        decreases |isFocused| - i
      {
        if isFocused[i] {
          newFocused := Some(i);
          break;
        }
        i := i + 1;
      }
      assert newFocused == FirstFocused(isFocused);
      if newFocused != focusedIndex {
        if newFocused.Some? {
          LogFocus(FocusedArea(newFocused.value + 1));
        }
        focusedIndex := newFocused;
      }
    }
  }

  // ---------------------------------------------------------------------------
  // Global theme
  // ---------------------------------------------------------------------------

  /** The app-wide theme, stored once per app under its type. */
  datatype ThemeState = ThemeState(isDark: bool)

  /** The app's store of globals, holding the theme if one has been set. */
  class Globals {
    var theme: Option<ThemeState>

    constructor ()
      ensures theme == None
    {
      theme := None;
    }

    /** `try_global` read with an absent theme counting as light. */
    function IsDark(): (r: bool)
      reads this
      ensures r <==> theme == Some(ThemeState(true))
    {
      match theme
      case Some(t) => t.isDark
      case None => false
    }

    method SetTheme(t: ThemeState)
      modifies this
      ensures theme == Some(t)
    {
      theme := Some(t);
    }

    /** The toggle button: stores the negation of the current reading. */
    method Toggle()
      modifies this
      ensures theme == Some(ThemeState(!old(IsDark())))
      ensures IsDark() == !old(IsDark())
    {
      var current := IsDark();
      SetTheme(ThemeState(!current));
    }
  }

  /** Two toggles bring back the theme reading, whether or not one was set. */
  method ToggleTwice(globals: Globals)
    modifies globals
    ensures globals.IsDark() == old(globals.IsDark())
    ensures globals.theme.Some?
  {
    globals.Toggle();
    globals.Toggle();
  }

  /** The view that reads the global theme and keeps a local count of its own. */
  class GlobalDemo {
    var localCount: int

    constructor ()
      ensures localCount == 0
    {
      localCount := 0;
    }

    method IncrementLocal()
      modifies this
      ensures localCount == old(localCount) + 1
    {
      localCount := localCount + 1;
    }
  }

  /** The root view: it sets the theme to light before creating the four demos. */
  class AdvancedApp {
    var globals: Globals
    var actionDemo: ActionDemo
    var asyncDemo: AsyncDemo
    var focusDemo: FocusDemo
    var globalDemo: GlobalDemo

    constructor (globals: Globals)
      modifies globals
      ensures this.globals == globals && globals.theme == Some(ThemeState(false))
      ensures !globals.IsDark()
      ensures fresh(actionDemo) && fresh(asyncDemo) && fresh(focusDemo) && fresh(globalDemo)
      ensures actionDemo.Valid() && actionDemo.count == 0 && actionDemo.actionLog == [AwaitingAction]
      ensures asyncDemo.Valid() && !asyncDemo.loading && asyncDemo.progress == 0
      ensures asyncDemo.result == None && asyncDemo.task == NoTask
      ensures focusDemo.Valid() && focusDemo.focusedIndex == None && focusDemo.focusLog == [AwaitingFocus]
      ensures globalDemo.localCount == 0
    {
      globals.SetTheme(ThemeState(false));
      this.globals := globals;
      actionDemo := new ActionDemo();
      asyncDemo := new AsyncDemo();
      focusDemo := new FocusDemo();
      globalDemo := new GlobalDemo();
    }
  }
}
