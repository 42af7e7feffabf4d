/** Chapter 3: a parent view that owns two child counters and a total display.
    Each child emits a CounterChangedEvent when it changes; the parent's
    subscription handler counts the event, logs it in a five-entry log and adds
    its delta to the display's total. The parent can also reset everything and
    copy counter A's value into counter B, neither of which emits an event. */
module StateManagement {
  import opened BoundedLog

  /** The parent keeps at most this many event-log lines. */
  const EventLogCap: nat := 5

  /** Which child a handler was subscribed to. */
  datatype Side = A | B

  /** The payload a child emits after every change of its count. */
  datatype CounterChangedEvent = CounterChangedEvent(newValue: int, delta: int)

  /** A line of the parent's event log: "A: 3 (+1)" or "Sync: B <- A (3)". */
  datatype LogEntry = CounterLine(side: Side, newValue: int, delta: int) | SyncLine(value: int)

  /** What the total display shows as its last change. */
  datatype LastChange = AwaitingChange | Changed(side: Side, delta: int) | WasReset

  /** The sum of a sequence of deltas, first to last. */
  function Sum(deltas: seq<int>): int
  {
    if deltas == [] then 0 else deltas[0] + Sum(deltas[1..])
  }

  /** Receiving one more delta adds it to the running sum. */
  lemma {:induction false} SumAppend(deltas: seq<int>, d: int)
    ensures Sum(deltas + [d]) == Sum(deltas) + d
  {
    if deltas != [] {
      assert (deltas + [d])[1..] == deltas[1..] + [d];
      SumAppend(deltas[1..], d);
    }
  }

  /** When every received delta is +1 or -1 (the only deltas a child emits), the
      total can be no further from zero than the number of changes counted. */
  lemma {:induction false} SumOfUnitDeltasBounded(deltas: seq<int>)
    requires forall i :: 0 <= i < |deltas| ==> deltas[i] == 1 || deltas[i] == -1
    ensures -|deltas| <= Sum(deltas) <= |deltas|
  {
    if deltas != [] {
      SumOfUnitDeltasBounded(deltas[1..]);
    }
  }

  /** A child counter: its own count, changed by its "+" and "-" buttons. */
  class ChildCounter {
    var count: int

    constructor (initialCount: int)
      ensures count == initialCount
    {
      count := initialCount;
    }

    /** Adds one and returns the event it emits to its subscribers. */
    method Increment() returns (event: CounterChangedEvent)
      modifies this
      ensures count == old(count) + 1
      ensures event.newValue == count && event.delta == 1
    {
      count := count + 1;
      event := CounterChangedEvent(count, 1);
    }

    /** Subtracts one and returns the event it emits to its subscribers. */
    method Decrement() returns (event: CounterChangedEvent)
      modifies this
      ensures count == old(count) - 1
      ensures event.newValue == count && event.delta == -1
    {
      count := count - 1;
      event := CounterChangedEvent(count, -1);
    }
  }

  /** The display the parent forwards every delta to. */
  class TotalDisplay {
    var total: int
    var lastChange: LastChange

    constructor ()
      ensures total == 0 && lastChange == AwaitingChange
    {
      total := 0;
      lastChange := AwaitingChange;
    }
  }

  /** The parent view: owns both children and the display, and relays events. */
  class StateManagementApp {
    var counterA: ChildCounter
    var counterB: ChildCounter
    var totalDisplay: TotalDisplay
    var totalChanges: int
    var eventLog: seq<LogEntry>
    /** The deltas of the counter events received since construction or the last reset. */
    ghost var received: seq<int>

    /** The accounting invariant: the display's total is the sum of the deltas
        received since the last reset, every one of them was counted, and each was
        +1 or -1, so the total is never further from zero than the change count. */
    ghost predicate Valid()
      reads this, counterA, counterB, totalDisplay
    {
      counterA != counterB &&
      totalDisplay.total == Sum(received) &&
      totalChanges == |received| &&
      (forall i :: 0 <= i < |received| ==> received[i] == 1 || received[i] == -1) &&
      -totalChanges <= totalDisplay.total <= totalChanges &&
      |eventLog| <= EventLogCap
    }

    /** The child a handler for `side` is subscribed to. */
    function Counter(side: Side): ChildCounter
      reads this
    {
      if side == A then counterA else counterB
    }

    constructor ()
      ensures Valid()
      ensures fresh(counterA) && fresh(counterB) && fresh(totalDisplay)
      ensures counterA.count == 0 && counterB.count == 10
      ensures totalDisplay.total == 0 && totalDisplay.lastChange == AwaitingChange
      ensures totalChanges == 0 && eventLog == [] && received == []
    {
      counterA := new ChildCounter(0);
      counterB := new ChildCounter(10);
      totalDisplay := new TotalDisplay();
      totalChanges := 0;
      eventLog := [];
      received := [];
    }

    /** The subscription handler for `side`: counts the event, logs it and forwards
        its delta to the total display. The children are not touched. Its only
        senders, Increment and Decrement, emit deltas of +1 and -1. */
    method OnCounterChanged(side: Side, event: CounterChangedEvent)
      requires Valid()
      requires event.delta == 1 || event.delta == -1
      modifies this`totalChanges, this`eventLog, this`received, totalDisplay
      ensures Valid()
      ensures totalChanges == old(totalChanges) + 1
      ensures eventLog == Push(old(eventLog), CounterLine(side, event.newValue, event.delta), EventLogCap)
      ensures totalDisplay.total == old(totalDisplay.total) + event.delta
      ensures totalDisplay.lastChange == Changed(side, event.delta)
      ensures received == old(received) + [event.delta]
    {
      totalChanges := totalChanges + 1;
      eventLog := eventLog + [CounterLine(side, event.newValue, event.delta)];
      if |eventLog| > EventLogCap {
        eventLog := eventLog[1..];
      }
      totalDisplay.total := totalDisplay.total + event.delta;
      totalDisplay.lastChange := Changed(side, event.delta);
      SumAppend(received, event.delta);
      received := received + [event.delta];
      SumOfUnitDeltasBounded(received);
    }

    /** A click on the "+" button of child `side`: the child increments and its
        event reaches the parent's handler at once. */
    method ClickIncrement(side: Side)
      requires Valid()
      modifies this`totalChanges, this`eventLog, this`received, Counter(side), totalDisplay
      ensures Valid()
      ensures Counter(side).count == old(Counter(side).count) + 1
      ensures totalChanges == old(totalChanges) + 1
      ensures totalDisplay.total == old(totalDisplay.total) + 1
      ensures totalDisplay.lastChange == Changed(side, 1)
      ensures eventLog == Push(old(eventLog), CounterLine(side, Counter(side).count, 1), EventLogCap)
      ensures received == old(received) + [1]
    {
      var counter := Counter(side);
      var event := counter.Increment();
      OnCounterChanged(side, event);
    }

    /** A click on the "-" button of child `side`. */
    method ClickDecrement(side: Side)
      requires Valid()
      modifies this`totalChanges, this`eventLog, this`received, Counter(side), totalDisplay
      ensures Valid()
      ensures Counter(side).count == old(Counter(side).count) - 1
      ensures totalChanges == old(totalChanges) + 1
      ensures totalDisplay.total == old(totalDisplay.total) - 1
      ensures totalDisplay.lastChange == Changed(side, -1)
      ensures eventLog == Push(old(eventLog), CounterLine(side, Counter(side).count, -1), EventLogCap)
      ensures received == old(received) + [-1]
    {
      var counter := Counter(side);
      var event := counter.Decrement();
      OnCounterChanged(side, event);
    }

    /** The observer of counter A: it only reads A's count. */
    method ObserveA() returns (count: int)
      ensures count == counterA.count
    {
      count := counterA.count;
    }

    /** Sets both counts, the total and the change count to zero and clears the
        log; no counter event is emitted, so nothing is received. */
    method ResetAll()
      requires Valid()
      modifies this`totalChanges, this`eventLog, this`received, counterA, counterB, totalDisplay
      ensures Valid()
      ensures counterA.count == 0 && counterB.count == 0
      ensures totalDisplay.total == 0 && totalDisplay.lastChange == WasReset
      ensures totalChanges == 0 && eventLog == [] && received == []
    {
      counterA.count := 0;
      counterB.count := 0;
      totalDisplay.total := 0;
      totalDisplay.lastChange := WasReset;
      totalChanges := 0;
      eventLog := [];
      received := [];
    }

    /** Copies A's count into B, mediated by the parent, and logs it. No event is
        emitted: A, the total and the change count stay as they were. */
    method SyncCounters()
      requires Valid()
      modifies this`eventLog, counterB
      ensures Valid()
      ensures counterB.count == counterA.count == old(counterA.count)
      ensures eventLog == Push(old(eventLog), SyncLine(counterA.count), EventLogCap)
    {
      var countA := counterA.count;
      counterB.count := countA;
      eventLog := eventLog + [SyncLine(countA)];
      if |eventLog| > EventLogCap {
        eventLog := eventLog[1..];
      }
    }
  }

  /** Three clicks on A's "+" and one sync leave both counters at 3: the sync does
      not emit, so only the three increments reached the total and the log. */
  method ThreeIncrementsThenSync() returns (countA: int, countB: int, total: int, changes: int, logged: seq<LogEntry>)
    ensures countA == 3 && countB == 3
    ensures total == 3 && changes == 3
    ensures logged == [CounterLine(A, 1, 1), CounterLine(A, 2, 1), CounterLine(A, 3, 1), SyncLine(3)]
  {
    var app := new StateManagementApp();
    app.ClickIncrement(A);
    app.ClickIncrement(A);
    app.ClickIncrement(A);
    app.SyncCounters();
    countA, countB := app.counterA.count, app.counterB.count;
    total, changes, logged := app.totalDisplay.total, app.totalChanges, app.eventLog;
  }
}
