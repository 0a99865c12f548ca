/**
  The control-plane refresh coalescer of the desktop main process: a debounced,
  single-flight loop driven by three module variables.

  Every atomic stretch of JavaScript between two awaits is one event: a data change
  that calls the scheduler, the debounce timer firing into the flush function, and the
  awaited refresh settling (fulfilled or rejected). `starts` and `changes` are history:
  `starts` records, for every refresh ever started, how many changes preceded its start.
 */
module RefreshCoalescer {

  datatype State = State(pending: bool, running: bool, armed: bool, inFlight: nat, changes: nat, starts: seq<nat>)

  datatype Event = Change | TimerFires | RefreshSettles(fulfilled: bool)

  const INITIAL := State(false, false, false, 0, 0, [])

  predicate Enabled(s: State, e: Event) {
    match e
    case Change => true
    case TimerFires => s.armed
    case RefreshSettles(_) => s.inFlight > 0
  }

  function Schedule(s: State): State {
    s.(pending := true, armed := true)
  }

  function StartRefresh(s: State): State {
    s.(pending := false, inFlight := s.inFlight + 1, starts := s.starts + [s.changes])
  }

  /** The `finally` block: leave the loop, rescheduling when a change slipped in. */
  function LeaveLoop(s: State): State {
    var idle := s.(running := false);
    if idle.pending then Schedule(idle) else idle
  }

  /** One turn of the `while (pending)` test. */
  function LoopHead(s: State): State {
    if s.pending then StartRefresh(s) else LeaveLoop(s)
  }

  function Next(s: State, e: Event): State
    requires Enabled(s, e)
  {
    match e
    case Change => Schedule(s.(changes := s.changes + 1))
    case TimerFires =>
      var fired := s.(armed := false);
      if fired.running then fired else LoopHead(fired.(running := true))
    case RefreshSettles(fulfilled) =>
      var settled := s.(inFlight := s.inFlight - 1);
      if fulfilled then LoopHead(settled) else LeaveLoop(settled)
  }

  predicate Schedulable(s: State, events: seq<Event>)
    decreases |events|
  {
    events == [] || (Enabled(s, events[0]) && Schedulable(Next(s, events[0]), events[1..]))
  }

  function Run(s: State, events: seq<Event>): State
    requires Schedulable(s, events)
    decreases |events|
  {
    if events == [] then s else Run(Next(s, events[0]), events[1..])
  }

  /** How many changes the most recent refresh can have seen: those before it started. */
  function Seen(s: State): nat {
    if s.starts == [] then 0 else s.starts[|s.starts| - 1]
  }

  ghost predicate Invariant(s: State) {
    && (s.pending ==> s.armed || s.running)
    && s.inFlight == (if s.running then 1 else 0)
    && (s.pending <==> Seen(s) < s.changes)
    && (forall i :: 0 <= i < |s.starts| ==> 0 < s.starts[i] <= s.changes)
    && (forall i, j :: 0 <= i < j < |s.starts| ==> s.starts[i] < s.starts[j])
  }

  lemma InvariantKept(s: State, e: Event)
    requires Invariant(s) && Enabled(s, e)
    ensures Invariant(Next(s, e))
  {
  }

  /**
    Over every interleaving of changes, timers and settling refreshes: no wakeup is lost,
    at most one refresh is in flight, the pending flag is down exactly when the latest
    refresh started after the latest change, and every refresh that ever started had at
    least one change that no earlier refresh had seen.
   */
  lemma {:induction false} NoLostWakeup(s: State, events: seq<Event>)
    requires Invariant(s) && Schedulable(s, events)
    ensures Invariant(Run(s, events))
    decreases |events|
  {
    if events != [] {
      InvariantKept(s, events[0]);
      NoLostWakeup(Next(s, events[0]), events[1..]);
    }
  }

  function Rank(s: State): nat {
    (if s.pending then 3 else 0) + (if s.running then 2 else 0) + (if s.armed then 1 else 0)
  }

  /**
    Without further changes the loop drains: whatever fails, at most six events remain, and
    once none is enabled the latest refresh started after every change.
   */
  lemma {:induction false} Drains(s: State, events: seq<Event>)
    requires Invariant(s) && Schedulable(s, events) && Change !in events
    ensures |events| + Rank(Run(s, events)) <= Rank(s) <= 6
    ensures !Enabled(Run(s, events), TimerFires) && !Enabled(Run(s, events), RefreshSettles(true))
            ==> Seen(Run(s, events)) == s.changes
    decreases |events|
  {
    if events != [] {
      var next := Next(s, events[0]);
      InvariantKept(s, events[0]);
      assert events[0] in events;
      assert Rank(next) < Rank(s) && next.changes == s.changes;
      Drains(next, events[1..]);
    }
  }

  /**
    The flag says "started after", not "succeeded after": when a refresh is rejected and no
    change slipped in, nothing is scheduled, so the change it covered waits for the next one.
    Exactly then does a rejection, after any interleaving, leave the coalescer idle.
   */
  lemma {:induction false} RejectionIsRetriedIffAChangeSlippedIn(events: seq<Event>)
    requires Schedulable(INITIAL, events) && Run(INITIAL, events).inFlight > 0
    ensures var s := Run(INITIAL, events);
            var after := Next(s, RefreshSettles(false));
            && !after.running
            && after.starts == s.starts
            && (after.armed && after.pending <==> Seen(s) < s.changes)
            && (!after.pending <==> Seen(s) == s.changes)
  {
    NoLostWakeup(INITIAL, events);
    var s := Run(INITIAL, events);
    hide Run, Schedulable;
    if s.starts != [] {
      assert s.starts[|s.starts| - 1] <= s.changes;
    }
  }

  /** The module variables and the two functions that set and clear them. */
  class ControlPlaneRefresh {
    var pending: bool
    var running: bool
    var armed: bool
    ghost var inFlight: nat
    ghost var changes: nat
    ghost var starts: seq<nat>

    ghost function Abstract(): State
      reads this
    {
      State(pending, running, armed, inFlight, changes, starts)
    }

    constructor ()
      ensures Abstract() == INITIAL && Invariant(Abstract())
    {
      pending, running, armed := false, false, false;
      inFlight, changes, starts := 0, 0, [];
    }

    method ScheduleRefresh()
      modifies this
      ensures Abstract() == Schedule(old(Abstract()))
    {
      pending := true;
      // An armed timer is cleared and armed again: one timer either way.
      armed := true;
    }

    method DataChanged()
      requires Invariant(Abstract())
      modifies this
      ensures Abstract() == Next(old(Abstract()), Change) && Invariant(Abstract())
    {
      changes := changes + 1;
      ScheduleRefresh();
    }

    method Flush()
      requires Invariant(Abstract()) && armed
      modifies this
      ensures Abstract() == Next(old(Abstract()), TimerFires) && Invariant(Abstract())
    {
      armed := false;
      if running {
        return;
      }
      running := true;
      ContinueLoop();
    }

    method RefreshSettled(fulfilled: bool)
      requires Invariant(Abstract()) && inFlight > 0
      modifies this
      ensures Abstract() == Next(old(Abstract()), RefreshSettles(fulfilled)) && Invariant(Abstract())
    {
      InvariantKept(Abstract(), RefreshSettles(fulfilled));
      inFlight := inFlight - 1;
      if fulfilled {
        ContinueLoop();
      } else {
        LeaveTheLoop();
      }
    }

    method ContinueLoop()
      modifies this
      ensures Abstract() == LoopHead(old(Abstract()))
    {
      if pending {
        pending := false;
        inFlight := inFlight + 1;
        starts := starts + [changes];
      } else {
        LeaveTheLoop();
      }
    }

    method LeaveTheLoop()
      modifies this
      ensures Abstract() == LeaveLoop(old(Abstract()))
    {
      running := false;
      if pending {
        ScheduleRefresh();
      }
    }
  }
}
