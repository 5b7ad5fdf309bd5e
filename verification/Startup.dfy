/**
 Startup of a server and the one invocation slot of a `SmallServer` (`_bind_and_schedule`): a failing
 startup has either closed everything and freed the slot, or keeps the slot until the retry that
 releases the last resource.
 */
module Startup {
  import opened Answers
  import opened Optional
  import opened CleanupTransactions
  import opened Transport
  import opened ServerState
  import opened ServerSteps
  import opened ServerTries
  import opened ServerPasses
  import opened ServerOwnership
  import opened ServerRuns

  /** The kernel resources a handle still has open. */
  function Held(s: Server): set<Resource>
  {
    (if s.listenerOpen then {ListenerSocket} else {}) + (if s.wakeupOpen then {WakeupPipe} else {})
    + set c | c in s.openStreams :: AcceptedStream(c)
  }

  /** The tasks a startup forks: the listener's, the close watcher's and the route observer's. */
  function StartupTasks(wakeup: bool, observed: bool): set<int>
  {
    {0} + (if wakeup then {1} else {}) + (if observed then {2} else {})
  }

  /** What `_bind_and_schedule` gives the handle: the limit, the listener, a wakeup channel if there is one, and the tasks. */
  ghost predicate Equipped(h: ServerHandle, limit: nat, wakeup: bool, observed: bool, runsNow: (int, nat) -> bool)
    reads h
  {
    h.hasWakeup == wakeup && Begins(h.s, limit, wakeup, observed, runsNow)
  }

  ghost predicate Begins(s: Server, limit: nat, wakeup: bool, observed: bool, runsNow: (int, nat) -> bool)
  {
    && s.limit == limit && s.staff.runsNow == runsNow
    && Held(s) == {ListenerSocket} + (if wakeup then {WakeupPipe} else {})
    && s.owned == StartupTasks(wakeup, observed) && s.staff.watchers == (if wakeup then {1} else {})
    && Unused(s) && s.pending == {} && s.errors == {} && !s.closeRequested && !s.notificationSent
  }

  /** Nothing has happened to the server yet. */
  ghost predicate NotBegun(s: Server)
  {
    Unused(s) && s.callbacks == 0 && !s.finished && !s.closeRequested && s.listenerOpen
  }

  /** A new handle that meets the kernel where startup has left it. */
  function HandedOver(limit: nat, wakeup: bool, runsNow: (int, nat) -> bool, tape: seq<bool>, later: seq<bool>, tasks: set<int>): Server
    requires limit > 0
  {
    var s := NewServer(limit, wakeup, runsNow, tape);
    s.(tape := later, owned := tasks, staff := s.staff.(watchers := if wakeup then {1} else {}))
  }

  lemma NewBegins(limit: nat, wakeup: bool, observed: bool, runsNow: (int, nat) -> bool, tape: seq<bool>, later: seq<bool>, tasks: set<int>)
    requires limit > 0
    ensures var s := HandedOver(limit, wakeup, runsNow, tape, later, tasks);
            && NotBegun(s) && Held(s) == {ListenerSocket} + (if wakeup then {WakeupPipe} else {})
            && (tasks == StartupTasks(wakeup, observed) ==> Begins(s, limit, wakeup, observed, runsNow))
  {
  }

  /** `_active_invocation`; a handle frees the slot by its `on_finalized` callback. */
  datatype Slot = Free | Reserved(marker: nat) | TakenBy(handle: ServerHandle)

  /** `ServerStartupError` with the transaction it owns; `notified` is `_completion_notified`. */
  class StartupError {
    const transaction: CleanupTransaction
    const marker: nat
    var notified: bool

    constructor (transaction: CleanupTransaction, marker: nat)
      ensures this.transaction == transaction && this.marker == marker && !notified
    {
      this.transaction, this.marker, notified := transaction, marker, false;
    }
  }

  datatype Outcome =
    | Rejected                          // the slot was taken
    | Scheduled(handle: ServerHandle)
    | RaisedClean
    | RaisedOwing(error: StartupError)
    | RaisedWithHandle(handle: ServerHandle)

  /** Everything a startup calls that may raise, in order. */
  function StartupCalls(hasWakeup: bool, observed: bool): seq<Call>
  {
    [CheckKernel] + (LISTENER_CALLS + CallsWithListener(hasWakeup, observed))
  }

  function CallsWithListener(hasWakeup: bool, observed: bool): seq<Call>
  {
    (if hasWakeup then WAKEUP_CALLS else []) + ([MakeHandle] + TaskCalls(hasWakeup, observed))
  }

  /** The tasks are made one by one and forked together. */
  function TaskCalls(hasWakeup: bool, observed: bool): seq<Call>
  {
    MakingCalls(hasWakeup, observed) + [ForkTasks(StartupTasks(hasWakeup, observed))]
  }

  function MakingCalls(hasWakeup: bool, observed: bool): seq<Call>
  {
    if hasWakeup then [MakeTask(0), MakeTask(1)] + (if observed then [MakeTask(2)] else [])
    else [MakeTask(0)] + (if observed then [MakeTask(2)] else [])
  }

  /** How many kernel calls fail on the way to each outcome. */
  predicate Fits(outcome: Outcome, failures: int)
  {
    match outcome
    case Rejected => failures == 0
    case Scheduled(_) => failures == 0
    case RaisedClean => failures == 1
    case RaisedOwing(_) => failures >= 2
    case RaisedWithHandle(_) => failures >= 2
  }

  class SmallServer {
    const kernel: Kernel
    var slot: Slot
    var markers: nat

    constructor (tape: seq<bool>)
      ensures slot == Free && kernel.open == {} && fresh(kernel)
    {
      kernel := new Kernel(tape);
      slot, markers := Free, 0;
    }

    /** Can `_reserve_invocation` succeed? */
    predicate SlotFree()
      reads this, if slot.TakenBy? then {slot.handle} else {}
    {
      slot == Free || (slot.TakenBy? && slot.handle.s.callbacks == 1)
    }

    /**
     What a startup leaves behind.  Everything closed and the slot free; or the slot kept, and exactly the
     resources still open held by the scheduled handle, by the error, or by a handle that has not finished.
     */
    ghost predicate Settled(outcome: Outcome)
      reads this, kernel, if slot.TakenBy? then {slot.handle} else {},
            if outcome.RaisedOwing? then {outcome.error, outcome.error.transaction} else {}
    {
      match outcome
      case Rejected => !SlotFree()
      case Scheduled(h) =>
        slot == TakenBy(h) && !SlotFree() && kernel.open == Held(h.s) && Valid(h.s) && !h.s.closeRequested && h.s.listenerOpen
        && h.s.tape == kernel.tape
      case RaisedClean => SlotFree() && kernel.open == {} && (slot.TakenBy? ==> slot.handle.s.finished)
      case RaisedOwing(e) =>
        slot == Reserved(e.marker) && !e.notified && e.transaction.Valid() && !e.transaction.Complete()
        && kernel.open == Resources(e.transaction.actions)
      case RaisedWithHandle(h) => slot == TakenBy(h) && !SlotFree() && kernel.open == Held(h.s) && Sound(h.s, {})
                                  && Unused(h.s) && !h.s.finished && h.s.tape == kernel.tape
    }

    /**
     `_bind_and_schedule`, after its arguments were checked.  One failing kernel call makes it clean up
     completely, wherever in the startup it is; something stays owed exactly when the cleanup fails as well.
     */
    method BindAndSchedule(limit: nat, wakeupSupported: bool, observed: bool, runsNow: (int, nat) -> bool) returns (outcome: Outcome)
      requires limit > 0 && (SlotFree() ==> kernel.open == {})
      modifies this, kernel
      ensures Settled(outcome)
      ensures outcome == Rejected <==> !old(SlotFree())
      ensures outcome == Rejected ==> slot == old(slot) && kernel.open == old(kernel.open) && kernel.made == old(kernel.made)
      ensures outcome != Rejected ==>
                Reached(old(kernel.made), kernel.made, StartupCalls(wakeupSupported, observed), outcome.Scheduled?)
      ensures Fits(outcome, Failing(old(kernel.tape)) - Failing(kernel.tape))
      ensures outcome.Scheduled? ==> Equipped(outcome.handle, limit, wakeupSupported, observed, runsNow)
      ensures outcome.RaisedOwing? ==> fresh(outcome.error) && fresh(outcome.error.transaction)
    {
      if !SlotFree() { return Rejected; }
      markers := markers + 1;
      var marker := markers;
      slot := Reserved(marker);
      ghost var before, rest := kernel.made, CallsWithListener(wakeupSupported, observed);
      var capable := kernel.Do(CheckKernel);
      if !capable {
        ReachedNothing(before, [CheckKernel] + (LISTENER_CALLS + rest));
        ReleaseInvocation(marker);
        return RaisedClean;
      }
      ghost var checked := kernel.made;
      var listener := OpenListener(kernel);
      ghost var listening := kernel.made;
      if !listener.Got? {
        ReachedPart(checked, listening, LISTENER_CALLS, rest);
        ReachedOn(before, listening, [CheckKernel], LISTENER_CALLS + rest, false);
      }
      if listener.Owing? {
        var e := new StartupError(listener.transaction, marker);
        OneResource(listener.transaction.actions, ListenerSocket);
        return RaisedOwing(e);
      }
      if listener.RolledBack? {
        ReleaseInvocation(marker);
        return RaisedClean;
      }
      outcome := WithListener(limit, wakeupSupported, observed, runsNow, marker);
      ReachedOn(checked, kernel.made, LISTENER_CALLS, rest, outcome.Scheduled?);
      ReachedOn(before, kernel.made, [CheckKernel], LISTENER_CALLS + rest, outcome.Scheduled?);
    }

    /** The part of startup that already owns a listener. */
    method WithListener(limit: nat, wakeupSupported: bool, observed: bool, runsNow: (int, nat) -> bool, marker: nat)
      returns (outcome: Outcome)
      requires limit > 0 && slot == Reserved(marker) && kernel.open == {ListenerSocket}
      modifies this, kernel
      ensures Settled(outcome) && outcome != Rejected
      ensures Fits(outcome, Failing(old(kernel.tape)) - Failing(kernel.tape))
      ensures outcome.Scheduled? ==> Equipped(outcome.handle, limit, wakeupSupported, observed, runsNow)
      ensures outcome.RaisedOwing? ==> fresh(outcome.error) && fresh(outcome.error.transaction)
      ensures Reached(old(kernel.made), kernel.made, CallsWithListener(wakeupSupported, observed), outcome.Scheduled?)
    {
      ghost var before, rest := kernel.made, [MakeHandle] + TaskCalls(wakeupSupported, observed);
      if wakeupSupported {
        var wakeup := CreateWakeup(kernel);
        if !wakeup.Got? {
          ReachedPart(before, kernel.made, WAKEUP_CALLS, rest);
        }
        if wakeup.Owing? {
          OneResource(wakeup.transaction.actions, WakeupPipe);
          outcome := Abandon(wakeup.transaction, marker, false);
          return;
        }
        if wakeup.RolledBack? {
          var t := new CleanupTransaction();
          outcome := Abandon(t, marker, false);
          return;
        }
      }
      ghost var acquired, calls := kernel.made, if wakeupSupported then WAKEUP_CALLS else [];
      assert acquired == before + calls;
      outcome := WithResources(limit, wakeupSupported, observed, runsNow, marker);
      ReachedOn(before, kernel.made, calls, rest, outcome.Scheduled?);
    }

    /** The part of startup that owns a listener and, if there is one, the wakeup channel. */
    method WithResources(limit: nat, hasWakeup: bool, observed: bool, runsNow: (int, nat) -> bool, marker: nat)
      returns (outcome: Outcome)
      requires limit > 0 && slot == Reserved(marker)
      requires kernel.open == {ListenerSocket} + if hasWakeup then {WakeupPipe} else {}
      modifies this, kernel
      ensures Settled(outcome) && outcome != Rejected
      ensures Fits(outcome, Failing(old(kernel.tape)) - Failing(kernel.tape))
      ensures outcome.Scheduled? ==> Equipped(outcome.handle, limit, hasWakeup, observed, runsNow)
      ensures outcome.RaisedOwing? ==> fresh(outcome.error) && fresh(outcome.error.transaction)
      ensures Reached(old(kernel.made), kernel.made, [MakeHandle] + TaskCalls(hasWakeup, observed), outcome.Scheduled?)
    {
      ghost var before := kernel.made;
      var made := kernel.Do(MakeHandle);
      if !made {
        ReachedNothing(before, [MakeHandle] + TaskCalls(hasWakeup, observed));
        var t := new CleanupTransaction();
        outcome := Abandon(t, marker, hasWakeup);
        return;
      }
      outcome := Schedule(limit, hasWakeup, observed, runsNow);
      ReachedOn(before, kernel.made, [MakeHandle], TaskCalls(hasWakeup, observed), outcome.Scheduled?);
    }

    /** Startup fails before the handle exists: the wakeup channel, if whole, and the listener are closed or owed. */
    method Abandon(t: CleanupTransaction, marker: nat, wakeupToClose: bool) returns (outcome: Outcome)
      requires slot == Reserved(marker) && t.Valid()
      requires kernel.open == Resources(t.actions) + {ListenerSocket} + if wakeupToClose then {WakeupPipe} else {}
      requires ListenerSocket !in Resources(t.actions) && (wakeupToClose ==> WakeupPipe !in Resources(t.actions))
      modifies this, kernel`tape, kernel`open, t
      ensures Settled(outcome) && (outcome.RaisedClean? || outcome.RaisedOwing?)
      ensures outcome.RaisedClean? <==> t.actions == []
      ensures Failing(old(kernel.tape)) - Failing(kernel.tape) == |t.actions| - |old(t.actions)|
      ensures outcome.RaisedOwing? ==> fresh(outcome.error) && outcome.error.transaction == t
    {
      if wakeupToClose {
        CloseOrOwe(t, WakeupPipe, "wakeup");
      }
      CloseOrOwe(t, ListenerSocket, "listener");
      if t.Complete() {
        ReleaseInvocation(marker);
        return RaisedClean;
      }
      var e := new StartupError(t, marker);
      outcome := RaisedOwing(e);
    }

    method CloseOrOwe(t: CleanupTransaction, r: Resource, name: string)
      requires t.Valid() && r !in Resources(t.actions) && r in kernel.open
      modifies kernel`tape, kernel`open, t
      ensures t.Valid() && old(t.actions) <= t.actions
      ensures Failing(old(kernel.tape)) - Failing(kernel.tape) == |t.actions| - |old(t.actions)|
      ensures kernel.open == old(kernel.open) - ({r} - Resources(t.actions))
      ensures Resources(t.actions) == old(Resources(t.actions)) + (kernel.open * {r})
    {
      var closed := kernel.Close(r);
      if !closed {
        ghost var before := t.actions;
        t.Add(name, r);
        ghost var key :| t.actions == before + [Action(key, r)];
        assert Resources(before + [Action(key, r)]) == Resources(before) + {r};
      }
    }

    /**
     The handle takes over the listener, the wakeup channel and the slot; its tasks are made and forked.  When
     that fails, the handle closes everything, with what the kernel answers from then on.
     */
    method Schedule(limit: nat, hasWakeup: bool, observed: bool, runsNow: (int, nat) -> bool) returns (outcome: Outcome)
      requires limit > 0 && slot.Reserved?
      requires kernel.open == {ListenerSocket} + if hasWakeup then {WakeupPipe} else {}
      modifies this, kernel
      ensures Settled(outcome) && !outcome.Rejected? && !outcome.RaisedOwing?
      ensures Fits(outcome, Failing(old(kernel.tape)) - Failing(kernel.tape))
      ensures outcome.Scheduled? ==>
                kernel.open == old(kernel.open) && Equipped(outcome.handle, limit, hasWakeup, observed, runsNow)
      ensures Reached(old(kernel.made), kernel.made, TaskCalls(hasWakeup, observed), outcome.Scheduled?)
    {
      var h, started, tasks := Furnish(limit, hasWakeup, observed, runsNow);
      if started { return Scheduled(h); }
      outcome := GiveUp(h, tasks);
    }

    /** The handle with the slot and its tasks. */
    method Furnish(limit: nat, hasWakeup: bool, observed: bool, runsNow: (int, nat) -> bool)
      returns (h: ServerHandle, started: bool, tasks: set<int>)
      requires limit > 0
      modifies this, kernel`tape, kernel`made
      ensures fresh(h) && slot == TakenBy(h) && Valid(h.s) && NotBegun(h.s) && h.s.tape == kernel.tape
      ensures Held(h.s) == {ListenerSocket} + if hasWakeup then {WakeupPipe} else {}
      ensures Failing(old(kernel.tape)) == Failing(kernel.tape) + if started then 0 else 1
      ensures started ==> Equipped(h, limit, hasWakeup, observed, runsNow)
      ensures Reached(old(kernel.made), kernel.made, TaskCalls(hasWakeup, observed), started)
    {
      ghost var given := kernel.tape;
      h := new ServerHandle(limit, hasWakeup, runsNow, kernel.tape);
      slot := TakenBy(h);
      started, tasks := StartTasks(hasWakeup, observed);
      HandOver(h, tasks, if hasWakeup then {1} else {});
      NewBegins(limit, hasWakeup, observed, runsNow, given, kernel.tape, tasks);
      assert h.s == HandedOver(limit, hasWakeup, runsNow, given, kernel.tape, tasks);
    }

    /** The tasks could not all be made and forked. */
    method GiveUp(h: ServerHandle, tasks: set<int>) returns (outcome: Outcome)
      requires slot == TakenBy(h) && Valid(h.s) && Unused(h.s) && h.s.callbacks == 0 && !h.s.finished && h.s.tape == kernel.tape
      modifies h, kernel`tape, kernel`open
      ensures Settled(outcome) && (outcome.RaisedClean? || outcome == RaisedWithHandle(h))
      ensures outcome.RaisedClean? <==> Failing(kernel.tape) == Failing(old(kernel.tape))
      ensures Failing(kernel.tape) <= Failing(old(kernel.tape))
    {
      AbortStartup(h, tasks);
      kernel.tape, kernel.open := h.s.tape, Held(h.s);
      outcome := if h.s.finished then RaisedClean else RaisedWithHandle(h);
    }

    /** The listener task, the close watcher and the route observer's task are made, and all are forked. */
    method StartTasks(hasWakeup: bool, observed: bool) returns (started: bool, tasks: set<int>)
      modifies kernel`tape, kernel`made
      ensures Failing(old(kernel.tape)) == Failing(kernel.tape) + if started then 0 else 1
      ensures started ==> tasks == StartupTasks(hasWakeup, observed)
      ensures Reached(old(kernel.made), kernel.made, TaskCalls(hasWakeup, observed), started)
    {
      ghost var before := kernel.made;
      started, tasks := MakeTasks(hasWakeup, observed);
      if !started {
        ReachedPart(before, kernel.made, MakingCalls(hasWakeup, observed), [ForkTasks(StartupTasks(hasWakeup, observed))]);
        return;
      }
      ghost var made := kernel.made;
      started := kernel.Do(ForkTasks(tasks));
      if !started {
        ReachedNothing(made, [ForkTasks(tasks)]);
      }
      ReachedOn(before, kernel.made, MakingCalls(hasWakeup, observed), [ForkTasks(tasks)], started);
    }

    method MakeTasks(hasWakeup: bool, observed: bool) returns (made: bool, tasks: set<int>)
      modifies kernel`tape, kernel`made
      ensures Failing(old(kernel.tape)) == Failing(kernel.tape) + if made then 0 else 1
      ensures made ==> tasks == StartupTasks(hasWakeup, observed)
      ensures Reached(old(kernel.made), kernel.made, MakingCalls(hasWakeup, observed), made)
    {
      ghost var before := kernel.made;
      tasks := {};
      made := kernel.Do(MakeTask(0));
      if made {
        tasks := {0};
        if hasWakeup {
          made := kernel.Do(MakeTask(1));
          tasks := if made then {0, 1} else {0};
        }
      }
      if made && observed {
        made := kernel.Do(MakeTask(2));
        tasks := if made then tasks + {2} else tasks;
      }
      assert kernel.made == before + kernel.made[|before|..];
    }

    /** The handle owns the tasks, and meets the kernel where startup has left it. */
    method HandOver(h: ServerHandle, tasks: set<int>, watchers: set<int>)
      requires Valid(h.s) && h.s.ws == {} && h.s.staff.serves == map[]
      requires h.s.staff.handlers == h.s.staff.helpers == h.s.staff.coordinated == {}
      modifies h
      ensures Valid(h.s)
      ensures h.s == old(h.s).(tape := kernel.tape, owned := tasks, staff := old(h.s).staff.(watchers := watchers))
    {
      ghost var born := h.s;
      h.s := h.s.(tape := kernel.tape, owned := tasks, staff := h.s.staff.(watchers := watchers));
      AnyTape(born, kernel.tape);
      OwnedTasks(born.(tape := kernel.tape), watchers, tasks);
    }

    /** `_abort_startup`: the tasks were never started, so no `finally` block runs. */
    method AbortStartup(h: ServerHandle, tasks: set<int>)
      requires Sound(h.s, {}) && h.s.live == {} && h.s.callbacks == 0 && !h.s.finished
      modifies h
      ensures Sound(h.s, {}) && h.s.live == {} && (h.s.finished <==> h.s.callbacks == 1)
      ensures Quiet(old(h.s), h.s) && old(h.s).ws == {} ==> h.s.finished
      ensures Unused(old(h.s)) ==> Unused(h.s) && (h.s.finished ==> Quiet(old(h.s), h.s))
      ensures Failing(h.s.tape) <= Failing(old(h.s).tape)
    {
      ghost var born := h.s;
      h.s := h.s.(closeRequested := true, owned := tasks);
      AskedToClose(born, tasks);
      ghost var asked := h.s;
      h.FinishClose(None, true);
      if Quiet(asked, h.s) && asked.ws == {} {
        AllReleased(asked, h.s);
      }
    }

    /** `_release_invocation`: only the reservation that is still current is released. */
    method ReleaseInvocation(marker: nat)
      modifies this
      ensures slot == if old(slot) == Reserved(marker) then Free else old(slot)
      ensures markers == old(markers)
    {
      if slot == Reserved(marker) {
        slot := Free;
      }
    }

    /**
     `retry_cleanup` of a startup error.  The slot is freed by the retry that closes the last resource,
     not before, and only if it is still this startup's.
     */
    method RetryCleanup(e: StartupError) returns (complete: bool)
      requires e.transaction.Valid()
      modifies this, kernel, e, e.transaction
      ensures e.transaction.Valid() && e.transaction.actions == StillOpen(old(e.transaction.actions), kernel.open)
      ensures complete <==> e.transaction.Complete()
      ensures slot == if complete && !old(e.notified) && old(slot) == Reserved(e.marker) then Free else old(slot)
      ensures e.notified == (old(e.notified) || complete)
      ensures old(Settled(RaisedOwing(e))) ==> if complete then Settled(RaisedClean) else Settled(RaisedOwing(e))
      ensures complete <==> Failing(kernel.tape) == Failing(old(kernel.tape))
    {
      ghost var before, open := e.transaction.actions, kernel.open;
      e.transaction.Retry(kernel);
      StillOpenMembers(before, kernel.open);
      if open == Resources(before) {
        assert kernel.open == Resources(e.transaction.actions) by {
          OwnedAreOpen(before, kernel.open);
        }
      }
      complete := e.transaction.Complete();
      if complete && !e.notified {
        e.notified := true;
        ReleaseInvocation(e.marker);
      }
    }
  }

  /** The retry a handle's startup error offers: another owner-thread pass.  The slot goes with the last resource. */
  method RetryHandle(server: SmallServer, h: ServerHandle) returns (complete: bool)
    requires server.Settled(RaisedWithHandle(h))
    modifies h, server.kernel
    ensures complete == h.s.finished
    ensures server.Settled(if complete then RaisedClean else RaisedWithHandle(h))
    ensures complete <==> Failing(h.s.tape) == Failing(old(h.s).tape)
  {
    ghost var before := h.s;
    h.FinishClose(None, true);
    server.kernel.tape, server.kernel.open := h.s.tape, Held(h.s);
    complete := h.s.finished;
    if Quiet(before, h.s) {
      AllReleased(before, h.s);
    }
    StaysUnused(before, h.s);
  }

  /** Once the callback has fired, nothing is open any more. */
  lemma ReleasedHoldsNothing(s: Server)
    requires Released(s)
    ensures Held(s) == {}
  {
  }

  /**
   A scheduled server at work: whatever its tasks, its owner and the kernel do, the kernel has open what the
   handle holds; and the slot is freed exactly when the callback fires, which closes everything startup opened.
   */
  method Serve(server: SmallServer, h: ServerHandle, steps: seq<Step>)
    requires server.Settled(Scheduled(h))
    modifies h, server.kernel
    ensures Valid(h.s) && server.kernel.open == Held(h.s) && server.kernel.tape == h.s.tape && server.slot == TakenBy(h)
    ensures server.SlotFree() <==> h.s.callbacks == 1
    ensures server.SlotFree() ==> server.kernel.open == {}
    ensures h.s.finished ==> server.SlotFree()
  {
    RunOn(h, steps);
    server.kernel.tape, server.kernel.open := h.s.tape, Held(h.s);
    if h.s.callbacks == 1 {
      ReleasedHoldsNothing(h.s);
    }
  }

  /**
   Its owner shuts it down: after at most one pass more than kernel calls fail, the listener, the wakeup
   channel and every stream are closed and the slot is free.
   */
  method ShutDown(server: SmallServer, h: ServerHandle) returns (rounds: nat)
    requires Valid(h.s) && h.s.ws == {} && server.slot == TakenBy(h)
    modifies h, server.kernel
    ensures h.s.finished && server.kernel.open == {} && server.SlotFree()
    ensures rounds <= Failing(old(h.s).tape) + 1
  {
    rounds := h.FinalizeUntilDone();
    server.kernel.tape, server.kernel.open := h.s.tape, Held(h.s);
    ReleasedHoldsNothing(h.s);
  }

  lemma StaysUnused(a: Server, b: Server)
    requires Unused(a) && Onward(a, b, {})
    ensures Unused(b)
  {
  }

  lemma OneResource(actions: seq<Action>, r: Resource)
    requires |actions| == 1 && actions[0].resource == r
    ensures Resources(actions) == {r}
  {
    assert actions[0] in actions;
  }

  lemma OwnedAreOpen(actions: seq<Action>, open: set<Resource>)
    requires open <= Resources(actions)
    ensures Resources(StillOpen(actions, open)) == open
  {
    StillOpenMembers(actions, open);
    forall r | r in open ensures r in Resources(StillOpen(actions, open)) {
      var a :| a in actions && a.resource == r;
      assert a in StillOpen(actions, open);
    }
  }

  /** The invariant says nothing about what the kernel will answer. */
  lemma AnyTape(s: Server, tape: seq<bool>)
    requires Valid(s)
    ensures Valid(s.(tape := tape))
  {
    var t := s.(tape := tape);
    assert Ownership(t, {});
    assert Released(s) ==> Released(t);
  }

  lemma OwnedTasks(s: Server, watchers: set<int>, tasks: set<int>)
    requires Valid(s) && s.staff.handlers == s.staff.helpers == s.staff.coordinated == {} && s.staff.serves == map[]
    requires s.ws == {}
    ensures Valid(s.(owned := tasks, staff := s.staff.(watchers := watchers)))
  {
    var t := s.(owned := tasks, staff := s.staff.(watchers := watchers));
    GrownSound(s, t);
    assert Roles(t.staff);
  }

  lemma AskedToClose(s: Server, tasks: set<int>)
    requires Sound(s, {})
    ensures Sound(s.(closeRequested := true, owned := tasks), {})
  {
    var t := s.(owned := tasks);
    GrownSound(s, t);
    Minor(t, t.(closeRequested := true), {});
  }
}
