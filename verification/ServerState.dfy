/**
 What is true of one server (`ServerHandle`) between any two of its operations, stated on its fields.

 Each close, cancel, notify or signal takes the next answer of the kernel's tape.
 */
module ServerState {
  import opened Answers
  import opened Optional

  datatype Key = WakeupKey | ListenerKey | StreamKey(stream: int) | TaskKey(task: int)

  /** Where the listener task stands in its accept loop. */
  datatype Position = AtCheck | AwaitingCapacity | Accepting | Ended

  /** One try to cancel a task; `pass` is 0 when no finalization pass, but a task, tries it. */
  datatype Attempt = Attempt(pass: nat, task: int)

  /** What a connection task serves, and the tasks it cancels when it ends. */
  datatype Serving = Serving(stream: int, children: set<int>)

  /** Who the tasks are.  No operation of the handle changes it. */
  datatype Staff = Staff(
    started: set<int>,           // tasks that have begun to run
    handlers: set<int>,          // HTTP/2 request handlers; only their own finally block takes them off `_owned_tasks`
    helpers: set<int>,           // writer, watchdog and shutdown enforcer of HTTP/2; so does theirs, or their connection
    coordinated: set<int>,       // a WebSocket's tasks; their connection takes them off once they are cancelled
    watchers: set<int>,          // the close watcher
    serves: map<int, Serving>,   // connection tasks
    sockets: map<int, int>,      // `handler_task` of the WebSocket on a stream
    runsNow: (int, nat) -> bool) // does cancelling the task, after so many tries, run its finally block at once?

  datatype Server = Server(
    limit: nat,                   // `max_connections`
    tape: seq<bool>,
    staff: Staff,
    live: set<int>,               // tasks that have started and not yet run their finally block
    openStreams: set<int>,        // streams given to the server whose kernel close has not succeeded
    connections: map<int, int>,   // stream to connection task
    closing: set<int>,
    errors: set<Key>,
    pending: set<int>,            // `_pending_task_cancellations`
    cancelledIds: set<int>,
    owned: set<int>,              // `_owned_tasks`
    ws: set<int>,                 // `_websocket_states`
    asked: set<int>,              // streams whose WebSocket has been asked to shut down
    closers: set<int>,            // `_graceful_closers`
    wakeupOpen: bool,
    listenerOpen: bool,
    closeRequested: bool,
    notificationSent: bool,
    attempted: bool,              // `_finalization_attempted`
    finished: bool,
    failed: bool,                 // `_failure` is set
    armed: bool,                  // `_on_finalized` is still set
    callbacks: nat,               // times it was called
    waiting: bool,                // `_capacity_waiting`
    signalled: bool,              // a capacity signal is posted
    position: Position,
    cursor: Option<int>,          // the task the scheduler is running
    passes: nat,                  // finalization passes begun
    attempts: multiset<Attempt>,
    tries: multiset<int>,         // the tasks tried, whoever tried them
    held: set<int>)               // streams in a table or on their way between the two

  // ---------------------------------------------------------------- the invariant

  /**
   Every stream still open is in exactly one of the two tables, and the limit holds.  `hole` is empty,
   except while a stream is on its way between the tables.
   */
  ghost predicate Ownership(s: Server, hole: set<int>)
  {
    && s.connections.Keys !! s.closing && s.connections.Keys !! hole
    && s.connections.Keys <= s.held && s.closing <= s.held && s.openStreams <= s.held
    && s.held <= s.connections.Keys + s.closing + hole
    && s.closing <= s.openStreams
    && |s.held| <= s.limit
    && (s.position == Accepting ==> |s.held| < s.limit)
  }

  /**
   Whatever is retained for a retry has an error entry, and an entry is about nothing that is done with; a retained
   stream means shutdown.
   */
  ghost predicate Reported(s: Server)
  {
    && (forall c | c in s.closing :: StreamKey(c) in s.errors)
    && (forall t | t in s.pending :: TaskKey(t) in s.errors)
    && (s.closing != {} ==> s.closeRequested)
    && (forall c | StreamKey(c) in s.errors :: c in s.openStreams)
    && (forall t | TaskKey(t) in s.errors :: t in s.pending)
    && (WakeupKey in s.errors ==> s.wakeupOpen) && (ListenerKey in s.errors ==> s.listenerOpen)
  }

  /** Everything but a pending task cancellation is gone. */
  ghost predicate Released(s: Server)
  {
    && s.closeRequested && !s.wakeupOpen && !s.listenerOpen
    && s.connections == map[] && s.closing == {} && s.ws == {} && s.openStreams == {}
  }

  /** What `_update_finished` tests. */
  predicate AllGone(s: Server)
  {
    && s.closeRequested && !s.wakeupOpen && !s.listenerOpen
    && s.connections == map[] && s.closing == {} && s.pending == {} && s.ws == {}
  }

  /** The callback fires at most once, before `finished` can be seen, and only after everything was released. */
  ghost predicate Notified(s: Server)
  {
    && s.callbacks == (if s.armed then 0 else 1)
    && (s.finished ==> s.callbacks == 1)
    && (s.callbacks == 1 ==> Released(s))
  }

  /** The loops of no finalization pass have tried to cancel a task twice. */
  ghost predicate TriedOnce(s: Server)
  {
    && (forall a: Attempt :: a.pass > 0 ==> s.attempts[a] <= 1)
    && (forall a: Attempt :: a.pass > s.passes ==> s.attempts[a] == 0)
  }

  ghost predicate Sound(s: Server, hole: set<int>)
  {
    s.limit > 0 && Ownership(s, hole) && Reported(s) && Notified(s) && TriedOnce(s) && s.live <= s.staff.started
  }

  /** A listener that waits although there is room has already been signalled, or shutdown was requested. */
  ghost predicate NoLostWakeup(s: Server)
  {
    s.waiting && !s.closeRequested && !s.signalled ==> |s.connections| + |s.closing| >= s.limit
  }

  /** Every task has one role; a connection's children, and a WebSocket's handler, are nobody else's. */
  ghost predicate Roles(f: Staff)
  {
    && f.handlers !! f.helpers !! f.coordinated !! f.watchers !! f.serves.Keys
    && (forall t | t in f.serves :: f.serves[t].children <= f.handlers + f.helpers + f.coordinated)
    && (forall t, u | t in f.serves && u in f.serves && t != u :: f.serves[t].children !! f.serves[u].children)
    && (forall c | c in f.sockets :: f.sockets[c] in f.coordinated)
    && (forall c, d | c in f.sockets && d in f.sockets && c != d :: f.sockets[c] != f.sockets[d])
    && (forall c, t | c in f.sockets && t in f.serves && f.sockets[c] in f.serves[t].children :: f.serves[t].stream == c)
  }

  ghost predicate Staffed(s: Server)
  {
    Roles(s.staff) && forall c | c in s.connections :: s.connections[c] in s.staff.serves
  }

  /** The WebSocket on the stream is live, has a handler and was not asked to shut down. */
  predicate Hears(s: Server, c: int) { c in s.ws && c !in s.asked && c in s.staff.sockets }

  /** The handler of such a WebSocket is owned, and no pass has cancelled it. */
  ghost predicate Attended(s: Server)
  {
    forall c | Hears(s, c) :: s.staff.sockets[c] in s.owned && s.staff.sockets[c] !in s.cancelledIds
  }

  ghost predicate Manned(s: Server) { Staffed(s) && Attended(s) }

  ghost predicate Valid(s: Server)
  {
    Sound(s, {}) && NoLostWakeup(s) && (s.waiting <==> s.position == AwaitingCapacity) && Manned(s) && (s.failed ==> Heard(s))
  }

  /** A task made just now. */
  predicate IsNew(s: Server, t: int)
  {
    && t !in s.owned && t !in s.live && t !in s.cancelledIds && t !in s.staff.started
    && t !in s.staff.handlers && t !in s.staff.helpers && t !in s.staff.coordinated && t !in s.staff.watchers
    && t !in s.staff.serves
  }

  /** The task that goes with a connection: the one in the table, or else the one that ends. */
  function TaskOf(s: Server, task: int, c: int): int { if c in s.connections then s.connections[c] else task }

  // ---------------------------------------------------------------- what no operation undoes

  predicate IsConnectionTask(s: Server, t: int)
  {
    exists c :: c in s.connections && s.connections[c] == t
  }

  /** An HTTP/2 handler that has not started stays owned: nobody but its own finally block disowns it. */
  ghost predicate KeepsHandlers(a: Server, b: Server)
  {
    forall t | t in a.owned && t in a.staff.handlers && t !in a.staff.started && !IsConnectionTask(a, t) :: t in b.owned
  }

  /** Tries made by tasks, not by the loops of a pass. */
  function Asides(s: Server, t: int): nat { s.attempts[Attempt(0, t)] }

  /** A connection task. */
  predicate Serves(s: Server, t: int) { t in s.staff.serves && t !in s.staff.watchers }

  /** The task's own `finally` block takes it off `_owned_tasks`. */
  predicate Disowns(s: Server, t: int) { t in s.staff.handlers || t in s.staff.helpers }

  /** A task whose `finally` block does no more than leave `_owned_tasks`. */
  predicate Bare(s: Server, t: int) { t !in s.staff.watchers && t !in s.staff.serves }

  /** Cancelling the task always runs its `finally` block at once. */
  ghost predicate Prompt(s: Server, t: int) { forall n: nat :: s.staff.runsNow(t, n) }

  /**
   What a connection task cancels when it ends: handlers still running, as a handler that ends takes itself
   off the list, and its writer, watchdog or WebSocket tasks, ended or not.
   */
  function ChildrenOf(s: Server, t: int): set<int>
  {
    if t in s.staff.serves
    then set x | x in s.staff.serves[t].children && x != t && (x in s.owned || x !in s.staff.handlers)
    else {}
  }

  /** Everything a connection task cancels when it ends was tried in between, but for handlers that have ended. */
  ghost predicate CaredFor(a: Server, b: Server, t: int)
  {
    forall x | x in ChildrenOf(a, t) :: Asides(b, x) > Asides(a, x) || (x in a.staff.handlers && x !in b.owned)
  }

  /** A connection task that has run its `finally` block has cancelled its children. */
  ghost predicate CaresForChildren(a: Server, b: Server)
  {
    forall t | t in a.live && t !in b.live && Serves(a, t) :: CaredFor(a, b, t)
  }

  /** A task that only the end of its WebSocket takes off `_owned_tasks`. */
  predicate SocketTask(s: Server, x: int)
  {
    x in s.staff.coordinated && !Disowns(s, x) && Bare(s, x) && !IsConnectionTask(s, x)
  }

  /** A WebSocket's task leaves `_owned_tasks` only when its connection has cancelled it. */
  ghost predicate KeepsSocketTasks(a: Server, b: Server)
  {
    forall x | x in a.owned && SocketTask(a, x) :: x in b.owned || Asides(b, x) > Asides(a, x)
  }

  /** The handlers of WebSockets not asked to shut down stay owned and uncancelled. */
  ghost predicate KeepsAttended(a: Server, b: Server)
  {
    Manned(a) ==> Attended(b)
  }

  lemma KeepsCompose(a: Server, b: Server, c: Server, hole: set<int>)
    requires KeepsSocketTasks(a, b) && KeepsSocketTasks(b, c) && KeepsAttended(a, b) && KeepsAttended(b, c)
    requires Shrinks(a, b, hole) && Counted(a, b) && Counted(b, c) && b.staff == a.staff
    ensures KeepsSocketTasks(a, c) && KeepsAttended(a, c)
  {
    forall x | x in a.owned && SocketTask(a, x) ensures x in c.owned || Asides(c, x) > Asides(a, x) {
      CountedAlways(a, b, x);
      CountedAlways(b, c, x);
      assert IsConnectionTask(b, x) ==> IsConnectionTask(a, x);
      assert x in b.owned ==> SocketTask(b, x);
    }
    assert Staffed(a) ==> Staffed(b);
  }

  /** A task noted as cancelled has run its `finally` block, if cancelling it runs that at once. */
  ghost predicate TakesEffect(a: Server, b: Server)
  {
    forall t | t in b.cancelledIds && t !in a.cancelledIds && Prompt(a, t) :: t !in b.live
  }

  lemma CaresCompose(a: Server, b: Server, c: Server, hole: set<int>)
    requires CaresForChildren(a, b) && CaresForChildren(b, c)
    requires Shrinks(a, b, hole) && Shrinks(b, c, {}) && Counted(a, b) && Counted(b, c) && b.staff == a.staff
    ensures CaresForChildren(a, c)
  {
    forall t | t in a.live && t !in c.live && Serves(a, t) ensures CaredFor(a, c, t) {
      forall x | x in ChildrenOf(a, t) ensures Asides(c, x) > Asides(a, x) || (x in a.staff.handlers && x !in c.owned) {
        CountedAlways(a, b, x);
        CountedAlways(b, c, x);
        if t in b.live {
          assert CaredFor(b, c, t) && (x in ChildrenOf(b, t) || x !in b.owned);
        } else {
          assert CaredFor(a, b, t);
        }
      }
    }
  }

  /** Every try is counted, and a task newly noted as cancelled was tried by a pass. */
  ghost predicate Counted(a: Server, b: Server)
  {
    && a.attempts <= b.attempts
    && (forall x, p: nat | p > 0 ::
          b.tries[x] - a.tries[x] >= Asides(b, x) - Asides(a, x) + b.attempts[Attempt(p, x)] - a.attempts[Attempt(p, x)])
    && (forall x | x in b.cancelledIds && x !in a.cancelledIds :: b.tries[x] - a.tries[x] > Asides(b, x) - Asides(a, x))
  }

  lemma CountedCompose(a: Server, b: Server, c: Server)
    requires Counted(a, b) && Counted(b, c)
    ensures Counted(a, c)
  {
    forall x, p: nat | p > 0
      ensures c.tries[x] - a.tries[x] >= Asides(c, x) - Asides(a, x) + c.attempts[Attempt(p, x)] - a.attempts[Attempt(p, x)]
    {
      assert b.tries[x] - a.tries[x] >= Asides(b, x) - Asides(a, x) + b.attempts[Attempt(p, x)] - a.attempts[Attempt(p, x)];
    }
    forall x | x in c.cancelledIds && x !in a.cancelledIds
      ensures c.tries[x] - a.tries[x] > Asides(c, x) - Asides(a, x)
    {
      CountedAlways(a, b, x);
      CountedAlways(b, c, x);
    }
  }

  lemma CountedAlways(a: Server, b: Server, x: int)
    requires Counted(a, b)
    ensures b.tries[x] - a.tries[x] >= Asides(b, x) - Asides(a, x) >= 0
  {
    assert a.attempts[Attempt(1, x)] <= b.attempts[Attempt(1, x)];
  }

  /** No task that still has to run its finally block does more in it than leave `_owned_tasks`. */
  predicate Calm(s: Server)
  {
    forall t | t in s.live :: t !in s.staff.watchers && t !in s.staff.serves
  }

  /** No operation of the handle acquires anything. */
  ghost predicate Shrinks(a: Server, b: Server, hole: set<int>)
  {
    && b.live <= a.live && b.openStreams <= a.openStreams && b.held <= a.held
    && b.owned <= a.owned && b.ws <= a.ws && b.closers <= a.closers
    && b.connections.Keys <= a.connections.Keys
    && (forall c | c in b.connections :: b.connections[c] == a.connections[c])
    && b.closing <= a.closing + a.connections.Keys + hole
    && (b.wakeupOpen ==> a.wakeupOpen) && (b.listenerOpen ==> a.listenerOpen)
    && KeepsHandlers(a, b)
  }

  /** Flags that are never taken back. */
  ghost predicate Monotone(a: Server, b: Server)
  {
    && b.limit == a.limit && b.staff == a.staff
    && (a.closeRequested ==> b.closeRequested) && (a.attempted ==> b.attempted) && (a.failed ==> b.failed)
    && (a.notificationSent ==> b.notificationSent) && (a.signalled ==> b.signalled)
    && b.waiting == a.waiting && b.position == a.position
    && a.callbacks <= b.callbacks && a.cancelledIds <= b.cancelledIds && a.passes <= b.passes
    && a.asked <= b.asked && b.cursor == a.cursor
    && (b.failed && !a.failed ==> Heard(b))
  }

  /** Somebody acts on a fatal error: the close watcher was notified, or a pass was begun or has closed the listener. */
  predicate Heard(s: Server) { s.notificationSent || s.attempted || !s.listenerOpen }

  predicate Quiet(a: Server, b: Server)
  {
    Failing(b.tape) == Failing(a.tape)
  }

  /** Only a failing kernel call makes the server retain something. */
  ghost predicate RetainsOnFailure(a: Server, b: Server)
  {
    && Failing(b.tape) <= Failing(a.tape)
    && (Quiet(a, b) ==> b.closing <= a.closing && b.pending <= a.pending)
  }

  /** A finished server stays finished unless a cancellation is pending or a kernel call fails. */
  ghost predicate StaysFinished(a: Server, b: Server)
  {
    a.finished && a.pending == {} && Quiet(a, b) ==> b.finished
  }

  /** Cancellations tried since belong to no pass or to later ones. */
  ghost predicate OtherPasses(a: Server, b: Server)
  {
    forall x: Attempt :: 0 < x.pass <= a.passes ==> b.attempts[x] == a.attempts[x]
  }

  ghost predicate Forward(a: Server, b: Server, hole: set<int>)
  {
    Shrinks(a, b, hole) && Monotone(a, b) && RetainsOnFailure(a, b) && StaysFinished(a, b) && Counted(a, b)
  }

  ghost predicate Onward(a: Server, b: Server, hole: set<int>)
  {
    Forward(a, b, hole) && CaresForChildren(a, b) && TakesEffect(a, b) && KeepsSocketTasks(a, b) && KeepsAttended(a, b)
  }

  lemma Compose(a: Server, b: Server, c: Server, hole: set<int>)
    requires Onward(a, b, hole) && Onward(b, c, {})
    ensures Onward(a, c, hole)
    ensures OtherPasses(a, b) && OtherPasses(b, c) ==> OtherPasses(a, c)
  {
    ForwardCompose(a, b, c, hole);
    CaresCompose(a, b, c, hole);
    KeepsCompose(a, b, c, hole);
    assert TakesEffect(a, c) by {
      assert forall t :: Prompt(b, t) == Prompt(a, t);
    }
  }

  lemma ForwardCompose(a: Server, b: Server, c: Server, hole: set<int>)
    requires Forward(a, b, hole) && Forward(b, c, {})
    ensures Forward(a, c, hole)
    ensures OtherPasses(a, b) && OtherPasses(b, c) ==> OtherPasses(a, c)
  {
    CountedCompose(a, b, c);
    if a.pending == {} && Quiet(a, c) {
      assert b.pending == {};
    }
    assert KeepsHandlers(a, c) by {
      assert forall t | IsConnectionTask(b, t) :: IsConnectionTask(a, t);
    }
  }

  lemma StaysManned(a: Server, b: Server, hole: set<int>)
    requires Manned(a) && Onward(a, b, hole)
    ensures Manned(b)
  {
  }

  lemma SubsetSize<T>(a: set<T>, b: set<T>)
    requires a <= b
    ensures |a| <= |b|
  {
    assert b == a + (b - a);
  }

  /** `owned_connection_count` counts the streams held. */
  lemma OwnedCount(s: Server)
    requires Ownership(s, {})
    ensures |s.connections| + |s.closing| == |s.held|
  {
    assert s.held == s.connections.Keys + s.closing;
    assert |s.connections| == |s.connections.Keys|;
  }
}
