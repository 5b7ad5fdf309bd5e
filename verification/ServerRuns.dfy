/** Whole runs of one server: any interleaving of what its tasks, its owner and the kernel can do. */
module ServerRuns {
  import opened Answers
  import opened Optional
  import opened ServerState
  import opened ServerSteps
  import opened ServerTries
  import opened ServerPasses
  import opened ServerOwnership

  /** How a connection's child comes off `_owned_tasks` when the connection ends. */
  datatype Kind = Handler | WebSocketTask | Helper

  datatype Step =
    | Schedules(cursor: Option<int>)      // the scheduler runs another task, or none
    | RequestClose
    | RequestCloseFromTask(task: int)
    | FinalizeFromOwner
    | ForkChild(parent: int, task: int, kind: Kind)
    | TaskStarts(task: int)
    | TaskWinds(task: int)                // the finally block of a connection, up to the await of its last send
    | TaskEnds(task: int)                 // its finally block runs, or the rest of it
    | PeerResets(parent: int, task: int)  // the handler of a stream the peer has reset is let go and cancelled
    | ForceClose(stream: int, task: int)  // by a writer, a watchdog or the shutdown enforcer
    | OpenWebSocket(parent: int, handler: Option<int>)  // None where its handler cannot be spawned
    | CallsOff(task: int)                 // a task of a WebSocket cancels another one of it, best effort
    | OfferGracefulClose(stream: int)
    | ListenerContinues
    | ListenerAccepts(stream: int, task: int, made: bool, forks: bool)
    | ListenerCannotSetUp(stream: int)
    | ListenerFailsToAccept

  /** A connection forks a child: it owns the task and will cancel it when it ends. */
  function Forked(s: Server, parent: int, t: int, kind: Kind): Server
    requires parent in s.staff.serves
  {
    var serving := s.staff.serves[parent];
    s.(owned := s.owned + {t},
       staff := s.staff.(handlers := if kind == Handler then s.staff.handlers + {t} else s.staff.handlers,
                         helpers := if kind == Helper then s.staff.helpers + {t} else s.staff.helpers,
                         coordinated := if kind == WebSocketTask then s.staff.coordinated + {t} else s.staff.coordinated,
                         serves := s.staff.serves[parent := serving.(children := serving.children + {t})]))
  }

  /** The task's coroutine has begun: from now on it has a `finally` block to run. */
  function Begun(s: Server, t: int): Server
  {
    s.(live := s.live + {t}, staff := s.staff.(started := s.staff.started + {t}))
  }

  /** The parent forgets these children. */
  function LetGo(s: Server, parent: int, gone: set<int>): Server
    requires parent in s.staff.serves
  {
    var serving := s.staff.serves[parent];
    s.(staff := s.staff.(serves := s.staff.serves[parent := serving.(children := serving.children - gone)]))
  }

  /** A connection registers its WebSocket and spawns the handler. */
  function Opened(s: Server, parent: int, handler: Option<int>): Server
    requires parent in s.staff.serves
  {
    var c := s.staff.serves[parent].stream;
    if handler == None then
      s.(ws := s.ws + {c}, asked := s.asked - {c}, staff := s.staff.(sockets := s.staff.sockets - {c}))
    else
      var f := Forked(s, parent, handler.value, WebSocketTask);
      f.(ws := f.ws + {c}, asked := f.asked - {c}, staff := f.staff.(sockets := f.staff.sockets[c := handler.value]))
  }

  /** Can the step happen now?  Accepting needs an open listener, and the stream and task are new. */
  predicate Enabled(s: Server, step: Step)
  {
    match step
    case ForkChild(p, t, _) => p in s.live && p in s.staff.serves && IsNew(s, t)
    case TaskStarts(t) => t in s.owned && t !in s.staff.started
    case TaskWinds(t) => t in s.live && Serves(s, t) && SelfAsked(s, t)
    case TaskEnds(t) => t in s.live
    case PeerResets(p, _) => p in s.live && p in s.staff.serves
    case OpenWebSocket(p, h) =>
      p in s.live && p in s.staff.serves && s.staff.serves[p].stream in s.openStreams && s.staff.serves[p].stream !in s.ws
      && (h.Some? ==> IsNew(s, h.value))
    case CallsOff(t) => t in s.staff.coordinated
    case ListenerContinues => s.position == AtCheck || (s.position == AwaitingCapacity && (s.signalled || s.closeRequested))
    case ListenerAccepts(c, t, _, _) => s.position == Accepting && s.listenerOpen && c !in s.held && IsNew(s, t)
    case ListenerCannotSetUp(c) => s.position == Accepting && s.listenerOpen && c !in s.held
    case ListenerFailsToAccept => s.position == Accepting
    case _ => true
  }

  /** What one step guarantees. */
  ghost predicate Safe(a: Server, b: Server)
  {
    && Valid(b)
    && (a.callbacks == 1 ==> b.callbacks == 1)
    && (a.finished && !b.finished ==> a.pending != {} || Failing(b.tape) < Failing(a.tape))
  }

  lemma OnwardIsSafe(a: Server, b: Server)
    requires Valid(a) && Sound(b, {}) && NoLostWakeup(b) && Onward(a, b, {})
    ensures Safe(a, b)
  {
    StaysManned(a, b, {});
    assert b.callbacks == (if b.armed then 0 else 1);
  }

  lemma OnlyMore(a: Server, b: Server)
    requires Valid(a) && Manned(b) && b.live <= b.staff.started && (b.ws != a.ws ==> a.openStreams != {})
    requires b == a.(staff := b.staff, live := b.live, owned := b.owned, closers := b.closers, ws := b.ws, asked := b.asked,
                     cursor := b.cursor)
    ensures Safe(a, b)
  {
    GrownSound(a, b);
  }

  lemma ForkedManned(s: Server, parent: int, t: int, kind: Kind)
    requires Manned(s) && parent in s.staff.serves && IsNew(s, t)
    ensures Manned(Forked(s, parent, t, kind))
  {
    var b := Forked(s, parent, t, kind);
    assert b.staff.serves.Keys == s.staff.serves.Keys;
    assert forall u | u in s.staff.serves :: t !in s.staff.serves[u].children;
    assert forall c | c in s.staff.sockets :: s.staff.sockets[c] != t;
    assert Roles(b.staff);
  }

  lemma LetGoManned(s: Server, parent: int, gone: set<int>)
    requires Manned(s) && parent in s.staff.serves
    ensures Manned(LetGo(s, parent, gone))
  {
    var b := LetGo(s, parent, gone);
    assert b.staff.serves.Keys == s.staff.serves.Keys;
    assert forall u | u in s.staff.serves :: b.staff.serves[u].children <= s.staff.serves[u].children;
    assert Roles(b.staff);
  }

  lemma OpenedManned(s: Server, parent: int, handler: Option<int>)
    requires Manned(s) && parent in s.staff.serves && (handler.Some? ==> IsNew(s, handler.value))
    ensures Manned(Opened(s, parent, handler))
  {
    var b := Opened(s, parent, handler);
    if handler.Some? {
      var f := Forked(s, parent, handler.value, WebSocketTask);
      ForkedManned(s, parent, handler.value, WebSocketTask);
      assert forall c | c in s.staff.sockets :: s.staff.sockets[c] != handler.value;
      assert forall u | u in s.staff.serves && u != parent :: handler.value !in f.staff.serves[u].children;
      assert Roles(b.staff);
    }
  }

  /** A step of the listener task. */
  method ListenerStep(h: ServerHandle, step: Step)
    requires Valid(h.s) && Enabled(h.s, step)
    requires step.ListenerContinues? || step.ListenerAccepts? || step.ListenerCannotSetUp? || step.ListenerFailsToAccept?
    modifies h
    ensures Safe(old(h.s), h.s)
  {
    if step.ListenerAccepts? {
      h.Accepts(step.stream, step.task, step.made, step.forks, None);
    } else if step.ListenerCannotSetUp? {
      h.AcceptedSetupFails(step.stream, None);
    } else if step.ListenerFailsToAccept? {
      AcceptError(h);
    } else if h.s.position == AtCheck {
      h.ListenerRuns();
    } else {
      h.ListenerWakes();
    }
  }

  method AcceptError(h: ServerHandle)
    requires Valid(h.s) && h.s.position == Accepting
    modifies h
    ensures Safe(old(h.s), h.s)
  {
    h.AcceptFails(None);
  }

  /** A task is forked, starts, ends, is cancelled, or opens or offers something. */
  method TaskStep(h: ServerHandle, step: Step)
    requires Valid(h.s) && Enabled(h.s, step) && IsTaskStep(step)
    modifies h
    ensures Safe(old(h.s), h.s)
  {
    if step.TaskEnds? {
      EndTask(h, step.task);
    } else if step.TaskWinds? {
      WindTask(h, step.task);
    } else if step.PeerResets? {
      ResetHandler(h, step.parent, step.task);
    } else if step.CallsOff? {
      ghost var before := h.s;
      h.CallOff(step.task);
      OnwardIsSafe(before, h.s);
    } else {
      GrowthStep(h, step);
    }
  }

  /** A step that only adds something, or makes another task the running one. */
  method GrowthStep(h: ServerHandle, step: Step)
    requires Valid(h.s) && Enabled(h.s, step)
    requires step.ForkChild? || step.TaskStarts? || step.OpenWebSocket? || step.OfferGracefulClose? || step.Schedules?
    modifies h
    ensures Safe(old(h.s), h.s)
  {
    GrownSafe(h.s, step);
    h.s := Grown(h.s, step);
  }

  function Grown(s: Server, step: Step): Server
    requires Enabled(s, step)
    requires step.ForkChild? || step.TaskStarts? || step.OpenWebSocket? || step.OfferGracefulClose? || step.Schedules?
  {
    if step.ForkChild? then Forked(s, step.parent, step.task, step.kind)
    else if step.TaskStarts? then Begun(s, step.task)
    else if step.OpenWebSocket? then Opened(s, step.parent, step.handler)
    else if step.OfferGracefulClose? then s.(closers := s.closers + {step.stream})
    else s.(cursor := step.cursor)
  }

  lemma GrownSafe(s: Server, step: Step)
    requires Valid(s) && Enabled(s, step)
    requires step.ForkChild? || step.TaskStarts? || step.OpenWebSocket? || step.OfferGracefulClose? || step.Schedules?
    ensures Safe(s, Grown(s, step))
  {
    if step.ForkChild? {
      ForkSafe(s, step.parent, step.task, step.kind);
    } else if step.TaskStarts? {
      BeginSafe(s, step.task);
    } else if step.OpenWebSocket? {
      OpenSafe(s, step.parent, step.handler);
    } else if step.OfferGracefulClose? {
      OnlyMore(s, s.(closers := s.closers + {step.stream}));
    } else {
      OnlyMore(s, s.(cursor := step.cursor));
    }
  }

  lemma ForkSafe(s: Server, parent: int, t: int, kind: Kind)
    requires Valid(s) && parent in s.staff.serves && IsNew(s, t)
    ensures Safe(s, Forked(s, parent, t, kind))
  {
    ForkedManned(s, parent, t, kind);
    OnlyMore(s, Forked(s, parent, t, kind));
  }

  lemma BeginSafe(s: Server, t: int)
    requires Valid(s)
    ensures Safe(s, Begun(s, t))
  {
    OnlyMore(s, Begun(s, t));
  }

  lemma OpenSafe(s: Server, parent: int, handler: Option<int>)
    requires Valid(s) && parent in s.staff.serves && s.staff.serves[parent].stream in s.openStreams
    requires handler.Some? ==> IsNew(s, handler.value)
    ensures Safe(s, Opened(s, parent, handler))
  {
    OpenedManned(s, parent, handler);
    OnlyMore(s, Opened(s, parent, handler));
  }

  predicate IsTaskStep(step: Step)
  {
    step.ForkChild? || step.TaskStarts? || step.TaskWinds? || step.TaskEnds? || step.PeerResets? || step.OpenWebSocket?
    || step.CallsOff? || step.OfferGracefulClose? || step.Schedules?
  }

  method ResetHandler(h: ServerHandle, parent: int, t: int)
    requires Valid(h.s) && parent in h.s.staff.serves
    modifies h
    ensures Safe(old(h.s), h.s)
  {
    ghost var before := h.s;
    LetGoManned(h.s, parent, {t});
    h.s := LetGo(h.s, parent, {t});
    ghost var alone := h.s;
    OnlyMore(before, alone);
    var ok := h.CancelOrRetain(t, 0);
    OnwardIsSafe(alone, h.s);
  }

  /** An HTTP/2 connection has cancelled its children and awaits the send of its GOAWAY; it has none left. */
  method WindTask(h: ServerHandle, t: int)
    requires Valid(h.s) && t in h.s.live && Serves(h.s, t) && SelfAsked(h.s, t)
    modifies h
    ensures Safe(old(h.s), h.s)
    ensures t in h.s.live ==> ChildrenOf(h.s, t) == {}
  {
    ghost var before := h.s;
    h.CancelChildren(t);
    ghost var childless := h.s;
    OnwardIsSafe(before, childless);
    var children := h.s.staff.serves[t].children;
    LetGoManned(h.s, t, children);
    h.s := LetGo(h.s, t, children);
    OnlyMore(childless, h.s);
  }

  method EndTask(h: ServerHandle, t: int)
    requires Valid(h.s) && t in h.s.live
    modifies h
    ensures Safe(old(h.s), h.s)
  {
    ghost var before := h.s;
    h.s := h.s.(live := h.s.live - {t});
    EndingSound(before, t);
    h.RunFinalizer(t);
    EndedKept(before, h.s, t);
    OnwardIsSafe(before, h.s);
  }

  /** A request to shut down, or a forced close. */
  method ShutdownStep(h: ServerHandle, step: Step)
    requires Valid(h.s)
    requires step.RequestClose? || step.RequestCloseFromTask? || step.FinalizeFromOwner? || step.ForceClose?
    modifies h
    ensures Safe(old(h.s), h.s)
  {
    ghost var before := h.s;
    if step.RequestClose? {
      var raised := h.Close();
    } else if step.RequestCloseFromTask? {
      var raised := h.CloseFromTask(step.task);
    } else if step.FinalizeFromOwner? {
      h.FinishClose(None, true);
    } else {
      var ok := h.ForceConnectionClose(step.stream, Some(step.task));
    }
    OnwardIsSafe(before, h.s);
  }

  method Perform(h: ServerHandle, step: Step)
    requires Valid(h.s) && Enabled(h.s, step)
    modifies h
    ensures Safe(old(h.s), h.s)
  {
    if step.RequestClose? || step.RequestCloseFromTask? || step.FinalizeFromOwner? || step.ForceClose? {
      ShutdownStep(h, step);
    } else if IsTaskStep(step) {
      TaskStep(h, step);
    } else {
      ListenerStep(h, step);
    }
  }

  /**
   In every state a server can reach: each stream still open is in exactly one table, the two tables never
   hold more than the limit, whatever is retained has an error entry, the loops of no pass tried a task
   twice, no capacity wakeup is lost, of every fatal error somebody has heard, and the callback fired at most once,
   after everything was released.
   */
  method Run(h: ServerHandle, steps: seq<Step>)
    requires Valid(h.s)
    modifies h
    ensures Valid(h.s)
    ensures h.s.openStreams <= h.s.connections.Keys + h.s.closing && h.s.connections.Keys !! h.s.closing
    ensures |h.s.connections| + |h.s.closing| <= h.s.limit
    ensures forall c | c in h.s.closing :: StreamKey(c) in h.s.errors
    ensures forall c | StreamKey(c) in h.s.errors :: c in h.s.openStreams
    ensures forall t | TaskKey(t) in h.s.errors :: t in h.s.pending
    ensures (WakeupKey in h.s.errors ==> h.s.wakeupOpen) && (ListenerKey in h.s.errors ==> h.s.listenerOpen)
    ensures h.s.position == AwaitingCapacity && |h.s.connections| + |h.s.closing| < h.s.limit ==>
              h.s.signalled || h.s.closeRequested
    ensures forall a: Attempt :: a.pass > 0 ==> h.s.attempts[a] <= 1
    ensures h.s.failed ==> h.s.notificationSent || h.s.attempted || !h.s.listenerOpen
    ensures old(h.s).callbacks == 1 ==> h.s.callbacks == 1
    ensures h.s.callbacks <= 1 && (h.s.callbacks == 1 ==> Released(h.s))
  {
    RunOn(h, steps);
    OwnedCount(h.s);
  }

  /** The steps of a run that are enabled, one after the other. */
  method RunOn(h: ServerHandle, steps: seq<Step>)
    requires Valid(h.s)
    modifies h
    ensures Valid(h.s) && (old(h.s).callbacks == 1 ==> h.s.callbacks == 1)
  {
    for i := 0 to |steps|
      invariant Valid(h.s)
      invariant old(h.s).callbacks == 1 ==> h.s.callbacks == 1
    {
      if Enabled(h.s, steps[i]) {
        Perform(h, steps[i]);
      }
    }
  }

  // ---------------------------------------------------------------- what the runs do not promise

  /** An HTTP/2 handler that was forked and has not started, and does nothing but handle. */
  predicate IdleHandler(s: Server, x: int)
  {
    x in s.owned && x in s.staff.handlers && x !in s.staff.started && x !in s.cancelledIds && !IsConnectionTask(s, x)
  }

  /** A running connection of the table that the owner's pass makes run its `finally` block. */
  ghost predicate Interruptible(s: Server, t: int)
  {
    t in s.live && Serves(s, t) && IsConnectionTask(s, t) && t !in s.cancelledIds && Prompt(s, t)
  }

  lemma TriedTwice(a: Server, b: Server, t: int, x: int)
    requires Sound(a, {}) && Onward(a, b, {}) && OwnedTried(b, None, a.passes + 1)
    requires ChildOf(a, t, x) && IdleHandler(a, x) && t !in b.live
    ensures b.tries[x] >= a.tries[x] + 2
  {
    CountedAlways(a, b, x);
    assert CaredFor(a, b, t) && x in b.owned;
    if x !in b.cancelledIds {
      assert b.attempts[Attempt(a.passes + 1, x)] > 0 && a.attempts[Attempt(a.passes + 1, x)] == 0;
    }
  }

  /**
   One pass does not always try a task at most once.  When the owner finalizes, every handler that has been
   forked and has not started, of every running connection whose cancellation takes effect at once, is tried
   twice, by the connection's `finally` block and by the pass, whatever the kernel answers; and so is the
   handler of every live WebSocket not asked to shut down before, by the request and by its connection or the
   pass.
   */
  method PassTriesHandlersTwice(h: ServerHandle)
    requires Sound(h.s, {}) && !h.s.finished && Undisturbed(h.s)
    modifies h
    ensures Onward(old(h.s), h.s, {}) && PassDone(old(h.s), h.s, None, true) && (h.s.finished <==> AllGone(h.s))
    ensures h.s.closeRequested && PassTries(old(h.s), h.s, true)
    ensures forall t, x | Interruptible(old(h.s), t) && ChildOf(old(h.s), t, x) && IdleHandler(old(h.s), x) ::
              h.s.tries[x] >= old(h.s).tries[x] + 2
    ensures forall x | x in CalledOff(old(h.s)) && OwnedSocketTask(old(h.s), x) :: h.s.tries[x] >= old(h.s).tries[x] + 2
  {
    ghost var before := h.s;
    h.FinishClose(None, true);
    HandlersTriedTwice(before, h.s);
  }

  /** A WebSocket's task that no pass has cancelled. */
  predicate OwnedSocketTask(s: Server, x: int)
  {
    x in s.owned && SocketTask(s, x) && x !in s.cancelledIds
  }

  lemma HandlersTriedTwice(a: Server, b: Server)
    requires Sound(a, {}) && Onward(a, b, {}) && OwnedTried(b, None, a.passes + 1) && Stopped(a, b, None)
    ensures forall t, x | Interruptible(a, t) && ChildOf(a, t, x) && IdleHandler(a, x) :: b.tries[x] >= a.tries[x] + 2
  {
    forall t, x | Interruptible(a, t) && ChildOf(a, t, x) && IdleHandler(a, x) ensures b.tries[x] >= a.tries[x] + 2 {
      var c :| c in a.connections && a.connections[c] == t;
      TriedTwice(a, b, t, x);
    }
  }

  /**
   Exactly which tasks one owner's pass tries twice, when no kernel call fails and the connections are regular:
   the handlers of running HTTP/2 connections that linger, that is, that have not started, and the handlers of
   live WebSockets not asked to shut down before.  Every other task is tried at most once.
   */
  method PassTriesTwiceExactly(h: ServerHandle)
    requires Sound(h.s, {}) && !h.s.finished && Regular(h.s)
    requires forall t, x | ChildOf(h.s, t, x) && Lingers(h.s, x) :: Interruptible(h.s, t) && IdleHandler(h.s, x)
    requires forall x | x in CalledOff(h.s) :: OwnedSocketTask(h.s, x)
    modifies h
    ensures Onward(old(h.s), h.s, {}) && (Quiet(old(h.s), h.s) ==> TwiceExactly(old(h.s), h.s))
  {
    ghost var before := h.s;
    PassTriesHandlersTwice(h);
    if Quiet(before, h.s) {
      BoundsMeet(before, h.s);
    }
  }

  ghost predicate TwiceExactly(a: Server, b: Server)
  {
    forall x :: if LingeringChild(a, x) || x in CalledOff(a) then b.tries[x] == a.tries[x] + 2 else b.tries[x] <= a.tries[x] + 1
  }

  lemma BoundsMeet(a: Server, b: Server)
    requires TriesBounded(a, b)
    requires forall t, x | ChildOf(a, t, x) && Lingers(a, x) :: b.tries[x] >= a.tries[x] + 2
    requires forall x | x in CalledOff(a) :: b.tries[x] >= a.tries[x] + 2
    ensures TwiceExactly(a, b)
  {
    forall x | LingeringChild(a, x) ensures b.tries[x] == a.tries[x] + 2 {
      var t :| ChildOf(a, t, x);
      assert Lingers(a, x);
    }
  }

  /**
   The same in every state a run can reach, when nothing is pending and running connections with children are
   in the table: what is asked of WebSockets above always holds.
   */
  method PassTriesTwiceExactlyOnEveryRun(h: ServerHandle)
    requires Valid(h.s) && !h.s.finished && h.s.pending == {} && Tabled(h.s)
    requires forall t, x | ChildOf(h.s, t, x) && Lingers(h.s, x) :: Interruptible(h.s, t) && IdleHandler(h.s, x)
    modifies h
    ensures Onward(old(h.s), h.s, {}) && (Quiet(old(h.s), h.s) ==> TwiceExactly(old(h.s), h.s))
  {
    StaffedIsRegular(h.s);
    SocketsAreOwned(h.s);
    PassTriesTwiceExactly(h);
  }

  lemma SocketsAreOwned(s: Server)
    requires Manned(s)
    ensures forall x | x in CalledOff(s) :: OwnedSocketTask(s, x)
  {
    StaffedIsPlain(s);
    forall x | x in CalledOff(s) ensures OwnedSocketTask(s, x) {
      var c :| c in s.ws && Unasked(s, c) && s.staff.sockets[c] == x;
      assert Hears(s, c);
    }
  }

  /** A pass on the scheduler's side, in every such state, tries exactly the WebSocket handlers it calls off, once each. */
  method SchedulersPassTriesExactly(h: ServerHandle, current: Option<int>)
    requires Valid(h.s) && h.s.pending == {}
    modifies h
    ensures Onward(old(h.s), h.s, {}) && (Quiet(old(h.s), h.s) ==> TriesExactly(old(h.s), h.s, CalledOff(old(h.s))))
  {
    StaffedIsPlain(h.s);
    if h.s.finished {
      NothingCalled(h.s);
    }
    h.FinishClose(current, false);
  }

  /** With running HTTP/1.1 connections, which have no children, a pass without a failing call tries nobody twice. */
  method PassTriesOnce(h: ServerHandle)
    requires Sound(h.s, {}) && h.s.pending == {} && CalledOff(h.s) == {}
    requires forall t | t in h.s.live && Serves(h.s, t) :: ChildrenOf(h.s, t) == {}
    modifies h
    ensures Quiet(old(h.s), h.s) ==> forall x :: h.s.tries[x] <= old(h.s).tries[x] + 1
  {
    ChildlessIsRegular(h.s);
    h.FinishClose(None, true);
  }

  /**
   A server with one HTTP/2 connection on stream 1: its task 2 runs, has offered a graceful close and has
   forked handler 3.
   */
  function OneConnection(runsNow: (int, nat) -> bool, tape: seq<bool>): Server
  {
    NewServer(1, false, runsNow, tape).(
      staff := Staff({2}, {3}, {}, {}, {}, map[2 := Serving(1, {3})], map[], runsNow), live := {2}, openStreams := {1},
      connections := map[1 := 2], owned := {2, 3}, closers := {1}, held := {1})
  }

  /** How a server gets there. */
  method Connect(runsNow: (int, nat) -> bool, tape: seq<bool>) returns (h: ServerHandle)
    ensures fresh(h) && !h.hasWakeup && Valid(h.s) && h.s == OneConnection(runsNow, tape)
  {
    h := new ServerHandle(1, false, runsNow, tape);
    h.ListenerRuns();
    h.Accepts(1, 2, true, true, None);
    ghost var accepted := h.s;
    ConnectionForm(runsNow, tape);
    h.s := Begun(h.s, 2);
    h.s := Forked(h.s, 2, 3, Handler);
    h.s := h.s.(closers := h.s.closers + {1});
    OnlyMore(accepted, h.s);
  }

  lemma ConnectionForm(runsNow: (int, nat) -> bool, tape: seq<bool>)
    ensures var accepted := Registered(Arrived(NewServer(1, false, runsNow, tape), 1), 1, 2);
            Forked(Begun(accepted, 2), 2, 3, Handler).(closers := {} + {1}) == OneConnection(runsNow, tape)
  {
    var accepted := Registered(Arrived(NewServer(1, false, runsNow, tape), 1), 1, 2);
    var s := Forked(Begun(accepted, 2), 2, 3, Handler);
    assert accepted.connections == map[1 := 2] && accepted.staff.serves == map[2 := Serving(1, {})];
    assert s.owned == {2, 3} && s.live == {2} && s.held == {1} && s.openStreams == {1};
    assert {} + {3} == {3} && s.staff.serves == map[2 := Serving(1, {3})];
  }

  lemma OneHandler(s: Server)
    requires s.staff.serves == map[2 := Serving(1, {3})] && 3 in s.owned
    ensures ChildrenOf(s, 2) == {3}
  {
    assert s.staff.serves[2].children == {3};
  }

  /** A run in which one pass tries a handler twice, although no kernel call fails. */
  method OnePassTriesAHandlerTwice() returns (h: ServerHandle)
    ensures h.s.tries[3] >= 2 && h.s.finished
  {
    h := Connect((t, n) => true, []);
    ghost var before := h.s;
    HandlerWaits(before);
    PassTriesHandlersTwice(h);
    AllReleased(before, h.s);
  }

  lemma HandlerWaits(s: Server)
    requires s == OneConnection(s.staff.runsNow, []) && Prompt(s, 2)
    ensures Interruptible(s, 2) && ChildOf(s, 2, 3) && IdleHandler(s, 3)
  {
    assert 1 in s.connections && s.connections[1] == 2;
    OneHandler(s);
  }

  /** A server with one live WebSocket on stream 1, whose connection task 2 runs; its handler is task 3. */
  function OneWebSocket(runsNow: (int, nat) -> bool): Server
  {
    NewServer(1, false, runsNow, []).(
      staff := Staff({2}, {}, {}, {3}, {}, map[2 := Serving(1, {3})], map[1 := 3], runsNow), live := {2},
      openStreams := {1}, connections := map[1 := 2], owned := {2, 3}, ws := {1}, held := {1})
  }

  method ConnectWebSocket(runsNow: (int, nat) -> bool) returns (h: ServerHandle)
    ensures fresh(h) && Valid(h.s) && h.s == OneWebSocket(runsNow)
  {
    h := new ServerHandle(1, false, runsNow, []);
    h.ListenerRuns();
    h.Accepts(1, 2, true, true, None);
    ghost var accepted := h.s;
    WebSocketForm(runsNow);
    h.s := Begun(h.s, 2);
    OnlyMore(accepted, h.s);
    ghost var started := h.s;
    OpenedManned(started, 2, Some(3));
    h.s := Opened(h.s, 2, Some(3));
    OnlyMore(started, h.s);
  }

  lemma WebSocketForm(runsNow: (int, nat) -> bool)
    ensures var accepted := Registered(Arrived(NewServer(1, false, runsNow, []), 1), 1, 2);
            && 2 in accepted.staff.serves && Opened(Begun(accepted, 2), 2, Some(3)) == OneWebSocket(runsNow)
            && accepted.openStreams == {1} && accepted.staff.serves[2].stream == 1
            && IsNew(Begun(accepted, 2), 3) && accepted.ws == {}
  {
    var accepted := Registered(Arrived(NewServer(1, false, runsNow, []), 1), 1, 2);
    var s := Opened(Begun(accepted, 2), 2, Some(3));
    assert accepted.connections == map[1 := 2] && accepted.staff.serves == map[2 := Serving(1, {})];
    assert s.owned == {2, 3} && s.live == {2} && s.held == {1} && s.openStreams == {1} && s.ws == {1} && s.asked == {};
    assert {} + {3} == {3} && s.staff.serves == map[2 := Serving(1, {3})] && s.staff.sockets == map[1 := 3];
    assert s.staff.coordinated == {3};
  }

  lemma OneCalled(runsNow: (int, nat) -> bool)
    ensures var s := OneWebSocket(runsNow);
            CalledOff(s) == {3} && Tabled(s) && forall t, x :: !(ChildOf(s, t, x) && Lingers(s, x))
  {
    var s := OneWebSocket(runsNow);
    assert Unasked(s, 1) && s.connections[1] == 2;
    assert IsConnectionTask(s, 2);
    assert CalledOff(s) == {3};
  }

  /** Without a failing kernel call, the owner's pass tries the handler of one live WebSocket twice. */
  method OwnerTriesAWebSocketTwice(runsNow: (int, nat) -> bool) returns (h: ServerHandle)
    ensures h.s.tries[3] == 2
  {
    h := ConnectWebSocket(runsNow);
    OneCalled(runsNow);
    PassTriesTwiceExactlyOnEveryRun(h);
  }

  /** A pass on the scheduler's side tries it once, and nobody else. */
  method SchedulerTriesAWebSocketOnce(runsNow: (int, nat) -> bool) returns (h: ServerHandle)
    ensures h.s.tries[3] == 1 && h.s.tries[2] == 0
  {
    h := ConnectWebSocket(runsNow);
    OneCalled(runsNow);
    SchedulersPassTriesExactly(h, None);
  }

  /** The watchdog has closed the stream, and another task closes the server. */
  lemma ClosedServer(runsNow: (int, nat) -> bool)
    ensures var s := OneConnection(runsNow, [false, false, true]);
            var forced := Closed(s.(cursor := Some(5), closers := s.closers - {1}), 1);
            var done := PlainPass(forced, 1);
            && Plain(forced, 1, Some(5)) && done.finished && done.callbacks == 1 && done.tape == [true]
            && done.staff == s.staff && done.owned == {2, 3} && done.live == {2}
  {
    var s := OneConnection(runsNow, [false, false, true]);
    var forced := Closed(s.(cursor := Some(5), closers := s.closers - {1}), 1);
    assert map[1 := 2].Keys == {1} && forced.openStreams == {} && forced.closing == {} && forced.tape == [false, true];
    var popped := Popped(WakeupTried(Began(forced)), 1);
    assert popped.connections == map[];
    var closed := Closed(popped, 1);
    assert closed.closing == {} && closed.tape == [false, true];
  }

  /**
   A finished server does not always stay finished.  The watchdog closes the stream, another task closes the
   server, which finishes; then the connection task ends, its handler's cancellation fails, and `finished` is
   taken back although the callback has fired.
   */
  method FinishedIsTakenBack() returns (h: ServerHandle, first: bool)
    ensures first && !h.s.finished && h.s.callbacks == 1
  {
    h := Connect((t, n) => false, [false, false, true]);
    ClosedServer(h.s.staff.runsNow);
    h.s := h.s.(cursor := Some(5));
    var ok := h.ForceConnectionClose(1, Some(4));
    var raised := h.CloseFromTask(5);
    first := h.s.finished;
    TakeBack(h);
  }

  /** The connection task ends, and its handler's cancellation fails. */
  method TakeBack(h: ServerHandle)
    requires Valid(h.s) && h.s.staff == OneConnection(h.s.staff.runsNow, []).staff && h.s.owned == {2, 3} && h.s.live == {2}
    requires h.s.finished && h.s.callbacks == 1 && h.s.tape == [true]
    modifies h
    ensures !h.s.finished && h.s.callbacks == 1
  {
    ghost var closed := h.s;
    h.s := h.s.(live := h.s.live - {2});
    EndingSound(closed, 2);
    OneHandler(h.s);
    h.ConnectionEnds(2);
    EndedKept(closed, h.s, 2);
  }
}
