/**
 `ServerHandle`, method by method.  Its attributes are the components of one record, so that a contract
 can speak of the whole state before and after a call.  Methods are atomic between two awaits.

 Cancelling a task may run the task's own `finally` block before it returns, so the methods are
 re-entrant the way the source's are: a cancelled connection calls `ConnectionFinished`, the cancelled
 close watcher calls `FinishClose`.  The recursion ends because a task runs its `finally` block once and
 because a close failure starts a finalization pass only if none was attempted before.
 */
module ServerOwnership {
  import opened Answers
  import opened Optional
  import opened ServerState
  import opened ServerSteps
  import opened ServerTries
  import opened ServerPasses

  class ServerHandle {
    const hasWakeup: bool
    var s: Server

    constructor (limit: nat, hasWakeup: bool, runsNow: (int, nat) -> bool, tape: seq<bool>)
      requires limit > 0
      ensures Valid(s) && this.hasWakeup == hasWakeup && s == NewServer(limit, hasWakeup, runsNow, tape)
    {
      this.hasWakeup := hasWakeup;
      s := NewServer(limit, hasWakeup, runsNow, tape);
    }

    method KernelFails() returns (fails: bool)
      modifies this
      ensures fails == Fails(old(s).tape) && s == Answered(old(s))
    {
      fails := s.tape != [] && s.tape[0];
      s := s.(tape := if s.tape == [] then [] else s.tape[1..]);
    }

    /** `close_safely`: a closed stream stays closed, an open one is closed unless the kernel raises. */
    method CloseStream(c: int) returns (ok: bool)
      modifies this
      ensures ok == (c !in old(s).openStreams || !Fails(old(s).tape))
      ensures s == if ok then StreamClosed(old(s), c) else Answered(old(s))
    {
      if c !in s.openStreams {
        return true;
      }
      var fails := KernelFails();
      if fails { return false; }
      s := s.(openStreams := s.openStreams - {c});
      ok := true;
    }

    /** `close_safely`, and what is forgotten of a stream once it is closed. */
    method TryClose(c: int) returns (ok: bool)
      modifies this
      ensures ok == (c !in old(s).openStreams || !Fails(old(s).tape))
      ensures s == if ok then Closed(old(s), c) else Answered(old(s))
    {
      ghost var before := s;
      ok := CloseStream(c);
      if ok {
        s := s.(closing := s.closing - {c}, errors := s.errors - {StreamKey(c)},
                held := if c in s.connections then s.held else s.held - {c});
        ClosedForm(before, c);
      }
    }

    // -------------------------------------------------------------- closing streams

    /** `_close_or_retain`. */
    method CloseOrRetain(c: int, current: Option<int>) returns (ok: bool)
      requires Sound(s, HoleOf(s, c))
      modifies this
      decreases |s.live|, if s.attempted then 0 else 1, 5
      ensures Kept(old(s), s, HoleOf(old(s), c), {})
      ensures ok ==> s == Closed(old(s), c) && Quiet(old(s), s)
      ensures ok == (c !in old(s).openStreams || !Fails(old(s).tape))
      ensures old(s).attempted ==> s.callbacks == old(s).callbacks && SameTasks(old(s), s)
      ensures !ok ==> s.closeRequested && s.failed && Heard(s) && !Quiet(old(s), s)
    {
      ghost var before := s;
      ok := TryClose(c);
      if ok {
        ClosedKept(before, c);
        return;
      }
      KeepForRetry(before, c);
      RetainedKept(before, c);
      ConnectionCloseFailed(current);
      Chain(before, Retained(before, c), s, HoleOf(before, c), {});
    }

    /** The kernel has refused to close the stream. */
    method KeepForRetry(ghost before: Server, c: int)
      requires s == Answered(before)
      modifies this
      ensures s == Retained(before, c)
    {
      s := s.(closing := if c in s.connections then s.closing else s.closing + {c},
              errors := s.errors + {StreamKey(c)}, closeRequested := true);
      RetainedForm(before, c);
    }

    /** `self._connections.pop` and `_close_or_retain`. */
    method PopAndClose(c: int, current: Option<int>) returns (ok: bool)
      requires Sound(s, {})
      modifies this
      decreases |s.live|, if s.attempted then 0 else 1, 6
      ensures Kept(old(s), s, {}, {}) && PopCloses(old(s), s, c, ok)
      ensures old(s).attempted ==> s.callbacks == old(s).callbacks && SameTasks(Popped(old(s), c), s)
    {
      ghost var before := s;
      s := Popped(s, c);
      PoppedSound(before, c);
      ok := CloseOrRetain(c, current);
      PopLeaves(before, s, c, ok);
    }

    /** `_force_connection_close`. */
    method ForceConnectionClose(c: int, current: Option<int>) returns (ok: bool)
      requires Sound(s, {})
      modifies this
      decreases |s.live|, if s.attempted then 0 else 1, 6
      ensures Kept(old(s), s, {}, {})
      ensures c !in s.closers && ok == (c !in old(s).openStreams || !Fails(old(s).tape))
      ensures ok ==> s == Closed(old(s).(closers := old(s).closers - {c}), c)
      ensures !ok ==> s.closeRequested && s.failed && Heard(s)
      ensures NoLostWakeup(old(s)) ==> NoLostWakeup(s)
    {
      ghost var before := s;
      s := s.(closers := s.closers - {c});
      CloserGone(before, c);
      ghost var ready := s;
      HoleInTable(s, c);
      ok := CloseOrRetain(c, current);
      ForcedKept(before, ready, s, c);
    }

    /** `_connection_close_failed`. */
    method ConnectionCloseFailed(current: Option<int>)
      requires Sound(s, {})
      modifies this
      decreases |s.live|, if s.attempted then 0 else 1, 4
      ensures Kept(old(s), s, {}, {}) && s.closeRequested && s.failed && Heard(s)
      ensures old(s).attempted ==> s.callbacks == old(s).callbacks && SameTasks(old(s), s)
    {
      ghost var before, doomed := s, Doomed(s);
      s := s.(failed := true, closeRequested := true);
      ghost var asked := s;
      AskedKept(before);
      if s.attempted {
      } else if hasWakeup && !s.notificationSent {
        var told := Notify();
        ghost var answered := s;
        Chain(doomed, asked, answered, {}, {});
        if !told {
          FinishClose(current, false);
          Chain(doomed, answered, s, {}, {});
        }
      } else if !hasWakeup {
        FinishClose(current, false);
        Chain(doomed, asked, s, {}, {});
      }
      DoomedThen(before, s);
    }

    /** `self._wakeup.notify()`, and the flag that remembers it went through. */
    method Notify() returns (told: bool)
      requires Sound(s, {})
      modifies this
      ensures Kept(old(s), s, {}, {}) && told == !Fails(old(s).tape)
      ensures s == if told then Answered(old(s)).(notificationSent := true) else Answered(old(s))
    {
      ghost var before := s;
      var fails := KernelFails();
      ghost var heard := s;
      AnsweredKept(before);
      told := !fails;
      if told {
        s := s.(notificationSent := true);
        ToldKept(heard);
        Chain(before, heard, s, {}, {});
      }
    }

    /** `_listener_failed`. */
    method ListenerFailed(current: Option<int>)
      requires Sound(s, {})
      modifies this
      decreases |s.live|, if s.attempted then 0 else 1, 15
      ensures Kept(old(s), s, {}, {}) && s.closeRequested && s.failed && Heard(s)
    {
      ghost var before, doomed := s, Doomed(s);
      var observable := Announce();
      if !observable {
        ghost var announced := s;
        FinishClose(current, false);
        Chain(doomed, announced, s, {}, {});
      }
      DoomedThen(before, s);
    }

    /** The first part of `_listener_failed`: is the shutdown made known by the wakeup channel? */
    method Announce() returns (observable: bool)
      requires Sound(s, {})
      modifies this
      ensures Kept(Doomed(old(s)), s, {}, {}) && s.closeRequested && s.failed
      ensures s.live == old(s).live && s.attempted == old(s).attempted
      ensures observable == s.notificationSent
    {
      AnnouncedKept(s, hasWakeup);
      s := s.(failed := true, closeRequested := true);
      observable := s.notificationSent;
      if hasWakeup && !s.notificationSent {
        var fails := KernelFails();
        s := s.(notificationSent := !fails);
        observable := !fails;
      }
    }

    // -------------------------------------------------------------- tasks

    /** `_cancel_or_retain_task`; `pass` is the finalization pass that tries it, 0 outside one. */
    method CancelOrRetain(t: int, pass: nat) returns (ok: bool)
      requires Sound(s, {}) && NoLostWakeup(s)
      requires pass > 0 ==> pass <= s.passes && s.attempts[Attempt(pass, t)] == 0
      modifies this
      decreases |s.live|, if s.attempted then 0 else 1, 7
      ensures Sound(s, {}) && Onward(old(s), s, {}) && OneAttempt(old(s), s, t, pass) && NoLostWakeup(s)
      ensures if ok then t !in s.pending else t in s.pending && !Quiet(old(s), s)
      ensures CountedFor(old(s), s, t, pass)
      ensures Plainly(old(s), t) ==> PlainlyCancelled(old(s), s, t, pass)
      ensures Prompt(old(s), t) ==> t !in s.live
      ensures Neat(old(s), t) && Quiet(old(s), s) ==> Cancelled(old(s), s, t)
    {
      ghost var before := s;
      s := Tried(s, t, pass);
      TriedSound(before, t, pass);
      AskRuntime(t);
      ghost var ran := s;
      ok := Settle(t);
      CancelDone(before, ran, s, t, pass);
      CancelLeaves(before, ran, s, t, pass);
    }

    /** The kernel's answer to `cancel_task`, and what is retained of it. */
    method Settle(t: int) returns (ok: bool)
      modifies this
      ensures ok == !Fails(old(s).tape) && s == Settled(old(s), t)
    {
      var fails := KernelFails();
      if fails {
        s := s.(pending := s.pending + {t}, errors := s.errors + {TaskKey(t)});
      } else {
        s := s.(pending := s.pending - {t}, errors := s.errors - {TaskKey(t)});
      }
      ok := !fails;
    }

    /** The runtime's side of `cancel_task`: a started task runs its `finally` block, now or never. */
    method AskRuntime(t: int)
      requires Sound(s, {}) && NoLostWakeup(s)
      modifies this
      decreases |s.live|, if s.attempted then 0 else 1, 6
      ensures Kept(old(s), s, {}, {}) && NoLostWakeup(s)
      ensures Plainly(old(s), t) ==> s == old(s) || (t in old(s).live && s == LeftTable(old(s), t))
      ensures Prompt(old(s), t) ==> t !in s.live
      ensures Asks(old(s), s, t)
    {
      if s.staff.runsNow(t, |s.tries|) && t in s.live {
        Interrupt(t);
      } else {
        SameKept(s, {});
      }
    }

    /** `_WebSocketState._cancel_task`: a try whose failure is forgotten; the running task is left alone. */
    method CallOff(t: int)
      requires Sound(s, {}) && NoLostWakeup(s)
      modifies this
      decreases |s.live|, if s.attempted then 0 else 1, 7
      ensures Kept(old(s), s, {}, {}) && NoLostWakeup(s)
      ensures Some(t) == old(s).cursor ==> s == old(s)
      ensures Some(t) != old(s).cursor ==> Asides(s, t) > Asides(old(s), t)
      ensures Some(t) != old(s).cursor && Plainly(old(s), t) ==> CalledPlainly(old(s), s, t)
    {
      ghost var before := s;
      if Some(t) == s.cursor {
        SameKept(before, {});
        return;
      }
      s := Tried(s, t, 0);
      TriedSound(before, t, 0);
      ghost var tried := s;
      AskRuntime(t);
      ghost var ran := s;
      var fails := KernelFails();
      AnsweredKept(ran);
      CallDone(before, ran, s, t);
    }

    /** `request_shutdown`: once for each WebSocket, its handler is called off. */
    method RequestShutdown(c: int)
      requires Sound(s, {}) && NoLostWakeup(s)
      modifies this
      decreases |s.live|, if s.attempted then 0 else 1, 8
      ensures Kept(old(s), s, {}, {}) && NoLostWakeup(s) && c in s.asked
      ensures RequestedPlainly(old(s), s, c) && SameTable(old(s), s) && NotYet(old(s), s)
    {
      ghost var before := s;
      if c in s.asked {
        SameKept(before, {});
        return;
      }
      s := s.(asked := s.asked + {c});
      StreamAskedKept(before, c);
      if c in s.staff.sockets {
        CallOff(s.staff.sockets[c]);
        RequestDone(before, s, c);
      }
    }

    /** All live WebSockets are asked to shut down. */
    method RequestShutdowns()
      requires Sound(s, {}) && NoLostWakeup(s)
      modifies this
      decreases |s.live|, if s.attempted then 0 else 1, 9
      ensures Kept(old(s), s, {}, {}) && NoLostWakeup(s)
      ensures AskedSoFar(old(s), s, {}) && SameTable(old(s), s) && NotYet(old(s), s)
      ensures old(s).ws == {} ==> s == old(s)
    {
      ghost var before := s;
      SameKept(before, {});
      NoneAsked(before);
      var todo := s.ws;
      while exists c :: c in todo
        invariant Kept(before, s, {}, {}) && NoLostWakeup(s)
        invariant AskedSoFar(before, s, todo) && SameTable(before, s) && NotYet(before, s)
        invariant before.ws == {} ==> s == before && todo == {}
        decreases |todo|
      {
        var c :| c in todo;
        ghost var from := s;
        SubsetSize(s.live, before.live);
        RequestShutdown(c);
        Chain(before, from, s, {}, {});
        RequestsOneMore(before, from, s, todo, c);
        todo := todo - {c};
      }
    }

    /** A started task is made to run its `finally` block. */
    method Interrupt(t: int)
      requires Sound(s, {}) && NoLostWakeup(s) && t in s.live
      modifies this
      decreases |s.live|, 0, 0
      ensures Kept(old(s), s, {}, {}) && NoLostWakeup(s)
      ensures Bare(old(s), t) ==> s == LeftTable(old(s), t)
      ensures t !in s.live
      ensures Neat(old(s), t) && Quiet(old(s), s) ==> Dismissed(Ending(old(s), t), s, Kids(old(s), t))
    {
      ghost var before := s;
      s := s.(live := s.live - {t});
      EndingSound(before, t);
      RunFinalizer(t);
      Interrupted(before, s, t);
    }

    /** The `finally` block of a task, whether it ended by itself or was cancelled. */
    method RunFinalizer(t: int)
      requires Sound(s, {}) && NoLostWakeup(s) && t in s.staff.started
      modifies this
      decreases |s.live|, 2, 4
      ensures Kept(old(s), s, {}, {}) && NoLostWakeup(s)
      ensures Bare(old(s), t) ==> s == if Disowns(old(s), t) then Disowned(old(s), t) else old(s)
      ensures Serves(old(s), t) ==> CaredFor(old(s), s, t)
      ensures old(s).pending == {} && AllAsked(old(s)) && AllSimple(old(s), Kids(old(s), t)) && Quiet(old(s), s) ==>
                Dismissed(old(s), s, Kids(old(s), t))
    {
      if t in s.staff.watchers {
        FinishClose(Some(t), false);
      } else if t in s.staff.serves {
        ConnectionEnds(t);
      } else if t in s.staff.handlers || t in s.staff.helpers {
        DisownedKept(s, t);
        s := s.(owned := s.owned - {t});
      } else {
        SameKept(s, {});
      }
    }

    /**
     The `finally` block of a connection task: its WebSocket is asked to shut down, its children are cancelled,
     and its stream is given up.
     */
    method ConnectionEnds(t: int)
      requires Sound(s, {}) && NoLostWakeup(s) && t in s.staff.started && t in s.staff.serves
      modifies this
      decreases |s.live|, 2, 3
      ensures Kept(old(s), s, {}, {}) && NoLostWakeup(s) && CaredFor(old(s), s, t)
      ensures var c := old(s).staff.serves[t].stream; c !in s.connections && c !in s.ws && c !in s.closers
      ensures SelfAsked(old(s), t) ==> ChildrenTried(old(s), s, t)
      ensures SelfAsked(old(s), t) && old(s).pending == {} && AllSimple(old(s), ChildrenOf(old(s), t)) && Quiet(old(s), s) ==>
                Dismissed(old(s), s, ChildrenOf(old(s), t))
      ensures old(s).finished ==>
                forall x | ChildrenOf(old(s), t) == {x} && x !in old(s).live && Fails(old(s).tape) :: !s.finished
    {
      ghost var before := s;
      var c := s.staff.serves[t].stream;
      SameKept(before, {});
      if c in s.ws {
        RequestShutdown(c);
      }
      ghost var asked := s;
      SubsetSize(s.live, before.live);
      ConnectionGivenUp(t);
      EndedSince(before, asked, s, t);
      if before.finished {
        FinishedIsAsked(before, t);
      }
    }

    /** Its WebSocket knows: the children of a connection are cancelled and its stream is given up. */
    method ConnectionGivenUp(t: int)
      requires Sound(s, {}) && NoLostWakeup(s) && t in s.staff.started && SelfAsked(s, t)
      modifies this
      decreases |s.live|, 2, 2
      ensures Kept(old(s), s, {}, {}) && NoLostWakeup(s) && ChildrenTried(old(s), s, t)
      ensures var c := old(s).staff.serves[t].stream; c !in s.connections && c !in s.ws && c !in s.closers
      ensures old(s).pending == {} && AllSimple(old(s), ChildrenOf(old(s), t)) && Quiet(old(s), s) ==>
                Dismissed(old(s), s, ChildrenOf(old(s), t))
      ensures old(s).finished ==>
                forall x | ChildrenOf(old(s), t) == {x} && x !in old(s).live && Fails(old(s).tape) :: !s.finished
    {
      ghost var before := s;
      var c := s.staff.serves[t].stream;
      CancelChildren(t);
      ghost var childless := s;
      s := s.(ws := s.ws - {c});
      ghost var detached := s;
      WithoutState(childless, c);
      SubsetSize(s.live, before.live);
      ConnectionFinished(t, c);
      ConnectionEnded(before, childless, detached, s, t);
    }

    /** Handlers, writers, watchdogs and WebSocket tasks of a connection that ends. */
    method CancelChildren(t: int)
      requires Sound(s, {}) && NoLostWakeup(s) && SelfAsked(s, t)
      modifies this
      decreases |s.live|, 2, 1
      ensures Kept(old(s), s, {}, {}) && NoLostWakeup(s) && ChildrenTried(old(s), s, t)
      ensures forall x | ChildrenOf(old(s), t) == {x} && x !in old(s).live :: s == ChildCancelled(old(s), x)
      ensures DismissedSoFar(old(s), s, ChildrenOf(old(s), t), {})
    {
      ghost var before := s;
      SameKept(before, {});
      var children := ChildrenOf(s, t);
      ghost var all := children;
      NoneDismissed(before, all);
      while exists child :: child in children
        invariant Kept(before, s, {}, {}) && NoLostWakeup(s) && TriedSoFar(before, s, all, children)
        invariant DismissedSoFar(before, s, all, children)
        decreases |children|
      {
        var child :| child in children;
        ghost var from := s;
        SubsetSize(s.live, before.live);
        CancelChild(t, child);
        Chain(before, from, s, {}, {});
        TriedOneMore(before, from, s, all, children, child);
        DismissedOneMore(before, from, s, all, children, child);
        children := children - {child};
      }
      assert children == {};
      AllTried(before, s, all, t);
    }

    /** An HTTP/2 handler is left to disown itself; a WebSocket task is disowned once it is cancelled; any other is disowned. */
    method CancelChild(ghost t: int, child: int)
      requires Sound(s, {}) && NoLostWakeup(s) && SelfAsked(s, t) && child in s.staff.serves[t].children
      modifies this
      decreases |s.live|, 2, 0
      ensures Kept(old(s), s, {}, {}) && NoLostWakeup(s) && Asides(s, child) > Asides(old(s), child)
      ensures child !in old(s).live ==> s == ChildCancelled(old(s), child)
      ensures Quiet(old(s), s) && Simple(old(s), child) ==> Dismissed(old(s), s, {child})
    {
      ghost var before := s;
      var ok := CancelOrRetain(child, 0);
      ghost var asked := s;
      DisownChild(child, ok);
      ChildDone(before, asked, t, child);
      ChildLeaves(before, asked, child);
    }

    method DisownChild(child: int, cancelled: bool)
      requires cancelled == (child !in s.pending)
      modifies this
      ensures s == MaybeDisowned(old(s), child)
    {
      if child !in s.staff.handlers && (cancelled || child !in s.staff.coordinated) {
        s := s.(owned := s.owned - {child});
      }
    }

    // -------------------------------------------------------------- connections

    /** `_notify_capacity_released`. */
    method NotifyCapacityReleased(previous: nat, current: Option<int>)
      requires Sound(s, {})
      requires s.waiting && !s.closeRequested && !s.signalled ==> previous >= s.limit
      modifies this
      decreases |s.live|, if s.attempted then 0 else 1, 16
      ensures Kept(old(s), s, {}, {}) && NoLostWakeup(s)
      ensures previous < s.limit ==> s == old(s)
      ensures Quiet(old(s), s) ==> Untouched(old(s), s)
    {
      ghost var before := s;
      SameKept(before, {});
      if !s.waiting || previous < s.limit || |s.connections| + |s.closing| >= s.limit { return; }
      var fails := KernelFails();
      ghost var heard := s;
      AnsweredKept(before);
      if fails {
        ListenerFailed(current);
      } else {
        s := s.(signalled := true);
        SignalledKept(heard);
      }
      Chain(before, heard, s, {}, {});
    }

    /**
     `_connection_finished`.  A finished server stays finished if and only if no task cancellation is
     pending when a connection task ends.
     */
    method ConnectionFinished(task: int, c: int)
      requires Sound(s, {}) && NoLostWakeup(s) && task in s.staff.started && task in s.staff.serves
      modifies this
      decreases |s.live|, if s.attempted then 0 else 1, 20
      ensures Kept(old(s), s, {}, {}) && NoLostWakeup(s)
      ensures c !in s.connections && (s.finished <==> AllGone(s))
      ensures TaskOf(old(s), task, c) !in s.owned && c !in s.closers
      ensures old(s).finished ==> (s.finished <==> old(s).pending == {})
      ensures Quiet(old(s), s) ==> Untouched(old(s), s)
    {
      ghost var before := s;
      var previous := |s.connections| + |s.closing|;
      ReleaseConnection(task, c);
      ghost var placed := s;
      SubsetSize(s.live, before.live);
      NotifyCapacityReleased(previous, Some(task));
      ghost var notified := s;
      Chain(before, placed, notified, {}, {});
      UpdateFinished();
      Chain(before, notified, s, {}, {});
    }

    /** The connection leaves the table and its stream is closed or retained. */
    method ReleaseConnection(task: int, c: int)
      requires Sound(s, {}) && task in s.staff.started && task in s.staff.serves
      modifies this
      decreases |s.live|, if s.attempted then 0 else 1, 8
      ensures Kept(old(s), s, {}, {}) && c !in s.connections
      ensures TaskOf(old(s), task, c) !in s.owned && c !in s.closers
      ensures s.closeRequested || s.signalled == old(s).signalled
      ensures old(s).finished ==> (AllGone(s) <==> old(s).pending == {})
      ensures Quiet(old(s), s) ==> Untouched(old(s), s)
    {
      ghost var before := s;
      ghost var gone := ForgetConnection(task, c);
      ghost var detached := s;
      var ok := PopAndClose(c, Some(task));
      ReleaseDone(before, detached, s, gone, c, ok);
    }

    /** The graceful closer and the owned-task entry of a connection go. */
    method ForgetConnection(task: int, c: int) returns (ghost gone: int)
      requires Sound(s, {}) && task in s.staff.started && task in s.staff.serves
      modifies this
      ensures Kept(old(s), s, {}, {})
      ensures s == old(s).(closers := old(s).closers - {c}, owned := old(s).owned - {gone})
      ensures gone == TaskOf(old(s), task, c)
    {
      ghost var before := s;
      var ownedTask := if c in s.connections then s.connections[c] else task;
      gone := ownedTask;
      s := s.(closers := s.closers - {c});
      ghost var ungraceful := s;
      CloserGone(before, c);
      s := s.(owned := s.owned - {ownedTask});
      DisownedKept(ungraceful, ownedTask);
      Chain(before, ungraceful, s, {}, {});
    }

    /** `_update_finished`. */
    method UpdateFinished()
      requires Sound(s, {})
      modifies this
      ensures s == Updated(old(s)) && Kept(old(s), s, {}, {}) && Quiet(old(s), s) && (s.finished <==> AllGone(s))
    {
      ghost var before := s;
      UpdatedKept(before);
      var was := s.finished;
      s := s.(finished := AllGone(s));
      if s.finished {
        s := s.(errors := {});
        if !was && s.armed {
          s := s.(armed := false, callbacks := s.callbacks + 1);
        }
      }
    }

    // -------------------------------------------------------------- finalization

    /**
     `_finish_close`: one finalization pass.  It asks every live WebSocket to shut down, which calls off its
     handler; then its loops try to cancel no task twice.  While the tasks are calm, or while no kernel call
     fails and the connections are regular, nobody else tries a task again, except that the owner's pass tries
     twice the handlers it called off and those that linger in running connections; connections that it
     interrupts run their `finally` block inside it.  Without a failing kernel call the pass leaves nothing
     retained; and it ends finished exactly when everything is gone.
     */
    method FinishClose(current: Option<int>, ownerThread: bool)
      requires Sound(s, {})
      modifies this
      decreases |s.live|, if s.attempted then 0 else 1, if s.attempted then 14 else 3
      ensures Kept(old(s), s, {}, {}) && NoLostWakeup(s) && Heard(s)
      ensures if old(s).finished then s == old(s) else PassLeaves(old(s), s, current, ownerThread)
    {
      ghost var before := s;
      if s.finished {
        SameKept(before, {});
        return;
      }
      RunPass(current, ownerThread);
    }

    /** The pass itself. */
    method RunPass(current: Option<int>, ownerThread: bool)
      requires Sound(s, {}) && !s.finished
      modifies this
      decreases |s.live|, if s.attempted then 0 else 1, if s.attempted then 13 else 2
      ensures Kept(old(s), s, {}, {}) && NoLostWakeup(s) && PassLeaves(old(s), s, current, ownerThread)
    {
      ghost var before := s;
      var pass := s.passes + 1;
      BeginPass();
      ghost var asked := s;
      SubsetSize(s.live, before.live);
      FinishPass(current, ownerThread, pass);
      PassSince(before, asked, s, current, ownerThread, pass);
    }

    /** Shutdown is asked for, and all live WebSockets hear of it. */
    method BeginPass()
      requires Sound(s, {})
      modifies this
      decreases |s.live|, if s.attempted then 0 else 1, if s.attempted then 12 else 1
      ensures Kept(old(s), s, {}, {}) && InPass(s, old(s).passes + 1, {})
      ensures HasBegun(old(s), s)
    {
      ghost var before := s;
      BeganKept(s);
      s := Began(s);
      RequestShutdowns();
      PassBegun(before, s);
    }

    /** Everything behind the requests. */
    method FinishPass(current: Option<int>, ownerThread: bool, pass: nat)
      requires InPass(s, pass, {})
      modifies this
      decreases |s.live|, 0, 12, 1
      ensures RestOfPass(old(s), s, current, ownerThread, pass)
    {
      ghost var before := s;
      StartPass(pass);
      ghost var started := s;
      SubsetSize(s.live, before.live);
      Sweep(current, ownerThread, pass);
      ghost var swept := s;
      EndPass();
      PassComplete(before, started, swept, s, current, ownerThread, pass);
    }

    /** The body of a pass: earlier cancellations, the connections and, for the owner, every task left. */
    method Sweep(current: Option<int>, ownerThread: bool, pass: nat)
      requires InPass(s, pass, {})
      modifies this
      decreases |s.live|, 0, 12, 0
      ensures Swept(old(s), s, current, ownerThread, pass)
      ensures ownerThread ==> OwnedTried(s, current, pass)
      ensures ownerThread && old(s).pending == {} ==> Stopped(old(s), s, current)
      ensures !ownerThread ==> SmoothlyClosed(old(s), s, current)
      ensures TriesSwept(old(s), s, ownerThread)
      ensures ownerThread ==> exists tried :: TasksOnly(old(s), s, tried)
    {
      ghost var before := s;
      var tried := SweepConnections(current, ownerThread, pass);
      ghost var closed := s;
      if ownerThread {
        SubsetSize(s.live, before.live);
        TableSwept(before, s, tried, current, pass);
        tried := CancelOwned(before, current, pass, tried);
        SweptOn(before, closed, s, current, ownerThread, pass);
        assert TasksOnly(before, s, tried);
      }
    }

    /** The first part of a pass: earlier cancellations, and the connections. */
    method SweepConnections(current: Option<int>, ownerThread: bool, pass: nat) returns (tried: set<int>)
      requires InPass(s, pass, {})
      modifies this
      decreases |s.live|, 0, 11
      ensures InPass(s, pass, tried) && Swept(old(s), s, current, ownerThread, pass)
      ensures old(s).pending == {} ==> TableLedger(old(s), s, tried, ownerThread)
      ensures ownerThread && old(s).pending == {} ==> TableTried(old(s), s, map[], current, pass)
      ensures TasksOnly(old(s), s, tried)
      ensures !ownerThread ==> SmoothlyClosed(old(s), s, current)
    {
      ghost var before := s;
      tried := RetryCancellations(pass);
      ghost var cancelled := s;
      SubsetSize(s.live, before.live);
      tried := CloseConnections(current, ownerThread, pass, tried);
      ChainIn(before, cancelled, s, pass);
      StaysThrough(before, cancelled, s, current, ownerThread);
      MustStayThrough(before, cancelled, s, current, ownerThread);
    }

    /** Behind the requests: the wakeup channel and the streams retained by earlier failures. */
    method StartPass(pass: nat)
      requires InPass(s, pass, {})
      modifies this
      ensures InPass(s, pass, {}) && KeptIn(old(s), s, pass)
      ensures Quiet(old(s), s) ==> !s.wakeupOpen && s.closing == {}
      ensures SameTasks(old(s), s)
      ensures old(s).closing == {} ==> s == WakeupTried(old(s))
    {
      ghost var before := s;
      CloseWakeup();
      ghost var unwoken := s;
      WokenIn(before, pass);
      RetryRetained(pass);
      PassStarted(before, unwoken, s, pass);
    }

    /** Its end: the listener, and whether everything is gone now. */
    method EndPass()
      requires Sound(s, {})
      modifies this
      ensures Kept(old(s), s, {}, {}) && (s.finished <==> AllGone(s))
      ensures Quiet(old(s), s) ==> !s.listenerOpen
      ensures !s.finished ==> s.callbacks == old(s).callbacks
      ensures SameTasks(old(s), s) && s == Updated(ListenerTried(old(s)))
    {
      ghost var before := s;
      CloseListener();
      ghost var closed := s;
      UpdateFinished();
      Chain(before, closed, s, {}, {});
    }

    method CloseWakeup()
      requires Sound(s, {})
      modifies this
      ensures s == WakeupTried(old(s)) && Kept(old(s), s, {}, {}) && (Quiet(old(s), s) ==> !s.wakeupOpen)
    {
      ghost var before := s;
      WakeupKept(before);
      if s.wakeupOpen {
        var fails := KernelFails();
        s := s.(wakeupOpen := fails, errors := if fails then s.errors + {WakeupKey} else s.errors - {WakeupKey});
      }
    }

    method CloseListener()
      requires Sound(s, {})
      modifies this
      ensures s == ListenerTried(old(s)) && Kept(old(s), s, {}, {}) && (Quiet(old(s), s) ==> !s.listenerOpen)
    {
      ghost var before := s;
      ListenerKept(before);
      if s.listenerOpen {
        var fails := KernelFails();
        s := s.(listenerOpen := fails, errors := if fails then s.errors + {ListenerKey} else s.errors - {ListenerKey});
      }
    }

    /** Streams retained by an earlier failure are tried once more. */
    method RetryRetained(ghost pass: nat)
      requires InPass(s, pass, {})
      modifies this
      ensures Kept(old(s), s, {}, {}) && InPass(s, pass, {})
      ensures s.passes == old(s).passes && s.callbacks == old(s).callbacks && SameTasks(old(s), s)
      ensures Quiet(old(s), s) ==> s.closing == {}
      ensures old(s).closing == {} ==> s == old(s)
    {
      ghost var before := s;
      SameKept(before, {});
      var todo := s.closing;
      while exists c :: c in todo
        invariant Kept(before, s, {}, {}) && s.closeRequested
        invariant s.passes == before.passes && s.callbacks == before.callbacks && SameTasks(before, s)
        invariant Quiet(before, s) ==> s.closing <= todo
        invariant before.closing == {} ==> s == before && todo == {}
        decreases |todo|
      {
        var c :| c in todo;
        todo := todo - {c};
        ghost var from := s;
        RetryStream(c);
        StreamRetriedKept(from, c);
        Chain(before, from, s, {}, {});
      }
      PassUndisturbed(before, s, pass, {});
    }

    method RetryStream(c: int)
      modifies this
      ensures s == StreamRetried(old(s), c)
    {
      var ok := TryClose(c);
      if !ok {
        s := s.(errors := s.errors + {StreamKey(c)});
      }
    }

    /** Cancellations that failed earlier are tried once more. */
    method RetryCancellations(pass: nat) returns (tried: set<int>)
      requires InPass(s, pass, {})
      modifies this
      decreases |s.live|, 0, 9
      ensures InPass(s, pass, tried) && KeptIn(old(s), s, pass) && SameTable(old(s), s)
      ensures Quiet(old(s), s) ==> s.pending == {}
      ensures old(s).pending == {} ==> s == old(s) && tried == {}
      ensures TasksOnly(old(s), s, tried)
    {
      ghost var before := s;
      tried := {};
      var todo := s.pending;
      NoneRetried(before, pass);
      while exists t :: t in todo
        invariant InPass(s, pass, tried) && s.live <= before.live && RetriedSoFar(before, s, todo, tried, pass)
        decreases |todo|
      {
        var t :| t in todo;
        SubsetSize(s.live, before.live);
        RetryNext(before, todo, t, pass, tried);
        todo := todo - {t};
        tried := tried + {t};
      }
    }

    /** One more of the pending cancellations. */
    method RetryNext(ghost before: Server, ghost todo: set<int>, t: int, pass: nat, ghost tried: set<int>)
      requires InPass(s, pass, tried) && RetriedSoFar(before, s, todo, tried, pass) && t in todo
      modifies this
      decreases |s.live|, 0, 8, 1
      ensures InPass(s, pass, tried + {t}) && s.live <= old(s).live && RetriedSoFar(before, s, todo - {t}, tried + {t}, pass)
    {
      ghost var from := s;
      CancelInPass(t, pass, tried);
      RetriedOneMore(before, from, s, todo, tried, t, pass);
    }

    /** One attempt of a pass; a task cancelled is remembered. */
    method CancelInPass(t: int, pass: nat, ghost tried: set<int>)
      requires InPass(s, pass, tried) && t !in tried
      modifies this
      decreases |s.live|, 0, 8, 0
      ensures InPass(s, pass, tried + {t}) && KeptIn(old(s), s, pass) && SameTable(old(s), s)
      ensures Quiet(old(s), s) ==> t !in s.pending && t in s.cancelledIds
      ensures t in s.pending || t in s.cancelledIds
      ensures Neat(old(s), t) && Quiet(old(s), s) ==> Cancelled(old(s), s, t)
      ensures old(s).live == {} ==> TriedPlainly(old(s), s, t)
    {
      ghost var before := s;
      assert s.attempts[Attempt(pass, t)] == 0;
      var ok := CancelOrRetain(t, pass);
      ghost var asked := s;
      if ok {
        s := s.(cancelledIds := s.cancelledIds + {t});
      }
      AttemptDone(before, asked, s, t, pass, tried);
    }

    /** The connections of the pass's snapshot: cancelled or asked to close, and then closed or retained. */
    method CloseConnections(current: Option<int>, ownerThread: bool, pass: nat, tried0: set<int>) returns (tried: set<int>)
      requires InPass(s, pass, tried0)
      modifies this
      decreases |s.live|, 0, 10
      ensures InPass(s, pass, tried) && KeptIn(old(s), s, pass)
      ensures forall c | c in s.connections :: Stays(old(s), c, current, ownerThread)
      ensures CalmTable(old(s), s, current, ownerThread)
      ensures ownerThread ==> TableTried(old(s), s, map[], current, pass)
      ensures tried0 == {} ==> TableLedger(old(s), s, tried, ownerThread)
      ensures old(s).connections.Keys == {} ==> s == old(s) && tried == tried0
      ensures !ownerThread ==> SmoothlyClosed(old(s), s, current)
    {
      ghost var before := s;
      tried := CloseTable(current, ownerThread, pass, tried0);
      TableEnds(before, s, map[], current, ownerThread, pass, tried0, tried);
    }

    /** The loop over the snapshot. */
    method CloseTable(current: Option<int>, ownerThread: bool, pass: nat, tried0: set<int>) returns (tried: set<int>)
      requires InPass(s, pass, tried0)
      modifies this
      decreases |s.live|, 0, 10, 1
      ensures InPass(s, pass, tried)
      ensures TableSoFar(old(s), s, map[], current, ownerThread, pass, tried0, tried)
    {
      ghost var before := s;
      tried := tried0;
      var todo := s.connections;
      TableStarts(before, current, ownerThread, pass, tried0);
      while exists c :: c in todo
        invariant InPass(s, pass, tried) && s.live <= before.live
        invariant TableSoFar(before, s, todo, current, ownerThread, pass, tried0, tried)
        decreases |todo|
      {
        var c :| c in todo;
        SubsetSize(s.live, before.live);
        tried := CloseNext(before, todo, c, current, ownerThread, pass, tried0, tried);
        todo := todo - {c};
      }
      assert todo == map[];
    }

    /** One more connection of the snapshot. */
    method CloseNext(ghost before: Server, todo: map<int, int>, c: int, current: Option<int>, ownerThread: bool, pass: nat,
                     ghost first: set<int>, tried0: set<int>) returns (tried: set<int>)
      requires InPass(s, pass, tried0) && c in todo
      requires TableSoFar(before, s, todo, current, ownerThread, pass, first, tried0)
      modifies this
      decreases |s.live|, 0, 10, 0
      ensures InPass(s, pass, tried) && s.live <= old(s).live
      ensures TableSoFar(before, s, todo - {c}, current, ownerThread, pass, first, tried)
    {
      ghost var from := s;
      tried := CloseOne(c, todo[c], current, ownerThread, pass, tried0);
      TableOneMore(before, from, s, todo, c, current, ownerThread, pass, first, tried0, tried);
    }

    method CloseOne(c: int, task: int, current: Option<int>, ownerThread: bool, pass: nat, tried0: set<int>)
      returns (tried: set<int>)
      requires InPass(s, pass, tried0)
      modifies this
      decreases |s.live|, 0, 9
      ensures InPass(s, pass, tried) && OneClosed(old(s), s, c, task, current, ownerThread, pass)
      ensures OneTried(old(s), s, task, current, ownerThread, pass, tried0, tried)
    {
      ghost var before := s;
      NothingAsked(before, task, current, ownerThread, pass, tried0);
      tried := tried0;
      var graceful := false;
      var websocketOwned := c in s.ws;
      if ownerThread {
        if Some(task) != current && task !in s.cancelledIds && task !in tried {
          CancelInPass(task, pass, tried);
          tried := tried + {task};
          TaskAsked(before, s, task, current, pass, tried0);
        }
      } else if Some(task) != current {
        if c in s.closers {
          var raises: bool := *;
          graceful := !raises;
        }
        if websocketOwned {
          graceful := true;
        }
      }
      if Some(task) != current && !(!ownerThread && graceful) {
        ghost var asked := s;
        SubsetSize(s.live, before.live);
        CloseInPass(c, current, pass, tried);
        TaskClosed(before, asked, s, c, task, current, ownerThread, pass, tried0, tried);
      } else {
        NotClosed(before, c, task, current, ownerThread, pass);
      }
    }

    /** A connection the pass does not leave to its task. */
    method CloseInPass(c: int, current: Option<int>, pass: nat, ghost tried: set<int>)
      requires InPass(s, pass, tried)
      modifies this
      decreases |s.live|, 0, 7
      ensures InPass(s, pass, tried) && KeptIn(old(s), s, pass)
      ensures ClosedInPass(old(s), s, c)
    {
      ghost var before := s;
      var ok := PopAndClose(c, current);
      PassUndisturbed(before, s, pass, tried);
    }

    /** Whatever task is still owned is cancelled, unless it was or the pass has tried. */
    method CancelOwned(ghost first: Server, current: Option<int>, pass: nat, tried0: set<int>) returns (tried: set<int>)
      requires InPass(s, pass, tried0) && Onward(first, s, {}) && OwnedLedger(first, s, tried0, s.owned, current)
      requires TasksOnly(first, s, tried0)
      modifies this
      decreases |s.live|, 0, 9
      ensures InPass(s, pass, tried) && KeptIn(old(s), s, pass) && SameTable(old(s), s)
      ensures forall t | t in s.owned :: Some(t) == current || t in s.cancelledIds || t in tried
      ensures Regular(first) && AllAsked(first) && Quiet(first, s) ==> TriesBounded(first, s)
      ensures TasksOnly(first, s, tried)
    {
      ghost var before := s;
      tried := tried0;
      SameKept(before, {});
      KeptIsIn(before, before, pass);
      var todo := s.owned;
      while exists t :: t in todo
        invariant InPass(s, pass, tried) && s.live <= before.live
        invariant OwnedSoFar(first, before, s, todo, current, pass, tried)
        decreases |todo|
      {
        var t :| t in todo;
        if Some(t) != current && t !in s.cancelledIds && t !in tried {
          SubsetSize(s.live, before.live);
          CancelNext(first, before, todo, t, current, pass, tried);
          tried := tried + {t};
        }
        todo := todo - {t};
      }
      OwnedIsBounded(first, s, tried, before.owned, current);
    }

    /** One more task of the snapshot. */
    method CancelNext(ghost first: Server, ghost before: Server, ghost todo: set<int>, t: int, ghost current: Option<int>,
                      pass: nat, ghost tried: set<int>)
      requires InPass(s, pass, tried) && OwnedSoFar(first, before, s, todo, current, pass, tried)
      requires t in todo && t !in tried && t !in s.cancelledIds && Some(t) != current
      modifies this
      decreases |s.live|, 0, 8, 1
      ensures InPass(s, pass, tried + {t}) && s.live <= old(s).live
      ensures OwnedSoFar(first, before, s, todo - {t}, current, pass, tried + {t})
    {
      ghost var from := s;
      CancelInPass(t, pass, tried);
      OwnedNext(first, before, from, s, todo, t, current, pass, tried);
    }

    /**
     Finalization converges: with n kernel failures still to come and no live WebSocket state, at most
     n + 1 owner-thread passes release everything.
     */
    method FinalizeUntilDone() returns (rounds: nat)
      requires Sound(s, {}) && s.ws == {}
      modifies this
      ensures Sound(s, {}) && s.finished && s.callbacks == 1
      ensures rounds <= Failing(old(s).tape) + 1
    {
      rounds := 0;
      while !s.finished
        invariant Sound(s, {}) && s.ws == {}
        invariant if s.finished then rounds <= Failing(old(s).tape) + 1 else rounds + Failing(s.tape) <= Failing(old(s).tape)
        decreases if s.finished then 0 else Failing(s.tape) + 1
      {
        ghost var from := s;
        FinishClose(None, true);
        rounds := rounds + 1;
        if !s.finished {
          assert s.connections == map[] by {
            assert forall c :: c !in s.connections;
          }
        }
      }
    }

    // -------------------------------------------------------------- shutdown requests

    /** `close`, from outside the scheduler; true where it raises. */
    method Close() returns (raised: bool)
      requires Valid(s)
      modifies this
      ensures Valid(s) && Onward(old(s), s, {}) && OtherPasses(old(s), s)
      ensures old(s).finished || !hasWakeup ==> s == old(s)
      ensures !old(s).finished && hasWakeup ==> s.closeRequested && (!raised ==> s.notificationSent)
      ensures raised <==> !old(s).finished && (!hasWakeup || CannotTell(old(s)))
    {
      SameKept(s, {});
      if s.finished { return false; }
      if !hasWakeup { return true; }
      raised := AskToClose();
    }

    method AskToClose() returns (raised: bool)
      requires Valid(s) && !s.finished
      modifies this
      ensures Valid(s) && Kept(old(s), s, {}, {}) && s.closeRequested
      ensures (raised <==> CannotTell(old(s))) && (!raised ==> s.notificationSent)
      ensures old(s).notificationSent ==> s == old(s).(closeRequested := true)
    {
      ghost var before := s;
      s := s.(closeRequested := true);
      ghost var asked := s;
      AskedAgain(before);
      if s.notificationSent {
        raised := s.attempted && !s.finished;
      } else {
        var told := Notify();
        Chain(before, asked, s, {}, {});
        raised := !told;
      }
      StillValid(before, s);
    }

    /** `close_from_task`; true where it raises, because the task is not the running one. */
    method CloseFromTask(task: int) returns (raised: bool)
      requires Valid(s)
      modifies this
      ensures Valid(s) && Onward(old(s), s, {}) && OtherPasses(old(s), s)
      ensures raised <==> old(s).cursor != Some(task)
      ensures raised || old(s).finished ==> s == old(s)
      ensures !raised && !old(s).finished ==> s.closeRequested && s.attempted && (s.finished <==> AllGone(s))
      ensures !raised ==> forall c | Plain(old(s), c, Some(task)) :: s == PlainPass(old(s), c)
      ensures !raised ==> PassTries(old(s), s, false)
    {
      SameKept(s, {});
      if s.cursor != Some(task) { return true; }
      raised := false;
      if s.finished {
        NothingCalled(s);
      } else {
        CloseUnfinished(task);
      }
    }

    method CloseUnfinished(task: int)
      requires Valid(s) && !s.finished
      modifies this
      ensures Valid(s) && Kept(old(s), s, {}, {})
      ensures s.closeRequested && s.attempted && (s.finished <==> AllGone(s))
      ensures forall c | Plain(old(s), c, Some(task)) :: s == PlainPass(old(s), c)
      ensures PassTries(old(s), s, false)
    {
      ghost var before := s;
      FlagAndAsk();
      ghost var asked := s;
      FinishClose(Some(task), false);
      ClosedFromTask(before, asked, s, Some(task));
    }

    method FlagAndAsk()
      requires Valid(s)
      modifies this
      ensures Kept(old(s), s, {}, {}) && s.closeRequested && s.finished == old(s).finished
      ensures AllAsked(s) && s.pending == old(s).pending && TriesExactly(old(s), s, CalledOff(old(s)))
      ensures old(s).ws == {} ==> s == old(s).(closeRequested := true, attempted := true)
    {
      ghost var before := s;
      s := s.(closeRequested := true, attempted := true);
      ghost var flagged := s;
      AttemptedKept(before);
      RequestShutdowns();
      Chain(before, flagged, s, {}, {});
      FlagsOnly(flagged, s);
      FlaggedCalls(before);
    }

    // -------------------------------------------------------------- the accept loop

    /** The head of the loop, up to the next await. */
    method ListenerRuns()
      requires Valid(s) && s.position == AtCheck
      modifies this
      ensures Valid(s)
      ensures s == HeadOfLoop(old(s))
    {
      HeadOfLoopValid(s);
      if s.closeRequested {
        s := s.(position := Ended);
      } else if |s.connections| + |s.closing| >= s.limit {
        s := s.(position := AwaitingCapacity, waiting := true);
      } else {
        s := s.(position := Accepting);
      }
    }

    /** The wait for capacity ends, by its signal or because a finalization pass resumed the task. */
    method ListenerWakes()
      requires Valid(s) && s.position == AwaitingCapacity && (s.signalled || s.closeRequested)
      modifies this
      ensures Valid(s) && s == old(s).(position := AtCheck, waiting := false, signalled := false)
    {
      ghost var before := s;
      s := s.(position := AtCheck, waiting := false, signalled := false);
      MovedSound(before, AtCheck, false, false);
    }

    method EndListener()
      requires Sound(s, {}) && !s.waiting && Manned(s) && (s.failed ==> Heard(s))
      modifies this
      ensures Valid(s) && s == old(s).(position := Ended)
    {
      ghost var before := s;
      s := s.(position := Ended);
      MovedSound(before, Ended, s.waiting, s.signalled);
    }

    /** `accept` raised. */
    method AcceptFails(current: Option<int>)
      requires Valid(s) && s.position == Accepting
      modifies this
      ensures Valid(s) && s.closeRequested && s.position == Ended
      ensures if old(s).closeRequested then s == old(s).(position := Ended) else s.failed && Heard(s)
    {
      ghost var before := s;
      SameKept(before, {});
      if !s.closeRequested {
        ListenerFailed(current);
      }
      StaysManned(before, s, {});
      EndListener();
    }

    /** `accept` took a stream, failed to configure it and could not close it: `_accepted_setup_failed`. */
    method AcceptedSetupFails(c: int, current: Option<int>)
      requires Valid(s) && s.position == Accepting && s.listenerOpen && c !in s.held
      modifies this
      ensures Valid(s) && s.closeRequested && s.failed && Heard(s) && s.position == Ended
    {
      ghost var before := s;
      s := Arrived(s, c);
      ghost var arrived := s;
      ArrivedSound(before, c);
      s := s.(closing := s.closing + {c}, errors := s.errors + {StreamKey(c)}, failed := true, closeRequested := true);
      SetupRetained(arrived, c);
      ghost var retained := s;
      ConnectionCloseFailed(current);
      StaysManned(retained, s, {});
      EndListener();
    }

    /**
     `accept` returned a stream.  On a closed server it is closed or retained; otherwise it becomes a
     connection with a task of its own, unless the task cannot be made or registered.
     */
    method Accepts(c: int, task: int, made: bool, forks: bool, current: Option<int>)
      requires Valid(s) && s.position == Accepting && s.listenerOpen && c !in s.held && IsNew(s, task)
      modifies this
      ensures Valid(s)
      ensures made && forks && !old(s).closeRequested ==>
                s == Registered(Arrived(old(s), c), c, task) && s.position == AtCheck
      ensures !made || !forks || old(s).closeRequested ==> s.closeRequested && c !in s.connections
    {
      ghost var before := s;
      var closed := s.closeRequested;
      s := Arrived(s, c);
      ghost var arrived := s;
      ArrivedSound(before, c);
      if closed {
        RejectStream(c, current);
        return;
      }
      if !made {
        FailRegistration(c, current);
        return;
      }
      s := s.(connections := s.connections[c := task], owned := s.owned + {task},
              staff := s.staff.(serves := s.staff.serves[task := Serving(c, {})]));
      RegisteredSound(arrived, c, task);
      RegisteredManned(arrived, c, task);
      if !forks {
        UndoRegistration(c, task, current);
      }
    }

    method FailRegistration(c: int, current: Option<int>)
      requires Sound(s, {c}) && HoleOf(s, c) == {c} && !s.waiting && s.position == AtCheck && Manned(s)
      modifies this
      ensures Valid(s) && s.closeRequested && c !in s.connections
    {
      ghost var before := s;
      var ok := CloseOrRetain(c, current);
      StaysManned(before, s, {c});
      ghost var placed := s;
      ListenerFailed(current);
      StaysManned(placed, s, {});
      EndListener();
    }

    method RejectStream(c: int, current: Option<int>)
      requires Sound(s, {c}) && HoleOf(s, c) == {c} && s.closeRequested && !s.waiting && s.position == AtCheck && Manned(s)
      requires s.failed ==> Heard(s)
      modifies this
      ensures Valid(s) && s.closeRequested && c !in s.connections
    {
      ghost var before := s;
      var ok := CloseOrRetain(c, current);
      StaysManned(before, s, {c});
      if !ok {
        EndListener();
      }
    }

    /** The task that could not be forked: disowned once it is cancelled. */
    method CancelUnforked(c: int, task: int)
      requires Sound(s, {}) && !s.waiting && c in s.connections && s.connections[c] == task && task !in s.live && Manned(s)
      modifies this
      ensures Sound(s, {}) && s.waiting == old(s).waiting && s.position == old(s).position && Manned(s)
    {
      ghost var before := s;
      var undone := CancelOrRetain(task, 0);
      ghost var asked := s;
      StaysManned(before, asked, {});
      if undone {
        s := s.(owned := s.owned - {task});
        assert before.connections[c] == task && task in asked.staff.serves;
        DisownedUnforked(asked, task);
      }
    }

    method UndoRegistration(c: int, task: int, current: Option<int>)
      requires Sound(s, {}) && c in s.connections && s.connections[c] == task
      requires !s.waiting && task !in s.live && s.position == AtCheck && Manned(s)
      modifies this
      ensures Valid(s) && s.closeRequested && c !in s.connections && s.position == Ended
    {
      CancelUnforked(c, task);
      ghost var cancelled := s;
      var ok := PopAndClose(c, current);
      StaysManned(cancelled, s, {});
      ghost var placed := s;
      ListenerFailed(current);
      StaysManned(placed, s, {});
      EndListener();
    }
  }
}
