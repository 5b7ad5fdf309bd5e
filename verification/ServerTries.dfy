/**
 How often one finalization pass tries a task while no kernel call fails.  The pass first calls off the
 handlers of all WebSockets it asks to shut down, and tries them again with their connection or, if that is
 not stopped, from `_owned_tasks`.  The `finally` block of a connection cancels its children, but leaves its
 HTTP/2 handlers on `_owned_tasks`, where the owner's pass finds those that have not ended.
 */
module ServerTries {
  import opened Answers
  import opened Optional
  import opened ServerState
  import opened ServerSteps

  /** Nobody was tried, and nobody's `finally` block has run. */
  ghost predicate Untouched(a: Server, b: Server)
  {
    b.tries == a.tries && b.live == a.live
  }

  /** A handler that its cancellation may leave on `_owned_tasks`. */
  ghost predicate Lingers(s: Server, x: int)
  {
    x in s.staff.handlers && !(x in s.live && Prompt(s, x))
  }

  /** A running connection will cancel the task. */
  ghost predicate ChildOf(s: Server, t: int, x: int)
  {
    t in s.live && Serves(s, t) && x in ChildrenOf(s, t)
  }

  /** Such a handler of a running connection. */
  ghost predicate LingeringChild(s: Server, x: int)
  {
    Lingers(s, x) && exists t :: ChildOf(s, t, x)
  }

  /** Asking the WebSocket on the stream to shut down calls off its handler, unless that is the running task. */
  predicate Unasked(s: Server, c: int) { Hears(s, c) && Some(s.staff.sockets[c]) != s.cursor }

  /** The handlers that asking the WebSockets on these streams calls off. */
  function CalledBy(s: Server, streams: set<int>): set<int>
  {
    set c | c in streams && Unasked(s, c) :: s.staff.sockets[c]
  }

  function CalledOff(s: Server): set<int> { CalledBy(s, s.ws) }

  predicate AllAsked(s: Server) { s.ws <= s.asked }

  /**
   Every task was tried at most once; at most twice a lingering handler of a running connection, and the
   handler of a live WebSocket not asked to shut down before.
   */
  ghost predicate TriesBounded(a: Server, b: Server)
  {
    forall x :: b.tries[x] <= a.tries[x] + if LingeringChild(a, x) || x in CalledOff(a) then 2 else 1
  }

  /** The handlers called off are different tasks, and their `finally` blocks do nothing else. */
  predicate SocketsPlain(s: Server)
  {
    forall c | c in s.ws && Unasked(s, c) ::
      && (s.staff.sockets[c] !in s.live || Bare(s, s.staff.sockets[c]))
      && forall d | d in s.ws && Unasked(s, d) && d != c :: s.staff.sockets[d] != s.staff.sockets[c]
  }

  /** Exactly these tasks were called off, each once; nothing else has happened. */
  ghost predicate CallsExactly(a: Server, b: Server, called: set<int>)
  {
    && OnlyTasks(a, b) && TriesExactly(a, b, called)
    && (forall x :: Asides(b, x) == Asides(a, x) + if x in called then 1 else 0)
    && (forall x, p: nat | p > 0 :: b.attempts[Attempt(p, x)] == a.attempts[Attempt(p, x)])
    && (forall x | x in a.owned && (x in called ==> !Disowns(a, x)) :: x in b.owned)
  }

  /** The states differ at most in the tasks tried and ended, the answers taken and the WebSockets asked. */
  ghost predicate OnlyTasks(a: Server, b: Server)
  {
    b == a.(tape := b.tape, live := b.live, owned := b.owned, asked := b.asked, attempts := b.attempts, tries := b.tries)
  }

  ghost predicate TriesExactly(a: Server, b: Server, called: set<int>)
  {
    (forall x :: b.tries[x] == a.tries[x] + if x in called then 1 else 0) && a.live - called <= b.live <= a.live
  }

  /** A task with no children of its own. */
  predicate Simple(s: Server, x: int)
  {
    Bare(s, x) && !IsConnectionTask(s, x)
  }

  /**
   No cancellation is pending; the children of running connections are simple, each of one connection, and
   a running connection with children is still in the table; the handlers of WebSockets not asked to shut
   down are simple too, and different.
   */
  ghost predicate Regular(s: Server)
  {
    && s.pending == {} && SocketsPlain(s)
    && (forall x | x in CalledOff(s) :: Simple(s, x) && !Disowns(s, x))
    && (forall t | t in s.live && Serves(s, t) ::
          (ChildrenOf(s, t) != {} ==> IsConnectionTask(s, t)) && forall x | x in ChildrenOf(s, t) :: Simple(s, x))
    && (forall t, u | t in s.live && u in s.live && Serves(s, t) && Serves(s, u) && t != u :: ChildrenOf(s, t) !! ChildrenOf(s, u))
  }

  /** Running connections without children, as HTTP/1.1 has them, are regular, whatever else runs. */
  lemma ChildlessIsRegular(s: Server)
    requires s.pending == {} && CalledOff(s) == {} && forall t | t in s.live && Serves(s, t) :: ChildrenOf(s, t) == {}
    ensures Regular(s) && forall x :: !LingeringChild(s, x)
  {
    assert forall t, x :: !ChildOf(s, t, x);
    CalledMembers(s);
  }

  lemma CalledMembers(s: Server)
    ensures forall c | c in s.ws && Unasked(s, c) :: s.staff.sockets[c] in CalledOff(s)
  {
  }

  /** A running connection that still has children is in the table. */
  ghost predicate Tabled(s: Server)
  {
    forall t | t in s.live && Serves(s, t) && ChildrenOf(s, t) != {} :: IsConnectionTask(s, t)
  }

  lemma StaffedIsPlain(s: Server)
    requires Staffed(s)
    ensures SocketsPlain(s) && forall x | x in CalledOff(s) :: Simple(s, x) && !Disowns(s, x)
    ensures forall x | x in s.staff.handlers + s.staff.helpers + s.staff.coordinated :: Simple(s, x)
  {
    forall x | x in s.staff.handlers + s.staff.helpers + s.staff.coordinated ensures Simple(s, x) {
      assert x !in s.staff.watchers && x !in s.staff.serves.Keys;
    }
    forall x | x in CalledOff(s) ensures Simple(s, x) && !Disowns(s, x) {
      assert x in s.staff.coordinated;
    }
    CalledMembers(s);
  }

  /** In every state between operations only the pending cancellations and the table decide. */
  lemma StaffedIsRegular(s: Server)
    requires Staffed(s) && s.pending == {} && Tabled(s)
    ensures Regular(s)
  {
    StaffedIsPlain(s);
  }

  // ---------------------------------------------------------------- one cancellation

  /** The outcome of cancelling a task that has no `finally` block left to run. */
  function PlainCancel(s: Server, t: int, pass: nat): Server
  {
    Settled(Tried(s, t, pass), t)
  }

  /** A child of a connection that ends, once it was cancelled or its cancellation retained. */
  function MaybeDisowned(s: Server, child: int): Server
  {
    s.(owned := if child !in s.staff.handlers && (child !in s.pending || child !in s.staff.coordinated)
                then s.owned - {child} else s.owned)
  }

  function ChildCancelled(s: Server, child: int): Server
  {
    MaybeDisowned(PlainCancel(s, child, 0), child)
  }

  function LeftTable(s: Server, t: int): Server
  {
    s.(live := s.live - {t}, owned := if Disowns(s, t) then s.owned - {t} else s.owned)
  }

  /** The children a task cancels in its `finally` block. */
  function Kids(s: Server, t: int): set<int>
  {
    if Serves(s, t) then ChildrenOf(s, t) else {}
  }

  /** The children of the task, if its `finally` block has run in between. */
  function Freed(a: Server, b: Server, t: int): set<int>
  {
    if t in a.live && t !in b.live then Kids(a, t) else {}
  }

  ghost predicate Neat(s: Server, t: int)
  {
    s.pending == {} && AllAsked(s) && (t in s.live ==> AllSimple(s, Kids(s, t)))
  }

  ghost predicate AllSimple(s: Server, tasks: set<int>)
  {
    forall x | x in tasks :: Simple(s, x)
  }

  /** These tasks, and no others, were tried, each once; those still owned are lingering handlers. */
  ghost predicate Dismissed(a: Server, b: Server, kids: set<int>)
  {
    && (forall x :: b.tries[x] == a.tries[x] + if x in kids then 1 else 0)
    && a.live - kids <= b.live
    && (forall x | x in kids && x in b.owned :: Lingers(a, x))
  }

  /** The task was tried once, and its children, if it ran its `finally` block. */
  ghost predicate Cancelled(a: Server, b: Server, t: int)
  {
    var kids := Freed(a, b, t);
    && (forall x :: b.tries[x] == a.tries[x] + if x == t || x in kids then 1 else 0)
    && a.live - kids - {t} <= b.live
    && (forall x | x in kids && x in b.owned :: Lingers(a, x))
  }

  /** The runtime did nothing, or ran the task's `finally` block. */
  ghost predicate Asked(a: Server, b: Server, t: int)
  {
    b == a || (t in a.live && t !in b.live && Dismissed(Ending(a, t), b, Kids(a, t)))
  }

  lemma QuietParts(a: Server, b: Server, c: Server)
    requires Onward(a, b, {}) && Onward(b, c, {}) && Quiet(a, c)
    ensures Quiet(a, b) && Quiet(b, c) && (a.pending == {} ==> b.pending == {}) && (AllAsked(a) ==> AllAsked(b))
  {
  }

  lemma DismissedFurther(a: Server, b: Server, c: Server, kids: set<int>)
    requires Dismissed(a, b, kids) && Untouched(b, c) && c.owned <= b.owned
    ensures Dismissed(a, c, kids)
  {
  }

  /** Of all the children, those not left were dismissed, as long as no kernel call fails. */
  ghost predicate DismissedSoFar(a: Server, s: Server, all: set<int>, left: set<int>)
  {
    left <= all && (Quiet(a, s) && a.pending == {} && AllSimple(a, all) ==> Dismissed(a, s, all - left))
  }

  lemma NoneDismissed(s: Server, all: set<int>)
    ensures DismissedSoFar(s, s, all, all)
  {
    assert all - all == {};
  }

  lemma DismissedOneMore(a: Server, from: Server, s: Server, all: set<int>, left: set<int>, child: int)
    requires DismissedSoFar(a, from, all, left) && child in left
    requires Onward(a, from, {}) && Onward(from, s, {})
    requires Quiet(from, s) && from.pending == {} && Simple(from, child) ==> Dismissed(from, s, {child})
    ensures DismissedSoFar(a, s, all, left - {child})
  {
    if Quiet(a, s) && a.pending == {} && AllSimple(a, all) {
      QuietParts(a, from, s);
      assert Simple(a, child) && Simple(from, child);
      assert child in a.live <==> child in from.live;
      assert Lingers(from, child) ==> Lingers(a, child);
      var done := all - left;
      assert all - (left - {child}) == done + {child};
      assert Dismissed(a, s, done + {child});
    }
  }

  /** A simple child cancelled: afterwards it is owned only if it lingers. */
  lemma ChildDismissed(a: Server, asked: Server, b: Server, x: int)
    requires asked == PlainCancel(a, x, 0) || (x in a.live && asked == PlainCancel(LeftTable(a, x), x, 0))
    requires Prompt(a, x) ==> x !in asked.live
    requires b == MaybeDisowned(asked, x)
    ensures !Fails(a.tape) ==> Dismissed(a, b, {x})
  {
    if !Fails(a.tape) {
      assert x !in asked.pending;
      assert a.tries + multiset{x} == asked.tries == b.tries;
    }
  }

  lemma TaskCancelled(a: Server, ran: Server, b: Server, t: int, pass: nat)
    requires Asked(Tried(a, t, pass), ran, t) && b == Settled(ran, t)
    ensures Cancelled(a, b, t)
  {
    var tried := Tried(a, t, pass);
    assert b.tries == ran.tries && b.live == ran.live && b.owned == ran.owned;
    assert Kids(tried, t) == Kids(a, t) && t !in Kids(a, t);
    assert forall x :: Lingers(Ending(tried, t), x) && x != t ==> Lingers(a, x);
    if ran == tried {
      assert Freed(a, b, t) == {};
    } else {
      assert Freed(a, b, t) == Kids(a, t);
    }
  }

  lemma CancelledFurther(a: Server, b: Server, c: Server, t: int)
    requires Cancelled(a, b, t) && Untouched(b, c) && c.owned <= b.owned
    ensures Cancelled(a, c, t)
  {
    assert Freed(a, c, t) == Freed(a, b, t);
  }

  // ---------------------------------------------------------------- the connections of a pass

  ghost predicate DismissedChild(a: Server, s: Server, x: int, tried: set<int>)
  {
    (exists t :: t in tried && ChildOf(a, t, x)) && (x in s.owned ==> Lingers(a, x))
  }

  /** Whoever was tried is the task of a connection, tried by the pass, or a child of one. */
  ghost predicate TableRecord(a: Server, s: Server, tried: set<int>)
  {
    && (forall x | x in tried :: IsConnectionTask(a, x))
    && (forall x :: s.tries[x] <= a.tries[x] + 1)
    && (forall x | s.tries[x] != a.tries[x] && x !in tried :: DismissedChild(a, s, x, tried))
    && (forall x | x in a.live && s.tries[x] == a.tries[x] :: x in s.live)
  }

  /** As long as no kernel call fails, the owner keeps that record, and the scheduler's side tries nobody. */
  ghost predicate TableLedger(a: Server, s: Server, tried: set<int>, ownerThread: bool)
  {
    Quiet(a, s) ==> if ownerThread then Regular(a) && AllAsked(a) ==> TableRecord(a, s, tried) else Untouched(a, s)
  }

  /** What closing one connection of the snapshot does to tasks. */
  ghost predicate TriedNext(a: Server, b: Server, task: int, ownerThread: bool, tried0: set<int>, tried: set<int>)
  {
    && (tried == tried0 || (ownerThread && task !in tried0 && tried == tried0 + {task}))
    && (Quiet(a, b) ==> if tried == tried0 then Untouched(a, b) else Neat(a, task) ==> Cancelled(a, b, task))
  }

  lemma RecordStarts(s: Server, ownerThread: bool)
    ensures TableLedger(s, s, {}, ownerThread)
  {
  }

  lemma FewerChildren(a: Server, b: Server, t: int)
    requires Onward(a, b, {})
    ensures ChildrenOf(b, t) <= ChildrenOf(a, t) && Serves(b, t) == Serves(a, t)
    ensures forall x | Simple(a, x) :: Simple(b, x)
  {
    assert forall x | IsConnectionTask(b, x) :: IsConnectionTask(a, x);
  }

  lemma NotDismissed(a: Server, s: Server, x: int, tried: set<int>)
    requires TableRecord(a, s, tried) && x !in tried && forall t | t in tried :: !ChildOf(a, t, x)
    ensures s.tries[x] == a.tries[x]
  {
  }

  /** The task of a connection has not been tried, nor have its children. */
  lemma StillUntried(a: Server, from: Server, task: int, tried: set<int>)
    requires Regular(a) && AllAsked(a) && TableRecord(a, from, tried) && Onward(a, from, {}) && Quiet(a, from)
    requires IsConnectionTask(a, task) && task !in tried
    ensures from.tries[task] == a.tries[task] && Neat(from, task)
    ensures task in from.live ==> forall x | x in Kids(from, task) :: ChildOf(a, task, x) && from.tries[x] == a.tries[x]
  {
    FewerChildren(a, from, task);
    if task in from.live {
      forall x | x in Kids(from, task) ensures ChildOf(a, task, x) && from.tries[x] == a.tries[x] && Simple(from, x) {
        assert ChildOf(a, task, x) && Simple(a, x);
        forall t | t in tried ensures !ChildOf(a, t, x) {
          if t in a.live && Serves(a, t) {
            assert ChildrenOf(a, t) !! ChildrenOf(a, task);
          }
        }
        NotDismissed(a, from, x, tried);
      }
    }
  }

  lemma RecordOneMore(a: Server, from: Server, s: Server, task: int, tried: set<int>)
    requires Regular(a) && AllAsked(a) && TableRecord(a, from, tried) && Onward(a, from, {}) && Onward(from, s, {})
    requires Quiet(a, from) && IsConnectionTask(a, task) && task !in tried
    requires Neat(from, task) ==> Cancelled(from, s, task)
    ensures TableRecord(a, s, tried + {task})
  {
    StillUntried(a, from, task, tried);
    var kids := Freed(from, s, task);
    forall x | s.tries[x] != a.tries[x] && x !in tried + {task} ensures DismissedChild(a, s, x, tried + {task}) {
      if x in kids {
        assert ChildOf(a, task, x) && task in tried + {task};
        assert Lingers(from, x) ==> Lingers(a, x);
      } else {
        assert DismissedChild(a, from, x, tried);
        var t :| t in tried && ChildOf(a, t, x);
        assert t in tried + {task};
      }
    }
    forall x | x in a.live && s.tries[x] == a.tries[x] ensures x in s.live {
      TriesGrow(a, from, x);
      TriesGrow(from, s, x);
    }
  }

  lemma TriesGrow(a: Server, b: Server, x: int)
    requires Onward(a, b, {})
    ensures a.tries[x] <= b.tries[x]
  {
    CountedAlways(a, b, x);
  }

  lemma RecordUntouched(a: Server, from: Server, s: Server, tried: set<int>)
    requires TableRecord(a, from, tried) && Untouched(from, s) && s.owned <= from.owned
    ensures TableRecord(a, s, tried)
  {
    forall x | s.tries[x] != a.tries[x] && x !in tried ensures DismissedChild(a, s, x, tried) {
      assert DismissedChild(a, from, x, tried);
    }
  }

  lemma LedgerOneMore(a: Server, from: Server, s: Server, task: int, tried0: set<int>, tried: set<int>, ownerThread: bool)
    requires Onward(a, from, {}) && Onward(from, s, {}) && IsConnectionTask(a, task)
    requires TableLedger(a, from, tried0, ownerThread) && TriedNext(from, s, task, ownerThread, tried0, tried)
    ensures TableLedger(a, s, tried, ownerThread)
  {
    if Quiet(a, s) {
      QuietParts(a, from, s);
      if ownerThread && Regular(a) && AllAsked(a) {
        if tried == tried0 {
          RecordUntouched(a, from, s, tried);
        } else {
          RecordOneMore(a, from, s, task, tried0);
        }
      }
    }
  }

  // ---------------------------------------------------------------- the owner's tasks

  /** No running task with children is left to be cancelled; who was tried before and is on the list, lingers. */
  ghost predicate OwnedRecord(a: Server, s: Server, tried: set<int>, roll: set<int>, current: Option<int>)
  {
    && (forall x :: s.tries[x] <= a.tries[x] + if x in tried && LingeringChild(a, x) then 2 else 1)
    && (forall x | x in roll && x !in tried && s.tries[x] != a.tries[x] :: LingeringChild(a, x))
    && (forall t | t in s.live && Kids(s, t) != {} :: t in tried || t in s.cancelledIds || Some(t) == current)
  }

  ghost predicate OwnedLedger(a: Server, s: Server, tried: set<int>, roll: set<int>, current: Option<int>)
  {
    Regular(a) && AllAsked(a) && Quiet(a, s) ==> OwnedRecord(a, s, tried, roll, current)
  }

  lemma OwnedOneMore(a: Server, from: Server, s: Server, tried: set<int>, roll: set<int>, t: int, current: Option<int>)
    requires OwnedLedger(a, from, tried, roll, current) && Onward(a, from, {}) && Onward(from, s, {})
    requires t in roll && t !in tried && t !in from.cancelledIds && Some(t) != current
    requires Neat(from, t) && Quiet(from, s) ==> Cancelled(from, s, t)
    ensures OwnedLedger(a, s, tried + {t}, roll, current)
  {
    if Regular(a) && AllAsked(a) && Quiet(a, s) {
      QuietParts(a, from, s);
      assert Neat(from, t);
      assert Freed(from, s, t) == {};
      forall u | u in s.live && Kids(s, u) != {} ensures u in tried + {t} || u in s.cancelledIds || Some(u) == current {
        FewerChildren(from, s, u);
        assert Kids(from, u) != {};
      }
    }
  }

  lemma OwnedIsBounded(a: Server, s: Server, tried: set<int>, roll: set<int>, current: Option<int>)
    requires OwnedLedger(a, s, tried, roll, current)
    ensures Regular(a) && AllAsked(a) && Quiet(a, s) ==> TriesBounded(a, s)
  {
  }

  /** The tasks of the snapshot are all tried, cancelled before or current. */
  lemma RollStarts(a: Server, s: Server, tried: set<int>, current: Option<int>)
    requires Onward(a, s, {}) && TableLedger(a, s, tried, true)
    requires forall t | IsConnectionTask(a, t) :: t in tried || t in s.cancelledIds || Some(t) == current
    ensures OwnedLedger(a, s, tried, s.owned, current)
  {
    if Regular(a) && AllAsked(a) && Quiet(a, s) {
      forall x | x in s.owned && x !in tried && s.tries[x] != a.tries[x] ensures LingeringChild(a, x) {
        assert DismissedChild(a, s, x, tried);
      }
      forall t | t in s.live && Kids(s, t) != {} ensures t in tried || t in s.cancelledIds || Some(t) == current {
        FewerChildren(a, s, t);
        assert ChildrenOf(a, t) != {} && IsConnectionTask(a, t);
      }
    }
  }

  // ---------------------------------------------------------------- the shutdown requests of a pass

  /** Of the WebSockets of the snapshot, those not left have been asked. */
  ghost predicate AskedSoFar(a: Server, s: Server, left: set<int>)
  {
    && left <= a.ws && s.ws <= a.ws && a.ws - left <= s.asked
    && (SocketsPlain(a) ==> CallsExactly(a, s, CalledBy(a, a.ws - left)) && s.asked == a.asked + (a.ws - left))
  }

  lemma NoneAsked(s: Server)
    ensures AskedSoFar(s, s, s.ws)
  {
    assert s.ws - s.ws == {} && CalledBy(s, {}) == {};
    assert s.asked + {} == s.asked;
  }

  /** The task was called off: tried, at best stopped, and the kernel's answer forgotten. */
  ghost predicate CalledPlainly(a: Server, b: Server, t: int)
  {
    b == Called(a, t) || (t in a.live && b == CalledAndLeft(a, t))
  }

  function Called(s: Server, t: int): Server
  {
    s.(tape := Rest(s.tape), attempts := s.attempts + multiset{Attempt(0, t)}, tries := s.tries + multiset{t})
  }

  function CalledAndLeft(s: Server, t: int): Server
  {
    s.(tape := Rest(s.tape), attempts := s.attempts + multiset{Attempt(0, t)}, tries := s.tries + multiset{t},
       live := s.live - {t}, owned := if Disowns(s, t) then s.owned - {t} else s.owned)
  }

  lemma CalledForm(s: Server, t: int)
    ensures Answered(Tried(s, t, 0)) == Called(s, t) && Answered(LeftTable(Tried(s, t, 0), t)) == CalledAndLeft(s, t)
  {
  }

  /** What asking the WebSocket on one stream does, if its handler disturbs nothing else. */
  ghost predicate RequestedPlainly(a: Server, b: Server, c: int)
  {
    var u := a.(asked := a.asked + {c});
    if c in a.asked then b == a
    else if c in a.staff.sockets && Some(a.staff.sockets[c]) != a.cursor then
      a.staff.sockets[c] !in a.live || Bare(a, a.staff.sockets[c]) ==> CalledPlainly(u, b, a.staff.sockets[c])
    else b == u
  }

  lemma CallFields(a: Server, b: Server, t: int)
    requires CalledPlainly(a, b, t)
    ensures OnlyTasks(a, b) && b.asked == a.asked
    ensures b.tries == a.tries + multiset{t} && b.attempts == a.attempts + multiset{Attempt(0, t)}
    ensures a.live - {t} <= b.live <= a.live && a.owned - {t} <= b.owned && (t in a.owned && !Disowns(a, t) ==> t in b.owned)
  {
    if b == Called(a, t) {
      CalledFields(a, t);
    } else {
      LeftFields(a, t);
    }
  }

  lemma CalledFields(a: Server, t: int)
    ensures var b := Called(a, t);
            OnlyTasks(a, b) && b.asked == a.asked && b.live == a.live && b.owned == a.owned
  {
  }

  lemma LeftFields(a: Server, t: int)
    ensures var b := CalledAndLeft(a, t);
            && OnlyTasks(a, b) && b.asked == a.asked && b.live == a.live - {t}
            && b.owned == if Disowns(a, t) then a.owned - {t} else a.owned
  {
  }

  lemma CallOnAsked(from: Server, s: Server, c: int, t: int)
    requires CalledPlainly(from.(asked := from.asked + {c}), s, t)
    ensures OnlyTasks(from, s) && s.asked == from.asked + {c}
    ensures s.tries == from.tries + multiset{t} && s.attempts == from.attempts + multiset{Attempt(0, t)}
    ensures from.live - {t} <= s.live <= from.live && from.owned - {t} <= s.owned
    ensures t in from.owned && !Disowns(from, t) ==> t in s.owned
  {
    var u := from.(asked := from.asked + {c});
    CallFields(u, s, t);
    OnlyTasksCompose(from, u, s);
  }

  lemma OneCall(a: Server, from: Server, s: Server, done: set<int>, t: int)
    requires CallsExactly(a, from, done) && t !in done && OnlyTasks(from, s)
    requires s.tries == from.tries + multiset{t} && s.attempts == from.attempts + multiset{Attempt(0, t)}
    requires from.live - {t} <= s.live <= from.live && from.owned - {t} <= s.owned
    requires t in from.owned && !Disowns(from, t) ==> t in s.owned
    ensures CallsExactly(a, s, done + {t})
  {
    assert OnlyTasks(a, s) by {
      OnlyTasksCompose(a, from, s);
    }
    assert forall x :: Asides(s, x) == Asides(from, x) + if x == t then 1 else 0;
  }

  lemma OnlyTasksCompose(a: Server, b: Server, c: Server)
    requires OnlyTasks(a, b) && OnlyTasks(b, c)
    ensures OnlyTasks(a, c)
  {
  }

  lemma AskedOneMore(a: Server, from: Server, s: Server, left: set<int>, c: int)
    requires AskedSoFar(a, from, left) && c in left
    requires s.ws <= from.ws && from.asked + {c} <= s.asked && s.staff == from.staff && s.cursor == from.cursor
    requires RequestedPlainly(from, s, c)
    ensures AskedSoFar(a, s, left - {c})
  {
    assert a.ws - (left - {c}) == (a.ws - left) + {c};
    if SocketsPlain(a) {
      CalledOneMore(a, from, s, a.ws - left, c);
    }
  }

  lemma CalledOneMore(a: Server, from: Server, s: Server, done: set<int>, c: int)
    requires SocketsPlain(a) && c in a.ws && c !in done && done <= a.ws
    requires CallsExactly(a, from, CalledBy(a, done)) && from.asked == a.asked + done
    requires RequestedPlainly(from, s, c)
    ensures CallsExactly(a, s, CalledBy(a, done + {c})) && s.asked == a.asked + (done + {c})
  {
    if Unasked(a, c) {
      var h := a.staff.sockets[c];
      assert h !in CalledBy(a, done);
      assert CalledBy(a, done + {c}) == CalledBy(a, done) + {h};
      CallOnAsked(from, s, c, h);
      OneCall(a, from, s, CalledBy(a, done), h);
    } else {
      assert CalledBy(a, done + {c}) == CalledBy(a, done);
      assert s == from || s == from.(asked := from.asked + {c});
      SameCalls(a, from, s, CalledBy(a, done), c);
    }
  }

  lemma SameCalls(a: Server, from: Server, s: Server, done: set<int>, c: int)
    requires CallsExactly(a, from, done) && (s == from || s == from.(asked := from.asked + {c}))
    ensures CallsExactly(a, s, done)
  {
    assert forall x :: Asides(s, x) == Asides(from, x);
  }

  lemma AllHaveBeenAsked(a: Server, s: Server)
    requires AskedSoFar(a, s, {})
    ensures AllAsked(s) && (SocketsPlain(a) ==> CallsExactly(a, s, CalledOff(a)))
  {
    assert a.ws - {} == a.ws;
  }
}
