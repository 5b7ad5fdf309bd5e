/** The small state changes the methods of `ServerHandle` are made of, and what each of them keeps. */
module ServerSteps {
  import opened Answers
  import opened Optional
  import opened ServerState

  /** What a step, or a whole method, has kept. */
  ghost predicate Kept(a: Server, b: Server, before: set<int>, after: set<int>)
  {
    Sound(b, after) && Onward(a, b, before) && OtherPasses(a, b)
  }

  lemma Chain(a: Server, b: Server, c: Server, before: set<int>, after: set<int>)
    requires Kept(a, b, before, {}) && Kept(b, c, {}, after)
    ensures Kept(a, c, before, after)
  {
    Compose(a, b, c, before);
  }

  /** Two states that differ in none of the fields the invariant reads, except that more was asked for or reported. */
  ghost predicate Differs(a: Server, b: Server)
  {
    && b == a.(tape := b.tape, closers := b.closers, asked := b.asked,
               closeRequested := b.closeRequested, notificationSent := b.notificationSent, attempted := b.attempted,
               failed := b.failed, signalled := b.signalled)
    && Failing(b.tape) <= Failing(a.tape) && b.closers <= a.closers && a.asked <= b.asked
    && (a.closeRequested ==> b.closeRequested) && (a.notificationSent ==> b.notificationSent)
    && (a.attempted ==> b.attempted) && (a.failed ==> b.failed) && (a.signalled ==> b.signalled)
    && (b.failed && !a.failed ==> Heard(b))
  }

  lemma Minor(a: Server, b: Server, hole: set<int>)
    requires Sound(a, hole) && Differs(a, b)
    ensures Kept(a, b, hole, hole)
  {
    MinorSound(a, b, hole);
    MinorForward(a, b, hole);
  }

  lemma MinorSound(a: Server, b: Server, hole: set<int>)
    requires Sound(a, hole) && Differs(a, b)
    ensures Sound(b, hole)
  {
    assert Ownership(b, hole);
    assert Reported(b) && TriedOnce(b);
    assert Notified(b) by {
      assert Released(a) ==> Released(b);
    }
  }

  lemma MinorForward(a: Server, b: Server, hole: set<int>)
    requires Differs(a, b)
    ensures Forward(a, b, hole) && OtherPasses(a, b)
  {
    assert Shrinks(a, b, hole) && Monotone(a, b) && RetainsOnFailure(a, b) && Counted(a, b);
  }

  /** The kernel gave its next answer. */
  function Answered(s: Server): Server { s.(tape := Rest(s.tape)) }

  lemma SameKept(s: Server, hole: set<int>)
    requires Sound(s, hole)
    ensures Kept(s, s, hole, hole)
  {
    Minor(s, s, hole);
  }

  lemma AnsweredKept(s: Server)
    requires Sound(s, {})
    ensures Kept(s, Answered(s), {}, {}) && (Fails(s.tape) ==> !Quiet(s, Answered(s)))
  {
    Minor(s, Answered(s), {});
  }

  /** A fatal error is recorded before anybody is told; until then all else is kept. */
  function Doomed(s: Server): Server { s.(failed := true) }

  lemma DoomedSound(s: Server, hole: set<int>)
    requires Sound(s, hole)
    ensures Sound(Doomed(s), hole)
  {
    var b := Doomed(s);
    assert Ownership(b, hole);
    assert Reported(b) && TriedOnce(b);
    assert Notified(b) by {
      assert Released(s) ==> Released(b);
    }
  }

  lemma AskedKept(s: Server)
    requires Sound(s, {})
    ensures Kept(Doomed(s), s.(failed := true, closeRequested := true), {}, {})
  {
    DoomedSound(s, {});
    Minor(Doomed(s), s.(failed := true, closeRequested := true), {});
  }

  /** Once somebody has heard of it, it is kept from the start. */
  lemma DoomedThen(a: Server, b: Server)
    requires Kept(Doomed(a), b, {}, {}) && Heard(b)
    ensures Kept(a, b, {}, {})
  {
    var m := Doomed(a);
    DoomedForward(a, b);
    assert forall t :: Prompt(m, t) == Prompt(a, t);
  }

  lemma DoomedForward(a: Server, b: Server)
    requires Forward(Doomed(a), b, {}) && Heard(b)
    ensures Forward(a, b, {})
  {
  }

  /** A WebSocket's `shutdown` flag is set. */
  lemma StreamAskedKept(s: Server, c: int)
    requires Sound(s, {})
    ensures Kept(s, s.(asked := s.asked + {c}), {}, {})
  {
    Minor(s, s.(asked := s.asked + {c}), {});
  }

  lemma ToldKept(s: Server)
    requires Sound(s, {})
    ensures Kept(s, s.(notificationSent := true), {}, {})
  {
    Minor(s, s.(notificationSent := true), {});
  }

  lemma SignalledKept(s: Server)
    requires Sound(s, {})
    ensures Kept(s, s.(signalled := true), {}, {})
  {
    Minor(s, s.(signalled := true), {});
  }

  /** A task begins its `finally` block. */
  function Ending(s: Server, t: int): Server { s.(live := s.live - {t}) }

  lemma EndingSound(s: Server, t: int)
    requires Sound(s, {})
    ensures var b := Ending(s, t);
            Sound(b, {}) && Forward(s, b, {}) && OtherPasses(s, b) && (NoLostWakeup(s) ==> NoLostWakeup(b))
  {
    var b := Ending(s, t);
    assert Ownership(b, {});
    assert Reported(b) && TriedOnce(b) && OtherPasses(s, b);
    assert Notified(b) by {
      assert Released(s) ==> Released(b);
    }
    assert Shrinks(s, b, {}) && Monotone(s, b) && RetainsOnFailure(s, b) && Counted(s, b);
  }

  /** The task has run its `finally` block and cancelled its children in it. */
  lemma EndedKept(a: Server, b: Server, t: int)
    requires Sound(a, {}) && Kept(Ending(a, t), b, {}, {})
    requires Serves(a, t) ==> CaredFor(Ending(a, t), b, t)
    ensures Kept(a, b, {}, {})
  {
    var begun := Ending(a, t);
    assert KeepsSocketTasks(a, b) && KeepsAttended(a, b) by {
      EndingKeeps(a, t, b);
    }
    EndingSound(a, t);
    ForwardCompose(a, begun, b, {});
    forall u | u in a.live && u !in b.live && Serves(a, u) ensures CaredFor(a, b, u) {
      assert CaredFor(begun, b, u) by {
        assert u == t || u in begun.live;
      }
      SameChildren(a, begun, b, u);
    }
    assert TakesEffect(a, b) by {
      assert forall x :: Prompt(begun, x) == Prompt(a, x);
    }
  }

  lemma EndingKeeps(a: Server, t: int, b: Server)
    requires KeepsSocketTasks(Ending(a, t), b) && KeepsAttended(Ending(a, t), b)
    ensures KeepsSocketTasks(a, b) && KeepsAttended(a, b)
  {
    assert forall x :: SocketTask(Ending(a, t), x) == SocketTask(a, x);
  }

  lemma SameChildren(a: Server, b: Server, c: Server, t: int)
    requires b == a.(live := b.live) && CaredFor(b, c, t)
    ensures CaredFor(a, c, t)
  {
    assert ChildrenOf(b, t) == ChildrenOf(a, t);
  }

  function Disowned(s: Server, t: int): Server { s.(owned := s.owned - {t}) }

  /** A task that is not a WebSocket's leaves `_owned_tasks`. */
  lemma DisownedKept(s: Server, t: int)
    requires Sound(s, {}) && (t in s.staff.handlers && t !in s.staff.started ==> IsConnectionTask(s, t))
    requires Disowns(s, t) || t in s.staff.serves || IsConnectionTask(s, t)
    ensures Kept(s, Disowned(s, t), {}, {})
  {
    DisownedSound(s, t);
    DisownedForward(s, t);
    DisownedKeeps(s, t);
  }

  lemma DisownedKeeps(s: Server, t: int)
    requires Disowns(s, t) || t in s.staff.serves || IsConnectionTask(s, t)
    ensures KeepsSocketTasks(s, Disowned(s, t)) && KeepsAttended(s, Disowned(s, t))
  {
    var b := Disowned(s, t);
    assert !SocketTask(s, t);
    if Manned(s) {
      NotASocketTask(s, t);
      forall c | Hears(b, c) ensures b.staff.sockets[c] in b.owned && b.staff.sockets[c] !in b.cancelledIds {
        assert Hears(s, c);
      }
    }
  }

  lemma NotASocketTask(s: Server, t: int)
    requires Staffed(s) && (Disowns(s, t) || t in s.staff.serves || IsConnectionTask(s, t))
    ensures t !in s.staff.coordinated && forall c | c in s.staff.sockets :: s.staff.sockets[c] != t
  {
    assert t in s.staff.handlers || t in s.staff.helpers || t in s.staff.serves.Keys;
  }

  lemma DisownedSound(s: Server, t: int)
    requires Sound(s, {})
    ensures Sound(Disowned(s, t), {})
  {
    var b := Disowned(s, t);
    assert Ownership(b, {}) && Reported(b) && TriedOnce(b);
    assert Notified(b) by {
      assert Released(s) ==> Released(b);
    }
  }

  lemma DisownedForward(s: Server, t: int)
    requires t in s.staff.handlers && t !in s.staff.started ==> IsConnectionTask(s, t)
    ensures Forward(s, Disowned(s, t), {}) && OtherPasses(s, Disowned(s, t))
    ensures CaresForChildren(s, Disowned(s, t)) && TakesEffect(s, Disowned(s, t))
  {
    var b := Disowned(s, t);
    assert Shrinks(s, b, {}) && Monotone(s, b) && RetainsOnFailure(s, b) && Counted(s, b);
  }

  lemma CloserGone(s: Server, c: int)
    requires Sound(s, {})
    ensures Kept(s, s.(closers := s.closers - {c}), {}, {})
  {
    Minor(s, s.(closers := s.closers - {c}), {});
  }

  lemma NotedCares(a: Server, s: Server, t: int)
    requires CaresForChildren(a, s)
    ensures CaresForChildren(a, s.(cancelledIds := s.cancelledIds + {t}))
  {
    var b := s.(cancelledIds := s.cancelledIds + {t});
    assert forall x :: Asides(b, x) == Asides(s, x);
    assert forall x :: CaredFor(a, s, x) ==> CaredFor(a, b, x);
  }

  /** A pass notes a task it has just tried as cancelled. */
  lemma NotedCancelled(a: Server, s: Server, t: int)
    requires Sound(s, {}) && Onward(a, s, {}) && s.tries[t] - a.tries[t] > Asides(s, t) - Asides(a, t)
    requires Prompt(a, t) ==> t !in s.live
    requires s.ws <= s.asked
    ensures var b := s.(cancelledIds := s.cancelledIds + {t});
            Sound(b, {}) && Onward(a, b, {})
  {
    NotedCares(a, s, t);
    NotedForward(a, s, t);
    NotedSound(s, t);
    NotedTakesEffect(a, s, t);
    NotedKeeps(a, s, t);
  }

  lemma NotedKeeps(a: Server, s: Server, t: int)
    requires KeepsSocketTasks(a, s) && s.ws <= s.asked
    ensures var b := s.(cancelledIds := s.cancelledIds + {t});
            KeepsSocketTasks(a, b) && KeepsAttended(a, b)
  {
    var b := s.(cancelledIds := s.cancelledIds + {t});
    assert forall x :: Asides(b, x) == Asides(s, x);
  }

  lemma NotedTakesEffect(a: Server, s: Server, t: int)
    requires TakesEffect(a, s) && (Prompt(a, t) ==> t !in s.live)
    ensures TakesEffect(a, s.(cancelledIds := s.cancelledIds + {t}))
  {
  }

  lemma NotedSound(s: Server, t: int)
    requires Sound(s, {})
    ensures Sound(s.(cancelledIds := s.cancelledIds + {t}), {})
  {
    var b := s.(cancelledIds := s.cancelledIds + {t});
    assert Ownership(b, {});
    assert Notified(b) by {
      assert Released(s) ==> Released(b);
    }
    assert Reported(b) && TriedOnce(b);
  }

  lemma NotedForward(a: Server, s: Server, t: int)
    requires Forward(a, s, {}) && s.tries[t] - a.tries[t] > Asides(s, t) - Asides(a, t)
    ensures Forward(a, s.(cancelledIds := s.cancelledIds + {t}), {})
  {
    var b := s.(cancelledIds := s.cancelledIds + {t});
    assert Counted(a, b);
    assert Shrinks(a, b, {}) && Monotone(a, b) && RetainsOnFailure(a, b);
  }

  // ---------------------------------------------------------------- closing a stream

  /** The stream a close call has between the tables. */
  function HoleOf(s: Server, c: int): set<int>
  {
    if c in s.openStreams && c !in s.connections then {c} else {}
  }

  /** A close that succeeded, or had nothing left to do. */
  function Closed(s: Server, c: int): Server
  {
    s.(tape := if c in s.openStreams then Rest(s.tape) else s.tape,
       openStreams := s.openStreams - {c}, closing := s.closing - {c}, errors := s.errors - {StreamKey(c)},
       held := if c in s.connections then s.held else s.held - {c})
  }

  /** A close that failed; the stream is retained. */
  function Retained(s: Server, c: int): Server
  {
    s.(tape := Rest(s.tape), closing := if c in s.connections then s.closing else s.closing + {c},
       errors := s.errors + {StreamKey(c)}, closeRequested := true)
  }

  /** The kernel call alone, when it succeeds. */
  function StreamClosed(s: Server, c: int): Server
  {
    if c !in s.openStreams then s
    else
      var u := Answered(s);
      u.(openStreams := u.openStreams - {c})
  }

  lemma ClosedForm(s: Server, c: int)
    ensures var b := StreamClosed(s, c);
            Closed(s, c) == b.(closing := b.closing - {c}, errors := b.errors - {StreamKey(c)},
                               held := if c in b.connections then b.held else b.held - {c})
  {
    if c !in s.openStreams {
      assert s.openStreams - {c} == s.openStreams;
    }
  }

  lemma RetainedForm(s: Server, c: int)
    ensures var b := Answered(s);
            Retained(s, c) == b.(closing := if c in b.connections then b.closing else b.closing + {c},
                                 errors := b.errors + {StreamKey(c)}, closeRequested := true)
  {
  }

  lemma ClosedOwnership(s: Server, c: int)
    requires Ownership(s, HoleOf(s, c))
    ensures Ownership(Closed(s, c), {})
  {
    SubsetSize(Closed(s, c).held, s.held);
  }

  lemma ClosedNotified(s: Server, c: int)
    requires Notified(s)
    ensures Notified(Closed(s, c))
  {
    var t := Closed(s, c);
    assert Released(s) ==> Released(t);
  }

  lemma ClosedReported(s: Server, c: int)
    requires Reported(s)
    ensures Reported(Closed(s, c))
  {
  }

  lemma ClosedOnward(s: Server, c: int)
    requires c in s.openStreams ==> !Fails(s.tape)
    ensures Onward(s, Closed(s, c), HoleOf(s, c)) && Quiet(s, Closed(s, c))
  {
  }

  lemma ClosedKept(s: Server, c: int)
    requires Sound(s, HoleOf(s, c)) && (c in s.openStreams ==> !Fails(s.tape))
    ensures Kept(s, Closed(s, c), HoleOf(s, c), {}) && Quiet(s, Closed(s, c))
  {
    ClosedOwnership(s, c);
    ClosedNotified(s, c);
    ClosedOnward(s, c);
    ClosedReported(s, c);
    assert TriedOnce(Closed(s, c));
  }

  lemma RetainedKept(s: Server, c: int)
    requires Sound(s, HoleOf(s, c)) && c in s.openStreams && Fails(s.tape)
    ensures Kept(s, Retained(s, c), HoleOf(s, c), {}) && !Quiet(s, Retained(s, c))
  {
  }

  /** A stream already in a table may be closed from there. */
  lemma HoleInTable(s: Server, c: int)
    requires Sound(s, {})
    ensures Sound(s, HoleOf(s, c))
  {
    assert Ownership(s, HoleOf(s, c));
  }

  lemma FromTable(a: Server, b: Server, c: int)
    requires Sound(a, {}) && Kept(a, b, HoleOf(a, c), {})
    ensures Kept(a, b, {}, {})
  {
    assert HoleOf(a, c) <= a.connections.Keys + a.closing;
    assert Shrinks(a, b, {});
  }

  /** A connection entry popped; its stream, if still open, is on its way to a close call. */
  function Popped(s: Server, c: int): Server
  {
    s.(connections := s.connections - {c}, held := if c in s.openStreams then s.held else s.held - {c})
  }

  lemma PoppedOwnership(s: Server, c: int)
    requires Ownership(s, {})
    ensures Ownership(Popped(s, c), HoleOf(Popped(s, c), c) )
  {
    SubsetSize(Popped(s, c).held, s.held);
  }

  /** Popping and then closing keeps what closing alone keeps. */
  lemma PoppedSound(s: Server, c: int)
    requires Sound(s, {})
    ensures Sound(Popped(s, c), HoleOf(Popped(s, c), c)) && Onward(s, Popped(s, c), {}) && OtherPasses(s, Popped(s, c))
  {
    var t := Popped(s, c);
    PoppedOwnership(s, c);
    assert Reported(t);
    assert Notified(t) by {
      assert Released(s) ==> t.connections == map[];
    }
  }

  lemma PopThenOnward(a: Server, b: Server, c: Server, x: int)
    requires b == Popped(a, x) && Onward(a, b, {}) && Onward(b, c, HoleOf(b, x))
    requires HoleOf(b, x) <= a.connections.Keys + a.closing
    ensures Onward(a, c, {})
  {
    assert c.closing <= a.closing + a.connections.Keys;
    assert Shrinks(a, c, {});
  }

  /** Once everything was released, the end of one more connection task changes nothing that counts. */
  lemma EndAfterRelease(s: Server, t: int, c: int)
    requires Released(s)
    ensures var a := s.(closers := s.closers - {c}, owned := s.owned - {t});
            AllGone(Closed(Popped(a, c), c)) <==> s.pending == {}
  {
    var a := s.(closers := s.closers - {c}, owned := s.owned - {t});
    var p := Popped(a, c);
    assert p.connections == map[];
    var b := Closed(p, c);
    assert b.closing == {} && b.connections == map[] && b.ws == {} && b.pending == s.pending;
    assert b.closeRequested && !b.wakeupOpen && !b.listenerOpen;
  }

  /** From a popped connection through a close call. */
  lemma PopThen(a: Server, b: Server, c: Server, x: int)
    requires Sound(a, {}) && b == Popped(a, x) && Kept(b, c, HoleOf(b, x), {})
    ensures Kept(a, c, {}, {})
  {
    PoppedSound(a, x);
    PopThenOnward(a, b, c, x);
  }

  // ---------------------------------------------------------------- the listener and the wakeup channel

  function WakeupTried(s: Server): Server
  {
    if !s.wakeupOpen then s
    else s.(tape := Rest(s.tape), wakeupOpen := Fails(s.tape),
            errors := if Fails(s.tape) then s.errors + {WakeupKey} else s.errors - {WakeupKey})
  }

  function ListenerTried(s: Server): Server
  {
    if !s.listenerOpen then s
    else s.(tape := Rest(s.tape), listenerOpen := Fails(s.tape),
            errors := if Fails(s.tape) then s.errors + {ListenerKey} else s.errors - {ListenerKey})
  }

  lemma WakeupKept(s: Server)
    requires Sound(s, {})
    ensures Kept(s, WakeupTried(s), {}, {}) && (Quiet(s, WakeupTried(s)) ==> !WakeupTried(s).wakeupOpen)
  {
    if s.wakeupOpen {
      var t := WakeupTried(s);
      assert s.errors - {WakeupKey, ListenerKey} <= t.errors;
      ChannelKept(s, t);
    } else {
      SameKept(s, {});
    }
  }

  lemma ListenerKept(s: Server)
    requires Sound(s, {})
    ensures Kept(s, ListenerTried(s), {}, {}) && (Quiet(s, ListenerTried(s)) ==> !ListenerTried(s).listenerOpen)
  {
    if s.listenerOpen {
      var t := ListenerTried(s);
      assert s.errors - {WakeupKey, ListenerKey} <= t.errors;
      ChannelKept(s, t);
    } else {
      SameKept(s, {});
    }
  }

  lemma ChannelKept(s: Server, t: Server)
    requires Sound(s, {})
    requires t == s.(tape := t.tape, wakeupOpen := t.wakeupOpen, listenerOpen := t.listenerOpen, errors := t.errors)
    requires Failing(t.tape) <= Failing(s.tape) && ChannelErrors(s, t)
    requires (t.wakeupOpen ==> s.wakeupOpen) && (t.listenerOpen ==> s.listenerOpen)
    ensures Kept(s, t, {}, {})
  {
    ChannelSound(s, t);
    assert Forward(s, t, {}) && OtherPasses(s, t) by {
      assert Shrinks(s, t, {}) && Monotone(s, t) && RetainsOnFailure(s, t);
    }
  }

  /** Only the entries of the wakeup channel and the listener may go, and these two and new ones are right. */
  ghost predicate ChannelErrors(s: Server, t: Server)
  {
    && s.errors - {WakeupKey, ListenerKey} <= t.errors
    && (forall c | StreamKey(c) in t.errors :: StreamKey(c) in s.errors || c in t.openStreams)
    && (forall x | TaskKey(x) in t.errors :: TaskKey(x) in s.errors)
    && (WakeupKey in t.errors ==> t.wakeupOpen) && (ListenerKey in t.errors ==> t.listenerOpen)
  }

  lemma ChannelSound(s: Server, t: Server)
    requires Sound(s, {})
    requires t == s.(tape := t.tape, wakeupOpen := t.wakeupOpen, listenerOpen := t.listenerOpen, errors := t.errors)
    requires ChannelErrors(s, t)
    requires (t.wakeupOpen ==> s.wakeupOpen) && (t.listenerOpen ==> s.listenerOpen)
    ensures Sound(t, {})
  {
    assert Ownership(t, {}) && Reported(t) && TriedOnce(t);
    assert Notified(t) by {
      assert Released(s) ==> Released(t);
    }
  }

  // ---------------------------------------------------------------- cancelling a task

  function Tried(s: Server, t: int, pass: nat): Server
  {
    s.(attempts := s.attempts + multiset{Attempt(pass, t)}, tries := s.tries + multiset{t})
  }

  /** The attempts of earlier passes are as before, but for this one. */
  ghost predicate OneAttempt(a: Server, b: Server, t: int, pass: nat)
  {
    forall x: Attempt :: 0 < x.pass <= a.passes ==>
      b.attempts[x] == a.attempts[x] + if x == Attempt(pass, t) then 1 else 0
  }

  /** The kernel's answer to a cancellation; a task it refuses is retained for a retry. */
  function Settled(s: Server, t: int): Server
  {
    s.(tape := Rest(s.tape),
       pending := if Fails(s.tape) then s.pending + {t} else s.pending - {t},
       errors := if Fails(s.tape) then s.errors + {TaskKey(t)} else s.errors - {TaskKey(t)})
  }

  lemma TriedSound(s: Server, t: int, pass: nat)
    requires Sound(s, {}) && (pass > 0 ==> pass <= s.passes && s.attempts[Attempt(pass, t)] == 0)
    ensures Sound(Tried(s, t, pass), {}) && Onward(s, Tried(s, t, pass), {}) && OneAttempt(s, Tried(s, t, pass), t, pass)
  {
    var u := Tried(s, t, pass);
    assert Ownership(u, {});
    assert Notified(u) by {
      assert Released(s) ==> Released(u);
    }
  }

  lemma SettledKept(s: Server, t: int)
    requires Sound(s, {})
    ensures Kept(s, Settled(s, t), {}, {}) && (Fails(s.tape) ==> !Quiet(s, Settled(s, t)))
  {
    SettledSound(s, t);
    SettledForward(s, t);
  }

  lemma SettledSound(s: Server, t: int)
    requires Sound(s, {})
    ensures Sound(Settled(s, t), {})
  {
    var u := Settled(s, t);
    assert TriedOnce(u) && Ownership(u, {}) && Reported(u);
    assert Notified(u) by {
      assert Released(s) ==> Released(u);
    }
  }

  lemma SettledForward(s: Server, t: int)
    ensures var u := Settled(s, t);
            Forward(s, u, {}) && OtherPasses(s, u) && (Fails(s.tape) ==> !Quiet(s, u))
  {
    var u := Settled(s, t);
    assert Shrinks(s, u, {}) && Monotone(s, u) && RetainsOnFailure(s, u);
  }

  /** The attempts of passes before this one are as they were. */
  ghost predicate Earlier(a: Server, b: Server, pass: nat)
  {
    forall x: Attempt :: 0 < x.pass < pass ==> b.attempts[x] == a.attempts[x]
  }

  /** While the tasks are calm, only the end of a pass can fire the callback. */
  ghost predicate NotYet(a: Server, b: Server)
  {
    Calm(a) ==> b.callbacks == a.callbacks
  }

  /** While the tasks are calm, nobody but this pass tries to cancel anything. */
  ghost predicate Alone(a: Server, b: Server, pass: nat)
  {
    Calm(a) ==>
      forall x :: Asides(b, x) == Asides(a, x)
                  && b.tries[x] + a.attempts[Attempt(pass, x)] == a.tries[x] + b.attempts[Attempt(pass, x)]
  }

  lemma AloneCompose(a: Server, b: Server, c: Server, pass: nat)
    requires Alone(a, b, pass) && Alone(b, c, pass) && b.live <= a.live && b.staff == a.staff
    ensures Alone(a, c, pass)
  {
    if Calm(a) {
      forall x
        ensures Asides(c, x) == Asides(a, x)
        ensures c.tries[x] + a.attempts[Attempt(pass, x)] == a.tries[x] + c.attempts[Attempt(pass, x)]
      {
        assert Asides(b, x) == Asides(a, x);
      }
    }
  }

  /** What a part of a pass keeps. */
  ghost predicate KeptIn(a: Server, b: Server, pass: nat)
  {
    Sound(b, {}) && Onward(a, b, {}) && Earlier(a, b, pass) && NotYet(a, b) && Alone(a, b, pass)
  }

  lemma ChainIn(a: Server, b: Server, c: Server, pass: nat)
    requires KeptIn(a, b, pass) && KeptIn(b, c, pass)
    ensures KeptIn(a, c, pass)
  {
    Compose(a, b, c, {});
    AloneCompose(a, b, c, pass);
    assert Calm(a) ==> Calm(b);
  }

  lemma KeptIsIn(a: Server, b: Server, pass: nat)
    requires Kept(a, b, {}, {}) && pass <= a.passes + 1 && NotYet(a, b) && Alone(a, b, pass)
    ensures KeptIn(a, b, pass)
  {
  }

  /** The tasks this pass has tried to cancel, each once. */
  ghost predicate OwnAttempts(s: Server, pass: nat, ids: set<int>)
  {
    forall a: Attempt :: a.pass == pass ==> s.attempts[a] == if a.task in ids then 1 else 0
  }

  // ---------------------------------------------------------------- finishing

  function Began(s: Server): Server
  {
    s.(closeRequested := true, attempted := true, passes := s.passes + 1)
  }

  lemma BeganKept(s: Server)
    requires Sound(s, {})
    ensures Kept(s, Began(s), {}, {}) && forall a: Attempt :: a.pass > s.passes ==> Began(s).attempts[a] == 0
  {
    var t := Began(s);
    assert TriedOnce(t) && OtherPasses(s, t) && Shrinks(s, t, {}) && Monotone(s, t) && RetainsOnFailure(s, t);
    assert Ownership(t, {});
    assert Notified(t) by {
      assert Released(s) ==> Released(t);
    }
  }

  function Marked(s: Server, finished: bool, errors: set<Key>, armed: bool, callbacks: nat): Server
  {
    s.(finished := finished, errors := errors, armed := armed, callbacks := callbacks)
  }

  /** `_update_finished`: all errors go, and the callback fires, on the first time everything is gone. */
  function Updated(s: Server): Server
  {
    var done := AllGone(s);
    var fires := done && !s.finished && s.armed;
    Marked(s, done, if done then {} else s.errors, s.armed && !fires, s.callbacks + if fires then 1 else 0)
  }

  lemma UpdatedNotified(s: Server)
    requires Ownership(s, {}) && Notified(s)
    ensures Notified(Updated(s))
  {
    var t := Updated(s);
    assert AllGone(s) ==> Released(t);
    assert Released(s) ==> Released(t);
  }

  lemma UpdatedReported(s: Server)
    requires Reported(s)
    ensures Reported(Updated(s))
  {
  }

  lemma MarkedOnward(s: Server, finished: bool, errors: set<Key>, armed: bool, callbacks: nat)
    requires callbacks >= s.callbacks && (s.finished && s.pending == {} ==> finished)
    ensures var t := Marked(s, finished, errors, armed, callbacks);
            Onward(s, t, {}) && OtherPasses(s, t) && Quiet(s, t)
            && (Ownership(s, {}) ==> Ownership(t, {})) && (TriedOnce(s) ==> TriedOnce(t))
  {
  }

  lemma UpdatedKept(s: Server)
    requires Sound(s, {})
    ensures Kept(s, Updated(s), {}, {}) && Quiet(s, Updated(s))
  {
    UpdatedNotified(s);
    UpdatedReported(s);
    var t := Updated(s);
    assert s.finished && s.pending == {} ==> AllGone(s);
    MarkedOnward(s, t.finished, t.errors, t.armed, t.callbacks);
  }

  lemma WithoutState(s: Server, c: int)
    requires Sound(s, {})
    ensures Kept(s, s.(ws := s.ws - {c}), {}, {})
  {
    var t := s.(ws := s.ws - {c});
    assert Sound(t, {}) by {
      WithoutStateSound(s, c);
    }
    assert Forward(s, t, {}) && OtherPasses(s, t) by {
      WithoutStateForward(s, c);
    }
  }

  lemma WithoutStateSound(s: Server, c: int)
    requires Sound(s, {})
    ensures Sound(s.(ws := s.ws - {c}), {})
  {
    var t := s.(ws := s.ws - {c});
    assert TriedOnce(t) && Ownership(t, {}) && Reported(t);
    assert Notified(t) by {
      assert Released(s) ==> Released(t);
    }
  }

  lemma WithoutStateForward(s: Server, c: int)
    ensures var t := s.(ws := s.ws - {c});
            Forward(s, t, {}) && OtherPasses(s, t)
  {
    var t := s.(ws := s.ws - {c});
    assert Shrinks(s, t, {}) && Monotone(s, t) && RetainsOnFailure(s, t);
  }

  // ---------------------------------------------------------------- the listener and new streams

  /** A stream the kernel has just accepted. */
  function Arrived(s: Server, c: int): Server
  {
    s.(openStreams := s.openStreams + {c}, held := s.held + {c}, position := AtCheck)
  }

  lemma ArrivedSound(s: Server, c: int)
    requires Sound(s, {}) && s.position == Accepting && s.listenerOpen && c !in s.held
    ensures Sound(Arrived(s, c), {c}) && HoleOf(Arrived(s, c), c) == {c}
  {
    assert |s.held + {c}| == |s.held| + 1;
    assert Ownership(Arrived(s, c), {c});
    assert Notified(Arrived(s, c));
  }

  /** An accepted stream entered into the table of connections. */
  function Registered(s: Server, c: int, task: int): Server
  {
    s.(connections := s.connections[c := task], owned := s.owned + {task},
       staff := s.staff.(serves := s.staff.serves[task := Serving(c, {})]))
  }

  lemma RegisteredSound(s: Server, c: int, task: int)
    requires Sound(s, {c}) && c in s.openStreams && c !in s.closing && s.listenerOpen
    ensures Sound(Registered(s, c, task), {})
  {
    var t := Registered(s, c, task);
    assert t.connections.Keys == s.connections.Keys + {c};
    assert Ownership(t, {});
    assert Notified(t);
  }

  lemma RegisteredManned(s: Server, c: int, task: int)
    requires Manned(s) && IsNew(s, task)
    ensures Manned(Registered(s, c, task))
  {
    var t := Registered(s, c, task);
    assert t.staff.serves.Keys == s.staff.serves.Keys + {task};
    assert Roles(t.staff);
  }

  lemma MovedSound(s: Server, position: Position, waiting: bool, signalled: bool)
    requires Sound(s, {}) && (position == Accepting ==> |s.held| < s.limit)
    ensures Sound(s.(position := position, waiting := waiting, signalled := signalled), {})
  {
    var t := s.(position := position, waiting := waiting, signalled := signalled);
    assert Ownership(t, {});
    assert Notified(t) by {
      assert Released(s) ==> Released(t);
    }
  }

  /** New tasks, another running task, graceful closers and, for an open stream, WebSockets change nothing that is counted. */
  lemma GrownSound(s: Server, t: Server)
    requires Sound(s, {}) && t.live <= t.staff.started && (t.ws != s.ws ==> s.openStreams != {})
    requires t == s.(staff := t.staff, live := t.live, owned := t.owned, closers := t.closers, ws := t.ws, asked := t.asked,
                     cursor := t.cursor)
    ensures Sound(t, {})
  {
    assert Ownership(t, {}) && Reported(t) && TriedOnce(t);
    assert Notified(t) by {
      assert Released(s) ==> Released(t);
    }
  }
}
