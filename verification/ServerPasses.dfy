/**
 What the operations of `ServerHandle`, and a finalization pass most of all, leave, stated on its record before
 and after: the predicates of their contracts and loops, and the lemmas that carry them from step to step.
 */
module ServerPasses {
  import opened Answers
  import opened Optional
  import opened ServerState
  import opened ServerSteps
  import opened ServerTries

  /** May a pass leave this connection in the table? */
  predicate Stays(before: Server, c: int, current: Option<int>, ownerThread: bool)
  {
    c in before.connections &&
    (Some(before.connections[c]) == current || (!ownerThread && (c in before.closers || c in before.ws)))
  }

  /** Must it?  The running task closes its own; a live WebSocket coordinator is left its Close handshake. */
  predicate MustStay(before: Server, c: int, current: Option<int>, ownerThread: bool)
  {
    c in before.connections && (Some(before.connections[c]) == current || (!ownerThread && c in before.ws))
  }

  /** While the tasks are calm, only the pass itself takes connections off the table. */
  ghost predicate SameTable(a: Server, b: Server)
  {
    Calm(a) ==> b.connections == a.connections && b.ws == a.ws
  }

  /** Everything a connection task cancels when it ends was tried in between. */
  ghost predicate ChildrenTried(a: Server, b: Server, t: int)
  {
    forall x | x in ChildrenOf(a, t) :: Asides(b, x) > Asides(a, x)
  }

  /** `close` cannot make the shutdown known: it was made known before, and a pass has left something; or the channel raises. */
  predicate CannotTell(s: Server)
  {
    if s.notificationSent then s.attempted else Fails(s.tape)
  }

  /** The fields a pass looks at when it cancels tasks. */
  ghost predicate SameTasks(a: Server, b: Server)
  {
    && b.live == a.live && b.owned == a.owned && b.pending == a.pending && b.cancelledIds == a.cancelledIds
    && b.attempts == a.attempts && b.tries == a.tries && b.connections == a.connections && b.ws == a.ws && b.asked == a.asked
  }

  function NewServer(limit: nat, hasWakeup: bool, runsNow: (int, nat) -> bool, tape: seq<bool>): Server
  {
    Server(limit, tape, Staff({}, {}, {}, {}, {}, map[], map[], runsNow), {}, {}, map[], {}, {}, {}, {}, {}, {}, {}, {},
           hasWakeup, true, false, false, false, false, false, true, 0, false, false, AtCheck, None, 0, multiset{}, multiset{}, {})
  }

  /** Cancelling the task disturbs nothing else. */
  predicate Plainly(s: Server, t: int)
  {
    t !in s.live || Bare(s, t)
  }

  ghost predicate PlainlyCancelled(a: Server, b: Server, t: int, pass: nat)
  {
    b == PlainCancel(a, t, pass) || (t in a.live && b == PlainCancel(LeftTable(a, t), t, pass))
  }

  /** The try is counted: as one of the pass, or else as one of a task. */
  ghost predicate CountedFor(a: Server, b: Server, t: int, pass: nat)
  {
    && (pass == 0 ==> Asides(b, t) > Asides(a, t))
    && (pass > 0 ==> b.tries[t] - a.tries[t] > Asides(b, t) - Asides(a, t))
  }

  lemma CallDone(a: Server, ran: Server, b: Server, t: int)
    requires Sound(a, {}) && Kept(Tried(a, t, 0), ran, {}, {}) && Kept(ran, b, {}, {}) && b == Answered(ran)
    requires Plainly(Tried(a, t, 0), t) ==>
               ran == Tried(a, t, 0) || (t in a.live && ran == LeftTable(Tried(a, t, 0), t))
    ensures Kept(a, b, {}, {}) && Asides(b, t) > Asides(a, t)
    ensures Plainly(a, t) ==> CalledPlainly(a, b, t)
  {
    var tried := Tried(a, t, 0);
    TriedSound(a, t, 0);
    CalledForm(a, t);
    Chain(tried, ran, b, {}, {});
    assert Kept(a, tried, {}, {});
    Chain(a, tried, b, {}, {});
    CountedAlways(tried, b, t);
  }

  /** While the tasks are calm, calling one off leaves the tables and the callback alone. */
  lemma CallIsKept(a: Server, b: Server, t: int)
    requires Some(t) == a.cursor ==> b == a
    requires Some(t) != a.cursor && Plainly(a, t) ==> CalledPlainly(a, b, t)
    ensures SameTable(a, b) && NotYet(a, b)
  {
    if Calm(a) && Some(t) != a.cursor {
      CalmIsPlain(a, t);
      CalledKeepsTable(a, b, t);
    }
  }

  lemma CalmIsPlain(s: Server, t: int)
    requires Calm(s)
    ensures Plainly(s, t)
  {
  }

  lemma CalledKeepsTable(a: Server, b: Server, t: int)
    requires CalledPlainly(a, b, t)
    ensures b.connections == a.connections && b.ws == a.ws && b.callbacks == a.callbacks
  {
  }

  lemma RequestDone(before: Server, s: Server, c: int)
    requires Sound(before, {}) && c !in before.asked && c in before.staff.sockets
    requires var (u, t) := (before.(asked := before.asked + {c}), before.staff.sockets[c]);
             && Kept(before, u, {}, {}) && Kept(u, s, {}, {})
             && (Some(t) == u.cursor ==> s == u) && (Some(t) != u.cursor && Plainly(u, t) ==> CalledPlainly(u, s, t))
    ensures Kept(before, s, {}, {}) && c in s.asked
    ensures RequestedPlainly(before, s, c) && SameTable(before, s) && NotYet(before, s)
  {
    var u := before.(asked := before.asked + {c});
    Chain(before, u, s, {}, {});
    CallIsKept(u, s, before.staff.sockets[c]);
    assert Calm(before) ==> Calm(u);
  }

  lemma RequestsOneMore(a: Server, from: Server, s: Server, left: set<int>, c: int)
    requires AskedSoFar(a, from, left) && SameTable(a, from) && NotYet(a, from) && c in left
    requires Onward(a, from, {}) && Onward(from, s, {}) && c in s.asked
    requires RequestedPlainly(from, s, c) && SameTable(from, s) && NotYet(from, s)
    ensures AskedSoFar(a, s, left - {c}) && SameTable(a, s) && NotYet(a, s)
  {
    AskedOneMore(a, from, s, left, c);
    assert Calm(a) ==> Calm(from);
  }

  lemma SettledPlainly(a: Server, ran: Server, b: Server, t: int, pass: nat)
    requires ran == Tried(a, t, pass) || (t in a.live && ran == LeftTable(Tried(a, t, pass), t))
    requires b == Settled(ran, t)
    ensures PlainlyCancelled(a, b, t, pass)
  {
    LeavingCommutes(a, t, pass);
  }

  lemma LeavingCommutes(s: Server, t: int, pass: nat)
    ensures LeftTable(Tried(s, t, pass), t) == Tried(LeftTable(s, t), t, pass)
  {
  }

  lemma CancelDone(a: Server, ran: Server, b: Server, t: int, pass: nat)
    requires Sound(a, {}) && (pass > 0 ==> pass <= a.passes && a.attempts[Attempt(pass, t)] == 0)
    requires Kept(Tried(a, t, pass), ran, {}, {}) && NoLostWakeup(ran)
    requires b == Settled(ran, t)
    ensures Sound(b, {}) && Onward(a, b, {}) && OneAttempt(a, b, t, pass) && NoLostWakeup(b)
    ensures if Fails(ran.tape) then t in b.pending && !Quiet(a, b) else t !in b.pending
    ensures CountedFor(a, b, t, pass)
  {
    var tried := Tried(a, t, pass);
    TriedSound(a, t, pass);
    SettledKept(ran, t);
    Chain(tried, ran, b, {}, {});
    Compose(a, tried, b, {});
    CountedAlways(tried, b, t);
    assert OtherPasses(tried, b);
  }

  lemma ForcedKept(before: Server, ready: Server, end: Server, c: int)
    requires Kept(before, ready, {}, {}) && Kept(ready, end, HoleOf(ready, c), {}) && Sound(ready, {})
    ensures Kept(before, end, {}, {})
  {
    FromTable(ready, end, c);
    Chain(before, ready, end, {}, {});
  }

  /** What becomes of a connection that leaves the table for a close call. */
  ghost predicate PopCloses(a: Server, b: Server, c: int, ok: bool)
  {
    && ok == Closes(Popped(a, c), c) && c !in b.connections && (Quiet(a, b) ==> Untouched(a, b))
    && if ok then b == Closed(Popped(a, c), c) else b.closeRequested
  }

  lemma PopLeaves(before: Server, end: Server, c: int, ok: bool)
    requires var popped := Popped(before, c);
             && Sound(before, {}) && Kept(popped, end, HoleOf(popped, c), {}) && ok == Closes(popped, c)
             && (ok ==> end == Closed(popped, c)) && (!ok ==> !Quiet(popped, end) && end.closeRequested)
    ensures Kept(before, end, {}, {}) && PopCloses(before, end, c, ok)
  {
    PopThen(before, Popped(before, c), end, c);
  }

  lemma ReleaseDone(before: Server, detached: Server, end: Server, t: int, c: int, ok: bool)
    requires Notified(before) && Kept(before, detached, {}, {}) && Kept(detached, end, {}, {})
    requires detached == before.(closers := before.closers - {c}, owned := before.owned - {t})
    requires PopCloses(detached, end, c, ok)
    ensures Kept(before, end, {}, {}) && c !in end.connections
    ensures end.closeRequested || end.signalled == before.signalled
    ensures before.finished ==> (AllGone(end) <==> before.pending == {})
    ensures Quiet(before, end) ==> Untouched(before, end)
  {
    Chain(before, detached, end, {}, {});
    if before.finished {
      assert Released(before) && ok;
      EndAfterRelease(before, t, c);
    }
  }

  lemma NoSingleton(all: set<int>, some: set<int>, c: int)
    requires c in some && some < all
    ensures forall x :: all != {x}
  {
  }

  lemma MaybeDisownedForward(s: Server, child: int)
    requires Sound(s, {})
    ensures var b := MaybeDisowned(s, child);
            Sound(b, {}) && Forward(s, b, {}) && OtherPasses(s, b) && CaresForChildren(s, b) && TakesEffect(s, b)
  {
    if child in MaybeDisowned(s, child).owned || child !in s.owned {
      assert MaybeDisowned(s, child) == s;
      SameKept(s, {});
    } else {
      DisownedSound(s, child);
      DisownedForward(s, child);
    }
  }

  /** The WebSocket of the connection, if it has a live one, has been asked to shut down. */
  predicate SelfAsked(s: Server, t: int)
  {
    t in s.staff.serves && (s.staff.serves[t].stream in s.ws ==> s.staff.serves[t].stream in s.asked)
  }

  lemma ChildDone(a: Server, asked: Server, t: int, child: int)
    requires Sound(asked, {}) && Onward(a, asked, {}) && OneAttempt(a, asked, child, 0)
    requires CountedFor(a, asked, child, 0) && SelfAsked(a, t) && child in a.staff.serves[t].children
    ensures var b := MaybeDisowned(asked, child);
            Kept(a, b, {}, {}) && Asides(b, child) > Asides(a, child)
  {
    var b := MaybeDisowned(asked, child);
    MaybeDisownedForward(asked, child);
    ForwardCompose(a, asked, b, {});
    CaresCompose(a, asked, b, {});
    ChildKeeps(a, asked, t, child);
    assert TakesEffect(a, b) by {
      assert forall x :: Prompt(asked, x) == Prompt(a, x);
    }
  }

  lemma ChildKeeps(a: Server, asked: Server, t: int, child: int)
    requires Onward(a, asked, {}) && Asides(asked, child) > Asides(a, child)
    requires SelfAsked(a, t) && child in a.staff.serves[t].children
    ensures var b := MaybeDisowned(asked, child);
            KeepsSocketTasks(a, b) && KeepsAttended(a, b)
  {
    var b := MaybeDisowned(asked, child);
    assert forall x :: Asides(b, x) == Asides(asked, x);
    if Staffed(a) && Attended(a) {
      forall c | Hears(b, c) ensures b.staff.sockets[c] in b.owned && b.staff.sockets[c] !in b.cancelledIds {
        assert Hears(asked, c) && c != a.staff.serves[t].stream;
      }
    }
  }

  lemma ChildLeaves(a: Server, asked: Server, child: int)
    requires Onward(a, asked, {}) && Sound(asked, {})
    requires Plainly(a, child) ==> PlainlyCancelled(a, asked, child, 0)
    requires Prompt(a, child) ==> child !in asked.live
    ensures var b := MaybeDisowned(asked, child);
            && (child !in a.live ==> b == ChildCancelled(a, child))
            && (Quiet(a, b) && Simple(a, child) ==> Dismissed(a, b, {child}))
  {
    var b := MaybeDisowned(asked, child);
    if Quiet(a, b) && Simple(a, child) {
      assert !Fails(a.tape);
      ChildDismissed(a, asked, b, child);
    }
  }

  lemma FailedChild(s: Server, x: int)
    requires Fails(s.tape)
    ensures x in ChildCancelled(s, x).pending && ChildCancelled(s, x).finished == s.finished
  {
  }

  /** Of all the children, those not left were tried; a single one that does not run leaves a known state. */
  ghost predicate TriedSoFar(before: Server, s: Server, all: set<int>, left: set<int>)
  {
    && left <= all && (left == all ==> s == before)
    && (forall x | x in all && x !in left :: Asides(s, x) > Asides(before, x))
    && (left != all ==> forall x | all == {x} && x !in before.live :: s == ChildCancelled(before, x))
  }

  lemma TriedOneMore(before: Server, from: Server, s: Server, all: set<int>, left: set<int>, child: int)
    requires TriedSoFar(before, from, all, left) && child in left
    requires Onward(before, from, {}) && Onward(from, s, {})
    requires Asides(s, child) > Asides(from, child) && (child !in from.live ==> s == ChildCancelled(from, child))
    ensures TriedSoFar(before, s, all, left - {child})
  {
    AsidesGrow(before, from, s);
    if left != all {
      NoSingleton(all, left, child);
    } else {
      assert forall x | all == {x} :: x == child;
    }
  }

  lemma AllTried(before: Server, s: Server, all: set<int>, t: int)
    requires TriedSoFar(before, s, all, {}) && all == ChildrenOf(before, t)
    ensures ChildrenTried(before, s, t)
    ensures forall x | ChildrenOf(before, t) == {x} && x !in before.live :: s == ChildCancelled(before, x)
  {
  }

  lemma AsidesGrow(a: Server, b: Server, c: Server)
    requires Onward(a, b, {}) && Onward(b, c, {})
    ensures forall x :: Asides(a, x) <= Asides(b, x) <= Asides(c, x)
  {
  }

  lemma TriedFurther(a: Server, b: Server, c: Server, t: int)
    requires ChildrenTried(a, b, t) && Onward(b, c, {})
    ensures ChildrenTried(a, c, t)
  {
  }

  /** The children still there when the connection begins to cancel them were tried; the others are handlers that have ended. */
  lemma CaredSince(a: Server, asked: Server, b: Server, t: int)
    requires Onward(a, asked, {}) && Onward(asked, b, {}) && ChildrenTried(asked, b, t)
    ensures CaredFor(a, b, t)
  {
    forall x | x in ChildrenOf(a, t) ensures Asides(b, x) > Asides(a, x) || (x in a.staff.handlers && x !in b.owned) {
      CountedAlways(a, asked, x);
      assert x in ChildrenOf(asked, t) || (x in a.staff.handlers && x !in asked.owned);
    }
  }

  /** The accept loop ends on a closed server, waits at the limit and accepts below it. */
  function HeadOfLoop(s: Server): Server
  {
    var next := if s.closeRequested then Ended else if |s.held| >= s.limit then AwaitingCapacity else Accepting;
    s.(position := next, waiting := s.waiting || next == AwaitingCapacity)
  }

  lemma HeadOfLoopValid(s: Server)
    requires Valid(s) && s.position == AtCheck
    ensures Valid(HeadOfLoop(s)) && |s.connections| + |s.closing| == |s.held|
  {
    var t := HeadOfLoop(s);
    OwnedCount(s);
    MovedSound(s, t.position, t.waiting, t.signalled);
  }

  function Announced(s: Server, hasWakeup: bool): Server
  {
    var tells := hasWakeup && !s.notificationSent;
    s.(failed := true, closeRequested := true, tape := if tells then Rest(s.tape) else s.tape,
       notificationSent := s.notificationSent || (tells && !Fails(s.tape)))
  }

  lemma AnnouncedKept(s: Server, hasWakeup: bool)
    requires Sound(s, {})
    ensures Kept(Doomed(s), Announced(s, hasWakeup), {}, {})
  {
    DoomedSound(s, {});
    Minor(Doomed(s), Announced(s, hasWakeup), {});
  }

  lemma StillValid(a: Server, b: Server)
    requires Valid(a) && Kept(a, b, {}, {}) && b.closeRequested
    ensures Valid(b)
  {
    StaysManned(a, b, {});
  }

  lemma DisownedUnforked(s: Server, t: int)
    requires Sound(s, {}) && Manned(s) && t in s.staff.serves
    ensures Sound(Disowned(s, t), {}) && Manned(Disowned(s, t))
  {
    DisownedSound(s, t);
    DisownedKeeps(s, t);
  }

  /** The requests finish nothing in a state between operations. */
  lemma FlagsOnly(flagged: Server, asked: Server)
    requires Staffed(flagged) && AskedSoFar(flagged, asked, {})
    ensures asked.finished == flagged.finished && asked.pending == flagged.pending && AllAsked(asked)
    ensures TriesExactly(flagged, asked, CalledOff(flagged))
  {
    StaffedIsPlain(flagged);
    AllHaveBeenAsked(flagged, asked);
  }

  lemma FlaggedCalls(s: Server)
    ensures CalledOff(s.(closeRequested := true, attempted := true)) == CalledOff(s)
  {
    var t := s.(closeRequested := true, attempted := true);
    assert forall c :: Unasked(t, c) == Unasked(s, c);
  }

  lemma ClosedFromTask(before: Server, asked: Server, end: Server, current: Option<int>)
    requires Valid(before) && Kept(before, asked, {}, {}) && Kept(asked, end, {}, {}) && end.closeRequested
    requires before.ws == {} ==> asked == before.(closeRequested := true, attempted := true)
    requires forall c | Plain(asked, c, current) :: end == PlainPass(asked, c)
    requires AllAsked(asked) && asked.pending == before.pending && TriesExactly(before, asked, CalledOff(before))
    requires PassTries(asked, end, false)
    ensures Valid(end) && Kept(before, end, {}, {})
    ensures forall c | Plain(before, c, current) :: end == PlainPass(before, c)
    ensures PassTries(before, end, false)
  {
    PlainAsked(before, current);
    Chain(before, asked, end, {}, {});
    StillValid(before, end);
    AskedFirst(before, asked, end);
  }

  /** The requests were made before the pass, which then tries nobody. */
  lemma AskedFirst(before: Server, asked: Server, end: Server)
    requires Onward(before, asked, {}) && Onward(asked, end, {})
    requires AllAsked(asked) && asked.pending == before.pending && TriesExactly(before, asked, CalledOff(before))
    requires PassTries(asked, end, false)
    ensures PassTries(before, end, false)
  {
    if Quiet(before, end) && before.pending == {} {
      QuietParts(before, asked, end);
      assert CalledOff(asked) == {} && SocketsPlain(asked);
    }
  }

  lemma AttemptedKept(s: Server)
    requires Sound(s, {})
    ensures Kept(s, s.(closeRequested := true, attempted := true), {}, {})
  {
    Minor(s, s.(closeRequested := true, attempted := true), {});
  }

  lemma AskedAgain(s: Server)
    requires Sound(s, {})
    ensures Kept(s, s.(closeRequested := true), {}, {})
  {
    Minor(s, s.(closeRequested := true), {});
  }

  /** A finalization pass under way: its number and the tasks it has tried to cancel. */
  ghost predicate InPass(s: Server, pass: nat, tried: set<int>)
  {
    && Sound(s, {}) && s.closeRequested && s.attempted && 0 < pass <= s.passes && OwnAttempts(s, pass, tried)
    && AllAsked(s)
    && forall t | t in tried && Prompt(s, t) :: t !in s.live
  }

  /** The pass has tried the task, or it was cancelled before. */
  ghost predicate PassTried(s: Server, t: int, pass: nat)
  {
    t in s.cancelledIds || s.attempts[Attempt(pass, t)] > 0
  }

  /** What the requests of a pass have done. */
  ghost predicate HasBegun(a: Server, b: Server)
  {
    var u := Began(a);
    && Kept(u, b, {}, {}) && AskedSoFar(u, b, {}) && SameTable(u, b) && NotYet(u, b) && (a.ws == {} ==> b == u)
  }

  lemma PassBegun(a: Server, b: Server)
    requires Sound(a, {}) && HasBegun(a, b)
    ensures Kept(a, b, {}, {}) && InPass(b, a.passes + 1, {})
  {
    var u := Began(a);
    BeganKept(a);
    Chain(a, u, b, {}, {});
    AllHaveBeenAsked(u, b);
    assert OwnAttempts(b, a.passes + 1, {});
  }

  lemma WokenIn(s: Server, pass: nat)
    requires InPass(s, pass, {})
    ensures var u := WakeupTried(s);
            && Kept(s, u, {}, {}) && InPass(u, pass, {}) && SameTasks(s, u) && u.passes == s.passes
            && u.callbacks == s.callbacks && (Quiet(s, u) ==> !u.wakeupOpen) && u.closing == s.closing
  {
    WakeupKept(s);
    assert OwnAttempts(WakeupTried(s), pass, {});
  }

  lemma PassStarted(before: Server, unwoken: Server, s: Server, pass: nat)
    requires Kept(before, unwoken, {}, {}) && SameTasks(before, unwoken) && unwoken.callbacks == before.callbacks
    requires Kept(unwoken, s, {}, {}) && SameTasks(unwoken, s) && s.callbacks == unwoken.callbacks
    requires pass <= before.passes
    ensures KeptIn(before, s, pass) && SameTasks(before, s)
    ensures Quiet(before, s) ==> Quiet(before, unwoken) && Quiet(unwoken, s)
  {
    Chain(before, unwoken, s, {}, {});
    KeptIsIn(before, s, pass);
  }

  /** What the owner's pass has done about every task still owned. */
  ghost predicate OwnedTried(s: Server, current: Option<int>, pass: nat)
  {
    forall t | t in s.owned :: Some(t) == current || PassTried(s, t, pass)
  }

  lemma PassIsDone(a: Server, started: Server, swept: Server, z: Server, current: Option<int>, ownerThread: bool, pass: nat)
    requires Onward(a, started, {}) && Onward(started, swept, {}) && Onward(swept, z, {})
    requires started.connections == a.connections && started.ws == a.ws
    requires Quiet(a, started) ==> !started.wakeupOpen && started.closing == {}
    requires Quiet(started, swept) ==> swept.pending == {}
    requires Quiet(swept, z) ==> !z.listenerOpen
    requires forall c | c in swept.connections :: Stays(started, c, current, ownerThread)
    requires Calm(started) ==> forall c | MustStay(started, c, current, ownerThread) :: c in swept.connections
    requires ownerThread ==> OwnedTried(swept, current, pass)
    requires z.connections == swept.connections && z.owned == swept.owned && z.cancelledIds == swept.cancelledIds
    requires z.attempts == swept.attempts
    ensures PassEnded(a, z, current, ownerThread, pass)
    ensures Calm(a) ==> forall c | MustStay(a, c, current, ownerThread) :: c in z.connections
  {
    forall c | c in z.connections ensures Stays(a, c, current, ownerThread) {
      assert Stays(started, c, current, ownerThread);
    }
    if Calm(a) {
      forall c | MustStay(a, c, current, ownerThread) ensures c in z.connections {
        assert MustStay(started, c, current, ownerThread);
      }
    }
  }

  /** What the body of a pass, or its first part, leaves. */
  ghost predicate Swept(a: Server, b: Server, current: Option<int>, ownerThread: bool, pass: nat)
  {
    && KeptIn(a, b, pass)
    && (Quiet(a, b) ==> b.pending == {})
    && (forall c | c in b.connections :: Stays(a, c, current, ownerThread))
    && (Calm(a) ==> forall c | MustStay(a, c, current, ownerThread) :: c in b.connections)
  }

  lemma SweptOn(a: Server, b: Server, c: Server, current: Option<int>, ownerThread: bool, pass: nat)
    requires Swept(a, b, current, ownerThread, pass) && KeptIn(b, c, pass) && SameTable(b, c)
    ensures Swept(a, c, current, ownerThread, pass)
  {
    ChainIn(a, b, c, pass);
    assert Quiet(a, c) ==> Quiet(a, b) && Quiet(b, c);
    assert Calm(a) ==> Calm(b);
  }

  lemma StaysThrough(a: Server, cancelled: Server, closed: Server, current: Option<int>, ownerThread: bool)
    requires Shrinks(a, cancelled, {})
    requires forall c | c in closed.connections :: Stays(cancelled, c, current, ownerThread)
    ensures forall c | c in closed.connections :: Stays(a, c, current, ownerThread)
  {
  }

  lemma MustStayThrough(a: Server, cancelled: Server, closed: Server, current: Option<int>, ownerThread: bool)
    requires SameTable(a, cancelled) && cancelled.live <= a.live && cancelled.staff == a.staff
    requires Calm(cancelled) ==> forall c | MustStay(cancelled, c, current, ownerThread) :: c in closed.connections
    ensures Calm(a) ==> forall c | MustStay(a, c, current, ownerThread) :: c in closed.connections
  {
    if Calm(a) {
      forall c | MustStay(a, c, current, ownerThread) ensures c in closed.connections {
        assert MustStay(cancelled, c, current, ownerThread);
      }
    }
  }

  /** The fields of a plain cancellation a pass looks at. */
  lemma PlainCancelFields(s: Server, t: int, pass: nat)
    ensures var b := PlainCancel(s, t, pass);
            && b.attempts == Tried(s, t, pass).attempts && b.tries == Tried(s, t, pass).tries
            && b.callbacks == s.callbacks && b.connections == s.connections && b.ws == s.ws
  {
  }

  lemma CalmCancel(a: Server, b: Server, t: int, pass: nat)
    requires Plainly(a, t) ==> PlainlyCancelled(a, b, t, pass)
    ensures NotYet(a, b) && SameTable(a, b)
    ensures Calm(a) ==> b.attempts == Tried(a, t, pass).attempts && b.tries == Tried(a, t, pass).tries
  {
    if Calm(a) {
      assert Plainly(a, t);
      PlainCancelFields(a, t, pass);
      PlainCancelFields(LeftTable(a, t), t, pass);
    }
  }

  /** One attempt of a pass: cancelled and noted, or retained. */
  lemma AttemptDone(a: Server, asked: Server, b: Server, t: int, pass: nat, tried: set<int>)
    requires InPass(a, pass, tried) && t !in tried
    requires Sound(asked, {}) && Onward(a, asked, {}) && OneAttempt(a, asked, t, pass) && CountedFor(a, asked, t, pass)
    requires t in asked.pending ==> !Quiet(a, asked)
    requires Plainly(a, t) ==> PlainlyCancelled(a, asked, t, pass)
    requires Prompt(a, t) ==> t !in asked.live
    requires Neat(a, t) && Quiet(a, asked) ==> Cancelled(a, asked, t)
    requires b == if t in asked.pending then asked else asked.(cancelledIds := asked.cancelledIds + {t})
    ensures InPass(b, pass, tried + {t}) && KeptIn(a, b, pass) && SameTable(a, b)
    ensures Quiet(a, b) ==> t !in b.pending && t in b.cancelledIds
    ensures t in b.pending || t in b.cancelledIds
    ensures Neat(a, t) && Quiet(a, b) ==> Cancelled(a, b, t)
    ensures a.live == {} ==> TriedPlainly(a, b, t)
  {
    CalmCancel(a, asked, t, pass);
    AttemptIn(a, asked, t, pass, tried);
    if t !in asked.pending {
      NotedCancelled(a, asked, t);
      NotedIn(a, asked, t, pass, tried);
    }
    NotedLeaves(a, asked, b, t, pass);
  }

  /** Noting a task as cancelled changes nothing else. */
  lemma NotedLeaves(a: Server, asked: Server, b: Server, t: int, pass: nat)
    requires b == asked.(cancelledIds := b.cancelledIds)
    requires Plainly(a, t) ==> PlainlyCancelled(a, asked, t, pass)
    ensures SameTable(a, asked) ==> SameTable(a, b)
    ensures Cancelled(a, asked, t) ==> Cancelled(a, b, t)
    ensures a.live == {} ==> TriedPlainly(a, b, t)
  {
    assert Freed(a, b, t) == Freed(a, asked, t);
    if a.live == {} {
      AskedPlainly(a, asked, b, t, pass);
    }
  }

  lemma AttemptIn(a: Server, b: Server, t: int, pass: nat, tried: set<int>)
    requires InPass(a, pass, tried) && t !in tried
    requires Sound(b, {}) && Onward(a, b, {}) && OneAttempt(a, b, t, pass) && NotYet(a, b)
    requires Calm(a) ==> b.attempts == Tried(a, t, pass).attempts && b.tries == Tried(a, t, pass).tries
    requires Prompt(a, t) ==> t !in b.live
    ensures InPass(b, pass, tried + {t}) && KeptIn(a, b, pass)
  {
    assert Earlier(a, b, pass);
    assert OwnAttempts(b, pass, tried + {t});
    assert forall x :: Prompt(b, x) == Prompt(a, x);
  }

  /** Of the cancellations pending at the start of the pass, those not left were tried. */
  ghost predicate RetriedSoFar(before: Server, s: Server, left: set<int>, tried: set<int>, pass: nat)
  {
    && KeptIn(before, s, pass) && SameTable(before, s) && left !! tried
    && (tried == {} ==> s == before) && (before.pending == {} ==> left == {} && tried == {})
    && (Quiet(before, s) ==> s.pending <= left) && TasksOnly(before, s, tried)
  }

  lemma NoneRetried(s: Server, pass: nat)
    requires Sound(s, {}) && pass <= s.passes + 1
    ensures RetriedSoFar(s, s, s.pending, {}, pass)
  {
    SameKept(s, {});
    KeptIsIn(s, s, pass);
  }

  lemma RetriedOneMore(before: Server, from: Server, s: Server, left: set<int>, tried: set<int>, t: int, pass: nat)
    requires RetriedSoFar(before, from, left, tried, pass) && t in left
    requires KeptIn(from, s, pass) && SameTable(from, s) && (Quiet(from, s) ==> t !in s.pending)
    requires from.live == {} ==> TriedPlainly(from, s, t)
    ensures RetriedSoFar(before, s, left - {t}, tried + {t}, pass)
  {
    ChainIn(before, from, s, pass);
    assert t in tried + {t};
    OnlyOneMore(before, from, s, t, tried);
    assert Calm(before) ==> Calm(from);
    assert Quiet(before, s) ==> Quiet(before, from) && Quiet(from, s);
  }

  /** The pass notes the task it has just cancelled. */
  lemma NotedIn(a: Server, b: Server, t: int, pass: nat, tried: set<int>)
    requires InPass(b, pass, tried + {t}) && KeptIn(a, b, pass)
    requires var c := b.(cancelledIds := b.cancelledIds + {t}); Sound(c, {}) && Onward(a, c, {})
    ensures var c := b.(cancelledIds := b.cancelledIds + {t}); InPass(c, pass, tried + {t}) && KeptIn(a, c, pass)
  {
    var c := b.(cancelledIds := b.cancelledIds + {t});
    assert OwnAttempts(c, pass, tried + {t}) && Earlier(a, c, pass) && NotYet(a, c);
    assert Alone(a, c, pass) by {
      assert forall x :: Asides(c, x) == Asides(b, x);
    }
  }

  /** A close call that goes through. */
  predicate Closes(s: Server, c: int)
  {
    c in s.openStreams ==> !Fails(s.tape)
  }

  /** The server's only connection, with nothing pending, which a scheduler-side pass closes without trouble. */
  predicate Smooth(s: Server, c: int, current: Option<int>)
  {
    && s.pending == {} && s.connections.Keys == {c} && Some(s.connections[c]) != current
    && c !in s.closers && c !in s.ws && Closes(Popped(s, c), c)
  }

  predicate Plain(s: Server, c: int, current: Option<int>)
  {
    !s.finished && s.closing == {} && s.ws == {} && Smooth(WakeupTried(Began(s)), c, current)
  }

  function PlainPass(s: Server, c: int): Server
  {
    PlainRest(Began(s), c)
  }

  lemma PlainAsked(s: Server, current: Option<int>)
    ensures var asked := s.(closeRequested := true, attempted := true);
            forall c :: Plain(asked, c, current) == Plain(s, c, current) && PlainPass(asked, c) == PlainPass(s, c)
  {
    assert Began(s.(closeRequested := true, attempted := true)) == Began(s);
  }

  /** Of the connections at the start, those not left were closed, retained or left to their task. */
  ghost predicate ClosedSoFar(before: Server, s: Server, left: map<int, int>, current: Option<int>, ownerThread: bool, pass: nat)
  {
    && KeptIn(before, s, pass)
    && left.Keys <= before.connections.Keys && (forall c | c in left :: left[c] == before.connections[c])
    && (left.Keys == before.connections.Keys ==> s == before)
    && (forall c | c in s.connections :: c in left || Stays(before, c, current, ownerThread))
    && CalmTable(before, s, current, ownerThread)
    && (!ownerThread && left.Keys != before.connections.Keys ==> SmoothlyClosed(before, s, current))
  }

  ghost predicate CalmTable(before: Server, s: Server, current: Option<int>, ownerThread: bool)
  {
    Calm(before) ==>
      s.ws == before.ws && forall c | MustStay(before, c, current, ownerThread) :: c in s.connections
  }

  /** What closing one connection of the snapshot does. */
  ghost predicate OneClosed(from: Server, s: Server, c: int, task: int, current: Option<int>, ownerThread: bool, pass: nat)
  {
    && KeptIn(from, s, pass)
    && (c in s.connections ==> Some(task) == current || (!ownerThread && (c in from.closers || c in from.ws)))
    && (Calm(from) ==> s.ws == from.ws && from.connections.Keys - {c} <= s.connections.Keys)
    && (Calm(from) && (Some(task) == current || (!ownerThread && c in from.ws)) ==> s.connections == from.connections)
    && (!ownerThread && Some(task) != current && c !in from.closers && c !in from.ws && Closes(Popped(from, c), c) ==>
          s == Closed(Popped(from, c), c))
  }

  ghost predicate ClosedInPass(a: Server, b: Server, c: int)
  {
    && b.connections == a.connections - {c} && b.ws == a.ws && (Quiet(a, b) ==> Untouched(a, b))
    && (Closes(Popped(a, c), c) ==> b == Closed(Popped(a, c), c))
  }

  /** No task runs, and there is no connection, no WebSocket and no stream retained. */
  predicate Unused(s: Server)
  {
    s.live == {} && s.connections.Keys == {} && s.closing == {} && s.ws == {}
  }

  /** The outcome of cancelling a task while none runs. */
  ghost predicate TriedPlainly(a: Server, b: Server, t: int)
  {
    && b.live == {} && b.wakeupOpen == a.wakeupOpen
    && b.pending == if Quiet(a, b) then a.pending - {t} else a.pending + {t}
  }

  /** While no task runs, a failing cancellation stays pending for the rest of the pass. */
  ghost predicate TasksOnly(a: Server, s: Server, tried: set<int>)
  {
    Unused(a) ==>
      s.live == {} && s.wakeupOpen == a.wakeupOpen && (s.pending * tried == {} ==> Quiet(a, s))
  }

  lemma OnlyOneMore(a: Server, from: Server, s: Server, t: int, tried: set<int>)
    requires TasksOnly(a, from, tried) && t !in tried && (from.live == {} ==> TriedPlainly(from, s, t))
    ensures TasksOnly(a, s, tried + {t})
  {
    if Unused(a) {
      assert s.pending * tried == from.pending * tried;
      assert !Quiet(from, s) ==> t in s.pending * (tried + {t});
      assert s.pending * (tried + {t}) == {} ==> s.pending * tried == {};
    }
  }

  lemma AskedPlainly(a: Server, asked: Server, b: Server, t: int, pass: nat)
    requires a.live == {} && (Plainly(a, t) ==> PlainlyCancelled(a, asked, t, pass))
    requires b == asked.(cancelledIds := b.cancelledIds)
    ensures TriedPlainly(a, b, t)
  {
    assert asked == PlainCancel(a, t, pass);
  }

  /** A pass over an unused server finishes only if no kernel call fails. */
  lemma UnusedPass(before: Server, swept: Server, end: Server, tried: set<int>)
    requires Unused(before) && TasksOnly(WakeupTried(before), swept, tried)
    requires end == Updated(ListenerTried(swept))
    ensures end.finished ==> Quiet(before, end)
  {
  }

  /** Of the owned tasks of the snapshot, those not left were cancelled, skipped or tried. */
  ghost predicate OwnedSoFar(first: Server, before: Server, s: Server, left: set<int>, current: Option<int>, pass: nat,
                             tried: set<int>)
  {
    && KeptIn(before, s, pass) && SameTable(before, s) && left <= before.owned
    && (forall t | t in s.owned :: t in left || Some(t) == current || t in s.cancelledIds || t in tried)
    && Onward(first, s, {}) && OwnedLedger(first, s, tried, before.owned, current) && TasksOnly(first, s, tried)
  }

  lemma OwnedNext(first: Server, before: Server, from: Server, s: Server, left: set<int>, t: int, current: Option<int>,
                  pass: nat, tried: set<int>)
    requires OwnedSoFar(first, before, from, left, current, pass, tried)
    requires t in left && t !in tried && t !in from.cancelledIds && Some(t) != current
    requires KeptIn(from, s, pass) && SameTable(from, s)
    requires Neat(from, t) && Quiet(from, s) ==> Cancelled(from, s, t)
    requires from.live == {} ==> TriedPlainly(from, s, t)
    ensures OwnedSoFar(first, before, s, left - {t}, current, pass, tried + {t})
  {
    ChainIn(before, from, s, pass);
    Compose(first, from, s, {});
    OwnedOneMore(first, from, s, tried, before.owned, t, current);
    OnlyOneMore(first, from, s, t, tried);
    assert SameTable(before, s) by {
      assert Calm(before) ==> Calm(from);
    }
  }

  /** What the pass has done about the task of one connection. */
  ghost predicate OneTried(from: Server, s: Server, task: int, current: Option<int>, ownerThread: bool, pass: nat,
                           tried0: set<int>, tried: set<int>)
  {
    && TriedNext(from, s, task, ownerThread, tried0, tried)
    && (ownerThread && Some(task) != current ==> PassTried(s, task, pass))
  }

  /** The same before its stream is closed. */
  ghost predicate OneAsked(from: Server, s: Server, task: int, current: Option<int>, ownerThread: bool, pass: nat,
                           tried0: set<int>, tried: set<int>)
  {
    && KeptIn(from, s, pass) && SameTable(from, s) && (!ownerThread || Some(task) == current ==> s == from)
    && OneTried(from, s, task, current, ownerThread, pass, tried0, tried)
  }

  /** The pass leaves the task alone if it is current, was cancelled before or has been tried. */
  lemma NothingAsked(s: Server, task: int, current: Option<int>, ownerThread: bool, pass: nat, tried: set<int>)
    requires InPass(s, pass, tried)
    ensures ownerThread && Some(task) != current ==> task in s.cancelledIds || task in tried ==>
              OneAsked(s, s, task, current, ownerThread, pass, tried, tried)
    ensures !ownerThread || Some(task) == current ==> OneAsked(s, s, task, current, ownerThread, pass, tried, tried)
  {
    SameKept(s, {});
    KeptIsIn(s, s, pass);
    assert task in tried ==> s.attempts[Attempt(pass, task)] == 1;
  }

  lemma TaskAsked(from: Server, s: Server, task: int, current: Option<int>, pass: nat, tried: set<int>)
    requires InPass(s, pass, tried + {task}) && KeptIn(from, s, pass) && SameTable(from, s)
    requires task !in tried && Some(task) != current
    requires Neat(from, task) && Quiet(from, s) ==> Cancelled(from, s, task)
    ensures OneAsked(from, s, task, current, true, pass, tried, tried + {task})
  {
    assert s.attempts[Attempt(pass, task)] == 1;
    assert tried + {task} != tried;
  }

  lemma NotClosed(s: Server, c: int, task: int, current: Option<int>, ownerThread: bool, pass: nat)
    requires Sound(s, {}) && pass <= s.passes
    requires Some(task) == current || (!ownerThread && (c in s.closers || c in s.ws))
    ensures OneClosed(s, s, c, task, current, ownerThread, pass)
  {
    SameKept(s, {});
    KeptIsIn(s, s, pass);
  }

  lemma TaskClosed(from: Server, asked: Server, s: Server, c: int, task: int, current: Option<int>, ownerThread: bool,
                   pass: nat, tried0: set<int>, tried: set<int>)
    requires OneAsked(from, asked, task, current, ownerThread, pass, tried0, tried)
    requires KeptIn(asked, s, pass) && ClosedInPass(asked, s, c)
    requires Some(task) != current && (ownerThread || c !in from.ws)
    ensures OneClosed(from, s, c, task, current, ownerThread, pass)
    ensures OneTried(from, s, task, current, ownerThread, pass, tried0, tried)
  {
    ChainIn(from, asked, s, pass);
    assert OneTried(from, s, task, current, ownerThread, pass, tried0, tried) by {
      ClosedTried(from, asked, s, task, current, ownerThread, pass, tried0, tried);
    }
  }

  lemma ClosedTried(from: Server, asked: Server, s: Server, task: int, current: Option<int>, ownerThread: bool,
                    pass: nat, tried0: set<int>, tried: set<int>)
    requires OneTried(from, asked, task, current, ownerThread, pass, tried0, tried) && Onward(from, asked, {})
    requires Onward(asked, s, {}) && (Quiet(asked, s) ==> Untouched(asked, s))
    ensures OneTried(from, s, task, current, ownerThread, pass, tried0, tried)
  {
    assert asked.attempts[Attempt(pass, task)] <= s.attempts[Attempt(pass, task)];
    if Quiet(from, s) {
      QuietParts(from, asked, s);
      if tried != tried0 && Neat(from, task) {
        CancelledFurther(from, asked, s, task);
      }
    }
  }

  lemma AllClosed(before: Server, s: Server, left: map<int, int>, current: Option<int>, ownerThread: bool, pass: nat)
    requires ClosedSoFar(before, s, left, current, ownerThread, pass) && left.Keys == {}
    ensures KeptIn(before, s, pass)
    ensures forall c | c in s.connections :: Stays(before, c, current, ownerThread)
    ensures CalmTable(before, s, current, ownerThread)
    ensures !ownerThread ==> SmoothlyClosed(before, s, current)
    ensures before.connections.Keys == {} ==> s == before
  {
    if before.connections.Keys == {} {
      NothingToClose(before, s, current);
    }
  }

  lemma NothingToClose(before: Server, s: Server, current: Option<int>)
    requires before.connections.Keys == {}
    ensures SmoothlyClosed(before, s, current)
  {
    assert forall c | Smooth(before, c, current) :: c in before.connections.Keys;
  }

  lemma NoneClosed(s: Server, current: Option<int>, ownerThread: bool, pass: nat)
    requires Sound(s, {}) && pass <= s.passes + 1
    ensures ClosedSoFar(s, s, s.connections, current, ownerThread, pass)
  {
    SameKept(s, {});
    KeptIsIn(s, s, pass);
  }

  lemma ClosedOneMore(before: Server, from: Server, s: Server, left: map<int, int>, c: int, current: Option<int>,
                      ownerThread: bool, pass: nat)
    requires ClosedSoFar(before, from, left, current, ownerThread, pass) && c in left
    requires OneClosed(from, s, c, left[c], current, ownerThread, pass)
    ensures ClosedSoFar(before, s, left - {c}, current, ownerThread, pass)
  {
    ChainIn(before, from, s, pass);
    assert (left - {c}).Keys == left.Keys - {c};
    StaysOneMore(before, from, s, left, c, current, ownerThread, pass);
    CalmOneMore(before, from, s, left, c, current, ownerThread, pass);
    if !ownerThread {
      OneSmooth(from, s, c, left[c], current, pass);
      SmoothOneMore(before, from, s, left, c, current);
    }
  }

  lemma StaysOneMore(before: Server, from: Server, s: Server, left: map<int, int>, c: int, current: Option<int>,
                     ownerThread: bool, pass: nat)
    requires ClosedSoFar(before, from, left, current, ownerThread, pass) && c in left
    requires OneClosed(from, s, c, left[c], current, ownerThread, pass)
    ensures forall x | x in s.connections :: x in left - {c} || Stays(before, x, current, ownerThread)
  {
    assert from.closers <= before.closers && from.ws <= before.ws && s.connections.Keys <= from.connections.Keys;
  }

  lemma CalmOneMore(before: Server, from: Server, s: Server, left: map<int, int>, c: int, current: Option<int>,
                    ownerThread: bool, pass: nat)
    requires ClosedSoFar(before, from, left, current, ownerThread, pass) && c in left
    requires OneClosed(from, s, c, left[c], current, ownerThread, pass)
    ensures CalmTable(before, s, current, ownerThread)
  {
    if Calm(before) {
      assert Calm(from);
      forall x | MustStay(before, x, current, ownerThread) ensures x in s.connections {
        assert x in from.connections;
      }
    }
  }

  lemma OneSmooth(from: Server, s: Server, c: int, task: int, current: Option<int>, pass: nat)
    requires OneClosed(from, s, c, task, current, false, pass)
    ensures c in from.connections && from.connections[c] == task && Smooth(from, c, current) ==> s == Closed(Popped(from, c), c)
  {
  }

  lemma SmoothOneMore(before: Server, from: Server, s: Server, left: map<int, int>, c: int, current: Option<int>)
    requires c in left && left.Keys <= before.connections.Keys && left[c] == before.connections[c]
    requires left.Keys == before.connections.Keys ==> from == before
    requires c in from.connections && from.connections[c] == left[c] && Smooth(from, c, current) ==> s == Closed(Popped(from, c), c)
    ensures SmoothlyClosed(before, s, current)
  {
    var all := before.connections.Keys;
    if left.Keys != all {
      NoSingleton(all, left.Keys, c);
    } else {
      OnlySmooth(before, s, c, current);
    }
  }

  lemma OnlySmooth(before: Server, s: Server, c: int, current: Option<int>)
    requires c in before.connections
    requires Smooth(before, c, current) ==> s == Closed(Popped(before, c), c)
    ensures SmoothlyClosed(before, s, current)
  {
    forall x | Smooth(before, x, current) ensures x == c {
      assert c in before.connections.Keys;
    }
  }

  /** What a scheduler-side pass makes of its only connection. */
  ghost predicate SmoothlyClosed(a: Server, b: Server, current: Option<int>)
  {
    forall c | Smooth(a, c, current) :: b == Closed(Popped(a, c), c)
  }

  /** Tasks of connections in the table that their cancellation stops at once have run their `finally` block. */
  ghost predicate Stopped(a: Server, b: Server, current: Option<int>)
  {
    forall c | c in a.connections && Some(a.connections[c]) != current && a.connections[c] !in a.cancelledIds
               && Prompt(a, a.connections[c]) :: a.connections[c] !in b.live
  }

  /** The pass has tried the task of every connection no longer left. */
  ghost predicate TableTried(a: Server, s: Server, left: map<int, int>, current: Option<int>, pass: nat)
  {
    forall c | c in a.connections && c !in left :: Some(a.connections[c]) == current || PassTried(s, a.connections[c], pass)
  }

  /** Of the connections of the snapshot, those not left were closed, retained or left to their task, and their tasks tried. */
  ghost predicate TableSoFar(before: Server, s: Server, left: map<int, int>, current: Option<int>, ownerThread: bool, pass: nat,
                             first: set<int>, tried: set<int>)
  {
    && ClosedSoFar(before, s, left, current, ownerThread, pass)
    && (ownerThread ==> TableTried(before, s, left, current, pass))
    && (first == {} ==> TableLedger(before, s, tried, ownerThread))
    && (left.Keys == before.connections.Keys ==> tried == first)
  }

  lemma TableStarts(s: Server, current: Option<int>, ownerThread: bool, pass: nat, tried: set<int>)
    requires Sound(s, {}) && pass <= s.passes + 1
    ensures TableSoFar(s, s, s.connections, current, ownerThread, pass, tried, tried)
  {
    NoneClosed(s, current, ownerThread, pass);
    if tried == {} {
      RecordStarts(s, ownerThread);
    }
  }

  lemma TableEnds(before: Server, s: Server, left: map<int, int>, current: Option<int>, ownerThread: bool, pass: nat,
                  first: set<int>, tried: set<int>)
    requires TableSoFar(before, s, left, current, ownerThread, pass, first, tried) && left.Keys == {}
    ensures KeptIn(before, s, pass)
    ensures forall c | c in s.connections :: Stays(before, c, current, ownerThread)
    ensures CalmTable(before, s, current, ownerThread)
    ensures ownerThread ==> TableTried(before, s, map[], current, pass)
    ensures first == {} ==> TableLedger(before, s, tried, ownerThread)
    ensures before.connections.Keys == {} ==> s == before && tried == first
    ensures !ownerThread ==> SmoothlyClosed(before, s, current)
  {
    assert forall c :: c !in left;
    AllClosed(before, s, left, current, ownerThread, pass);
  }

  lemma TableOneMore(before: Server, from: Server, s: Server, left: map<int, int>, c: int, current: Option<int>,
                     ownerThread: bool, pass: nat, first: set<int>, tried0: set<int>, tried: set<int>)
    requires TableSoFar(before, from, left, current, ownerThread, pass, first, tried0) && c in left
    requires OneClosed(from, s, c, left[c], current, ownerThread, pass)
    requires OneTried(from, s, left[c], current, ownerThread, pass, tried0, tried)
    ensures TableSoFar(before, s, left - {c}, current, ownerThread, pass, first, tried)
  {
    assert before.connections[c] == left[c] && IsConnectionTask(before, left[c]);
    ClosedOneMore(before, from, s, left, c, current, ownerThread, pass);
    if ownerThread {
      TableTriedOneMore(before, from, s, left, c, current, pass);
    }
    if first == {} {
      LedgerOneMore(before, from, s, left[c], tried0, tried, ownerThread);
    }
    assert c in before.connections.Keys && c !in (left - {c}).Keys;
  }

  lemma TableTriedOneMore(a: Server, from: Server, s: Server, left: map<int, int>, c: int, current: Option<int>, pass: nat)
    requires TableTried(a, from, left, current, pass) && c in left && c in a.connections && left[c] == a.connections[c]
    requires Onward(from, s, {}) && (Some(left[c]) != current ==> PassTried(s, left[c], pass))
    ensures TableTried(a, s, left - {c}, current, pass)
  {
    forall x | x in a.connections && x !in left - {c}
      ensures Some(a.connections[x]) == current || PassTried(s, a.connections[x], pass)
    {
      assert x == c || x !in left;
      assert from.attempts[Attempt(pass, a.connections[x])] <= s.attempts[Attempt(pass, a.connections[x])];
    }
  }

  lemma TableStopped(a: Server, s: Server, tried: set<int>, current: Option<int>, pass: nat)
    requires Onward(a, s, {}) && InPass(s, pass, tried) && TableTried(a, s, map[], current, pass)
    ensures Stopped(a, s, current)
    ensures forall t | IsConnectionTask(a, t) :: t in tried || t in s.cancelledIds || Some(t) == current
  {
    forall t | IsConnectionTask(a, t)
      ensures t in tried || t in s.cancelledIds || Some(t) == current
      ensures Some(t) != current && t !in a.cancelledIds && Prompt(a, t) ==> t !in s.live
    {
      var c :| c in a.connections && a.connections[c] == t;
      assert Prompt(s, t) == Prompt(a, t);
    }
    forall c | c in a.connections ensures IsConnectionTask(a, a.connections[c]) {
    }
  }

  lemma TableSwept(a: Server, s: Server, tried: set<int>, current: Option<int>, pass: nat)
    requires Onward(a, s, {}) && InPass(s, pass, tried)
    requires a.pending == {} ==> TableLedger(a, s, tried, true) && TableTried(a, s, map[], current, pass)
    ensures a.pending == {} ==> Stopped(a, s, current)
    ensures OwnedLedger(a, s, tried, s.owned, current)
  {
    if a.pending == {} {
      TableStopped(a, s, tried, current, pass);
      RollStarts(a, s, tried, current);
    }
  }

  /**
   What a pass over a server that had not finished leaves: without a failing kernel call nothing retained, of
   the connections only its own and those asked to close gracefully, and for the owner no task untried
   (`PassEnded`); no surprise while the tasks are calm (`PassCalm`); how often tasks were tried (`PassCounts`);
   and in simple cases the whole state (`PassKnown`).
   */
  ghost predicate PassLeaves(a: Server, b: Server, current: Option<int>, ownerThread: bool)
  {
    exists pass: nat :: pass == a.passes + 1 && PassLeavesIn(a, b, current, ownerThread, pass)
  }

  ghost predicate PassLeavesIn(a: Server, b: Server, current: Option<int>, ownerThread: bool, pass: nat)
  {
    && Concluded(b) && PassEnded(a, b, current, ownerThread, pass)
    && PassCalm(a, b, current, ownerThread) && PassCounts(a, b, current, ownerThread) && PassKnown(a, b, current, ownerThread)
  }

  ghost predicate Concluded(s: Server)
  {
    NoLostWakeup(s) && s.closeRequested && s.attempted && (s.finished <==> AllGone(s))
  }

  ghost predicate PassCalm(a: Server, b: Server, current: Option<int>, ownerThread: bool)
  {
    && (!b.finished ==> NotYet(a, b))
    && (Calm(a) ==> forall c | MustStay(a, c, current, ownerThread) :: c in b.connections)
    && CalmTries(a, b)
  }

  ghost predicate PassCounts(a: Server, b: Server, current: Option<int>, ownerThread: bool)
  {
    && PassTries(a, b, ownerThread)
    && (ownerThread && Undisturbed(a) ==> Stopped(a, b, current))
    && (ownerThread ==> CalledTwice(a, b, current))
  }

  ghost predicate PassKnown(a: Server, b: Server, current: Option<int>, ownerThread: bool)
  {
    && (ownerThread && Unused(a) && b.finished ==> Quiet(a, b))
    && (!ownerThread ==> forall c | Plain(a, c, current) :: b == PlainPass(a, c))
  }

  /** Nothing is pending, and the requests disturb nothing. */
  predicate Undisturbed(s: Server) { s.pending == {} && SocketsPlain(s) }

  /** While the tasks are calm: the requests try each handler they call off, and the loops of the pass any task once. */
  ghost predicate CalmTries(a: Server, b: Server)
  {
    Calm(a) && SocketsPlain(a) ==>
      forall x ::
        var called := if x in CalledOff(a) then 1 else 0;
        Asides(b, x) == Asides(a, x) + called && b.tries[x] <= a.tries[x] + 1 + called
  }

  /** While no kernel call fails: the bound for the owner's pass; the other one tries the handlers called off, and nobody else. */
  ghost predicate PassTries(a: Server, b: Server, ownerThread: bool)
  {
    Quiet(a, b) ==>
      if ownerThread then Regular(a) ==> TriesBounded(a, b)
      else a.pending == {} && SocketsPlain(a) ==> TriesExactly(a, b, CalledOff(a))
  }

  /** The owner's pass tries every handler it has called off once more. */
  ghost predicate CalledTwice(a: Server, b: Server, current: Option<int>)
  {
    SocketsPlain(a) ==>
      forall x | x in CalledOff(a) && x in a.owned && SocketTask(a, x) && x !in a.cancelledIds && Some(x) != current ::
        b.tries[x] >= a.tries[x] + 2
  }

  /** The pass behind its requests. */
  ghost predicate RestOfPass(a: Server, b: Server, current: Option<int>, ownerThread: bool, pass: nat)
  {
    && Sound(b, {}) && Onward(a, b, {}) && Earlier(a, b, pass) && Concluded(b) && PassEnded(a, b, current, ownerThread, pass)
    && RestCalm(a, b, current, ownerThread) && RestCounts(a, b, current, ownerThread) && RestKnown(a, b, current, ownerThread)
  }

  ghost predicate RestCalm(a: Server, b: Server, current: Option<int>, ownerThread: bool)
  {
    && (!b.finished ==> NotYet(a, b))
    && (Calm(a) ==> forall c | MustStay(a, c, current, ownerThread) :: c in b.connections)
    && (Calm(a) ==> forall x :: Asides(b, x) == Asides(a, x) && b.tries[x] <= a.tries[x] + 1)
  }

  ghost predicate RestCounts(a: Server, b: Server, current: Option<int>, ownerThread: bool)
  {
    TriesSwept(a, b, ownerThread) && (ownerThread && a.pending == {} ==> Stopped(a, b, current))
  }

  ghost predicate RestKnown(a: Server, b: Server, current: Option<int>, ownerThread: bool)
  {
    && (ownerThread && Unused(a) && b.finished ==> Quiet(a, b))
    && (!ownerThread ==> forall c | a.closing == {} && Smooth(WakeupTried(a), c, current) :: b == PlainRest(a, c))
  }

  function PlainRest(s: Server, c: int): Server
  {
    Updated(ListenerTried(Closed(Popped(WakeupTried(s), c), c)))
  }

  /** A pass from the wakeup channel to its last step. */
  lemma PassComplete(before: Server, started: Server, swept: Server, end: Server, current: Option<int>, ownerThread: bool,
                     pass: nat)
    requires InPass(before, pass, {}) && SameTasks(before, started) && SameTasks(swept, end)
    requires KeptIn(before, started, pass) && (Quiet(before, started) ==> !started.wakeupOpen && started.closing == {})
    requires before.closing == {} ==> started == WakeupTried(before)
    requires Swept(started, swept, current, ownerThread, pass) && TriesSwept(started, swept, ownerThread)
    requires ownerThread ==> OwnedTried(swept, current, pass)
    requires ownerThread && started.pending == {} ==> Stopped(started, swept, current)
    requires ownerThread ==> exists tried :: TasksOnly(started, swept, tried)
    requires !ownerThread ==> SmoothlyClosed(started, swept, current)
    requires Kept(swept, end, {}, {}) && (Quiet(swept, end) ==> !end.listenerOpen)
    requires !end.finished ==> end.callbacks == swept.callbacks
    requires (end.finished <==> AllGone(end)) && end == Updated(ListenerTried(swept))
    ensures RestOfPass(before, end, current, ownerThread, pass)
  {
    ChainIn(before, started, swept, pass);
    Compose(before, swept, end, {});
    assert Calm(started) == Calm(before);
    PassIsDone(before, started, swept, end, current, ownerThread, pass);
    CalmPassTriesOnce(before, swept, end, pass);
    TriesOfPass(before, started, swept, end, current, ownerThread);
    PassEnds(before, started, swept, end, current, ownerThread);
  }

  /** Of an unused server, and of a server with one connection, the pass is known in every field. */
  lemma PassEnds(before: Server, started: Server, swept: Server, end: Server, current: Option<int>, ownerThread: bool)
    requires before.closing == {} ==> started == WakeupTried(before)
    requires ownerThread ==> exists tried :: TasksOnly(started, swept, tried)
    requires !ownerThread ==> SmoothlyClosed(started, swept, current)
    requires end == Updated(ListenerTried(swept))
    ensures ownerThread && Unused(before) && end.finished ==> Quiet(before, end)
    ensures !ownerThread ==> forall c | before.closing == {} && Smooth(WakeupTried(before), c, current) :: end == PlainRest(before, c)
  {
    if ownerThread && Unused(before) {
      var tried :| TasksOnly(started, swept, tried);
      UnusedPass(before, swept, end, tried);
    }
  }

  /** From before the requests. */
  lemma PassSince(before: Server, asked: Server, end: Server, current: Option<int>, ownerThread: bool, pass: nat)
    requires pass == before.passes + 1
    requires Sound(before, {}) && HasBegun(before, asked) && Kept(before, asked, {}, {}) && InPass(asked, pass, {})
    requires RestOfPass(asked, end, current, ownerThread, pass)
    ensures Kept(before, end, {}, {}) && NoLostWakeup(end) && PassLeaves(before, end, current, ownerThread)
  {
    RequestsMade(before, asked);
    SinceKept(before, asked, end, current, ownerThread);
    CalmSince(before, asked, end, current, ownerThread);
    CountsSince(before, asked, end, current, ownerThread);
    KnownSince(before, asked, end, current, ownerThread);
    assert PassLeavesIn(before, end, current, ownerThread, before.passes + 1);
  }

  /** What the requests of a pass come to, seen from before it. */
  ghost predicate Requested(a: Server, b: Server)
  {
    SocketsPlain(a) ==> CallsExactly(Began(a), b, CalledOff(a))
  }

  lemma RequestsMade(before: Server, asked: Server)
    requires HasBegun(before, asked)
    ensures Requested(before, asked) && AllAsked(asked)
  {
    var u := Began(before);
    AllHaveBeenAsked(u, asked);
    assert forall c :: Unasked(u, c) == Unasked(before, c);
    assert CalledOff(u) == CalledOff(before) && SocketsPlain(u) == SocketsPlain(before);
  }

  lemma SinceKept(before: Server, asked: Server, end: Server, current: Option<int>, ownerThread: bool)
    requires Kept(before, asked, {}, {}) && Sound(end, {}) && Onward(asked, end, {}) && Earlier(asked, end, before.passes + 1)
    requires PassEnded(asked, end, current, ownerThread, before.passes + 1)
    ensures Kept(before, end, {}, {}) && PassDone(before, end, current, ownerThread)
  {
    Compose(before, asked, end, {});
    assert OtherPasses(before, end);
    assert Quiet(before, end) ==> Quiet(asked, end);
    forall c | c in end.connections ensures Stays(before, c, current, ownerThread) {
      assert Stays(asked, c, current, ownerThread);
    }
  }

  lemma KnownSince(before: Server, asked: Server, end: Server, current: Option<int>, ownerThread: bool)
    requires before.ws == {} ==> asked == Began(before)
    requires RestKnown(asked, end, current, ownerThread)
    ensures PassKnown(before, end, current, ownerThread)
  {
  }

  lemma CountsSince(before: Server, asked: Server, end: Server, current: Option<int>, ownerThread: bool)
    requires Onward(before, asked, {}) && Onward(asked, end, {}) && InPass(asked, before.passes + 1, {})
    requires Requested(before, asked) && RestCounts(asked, end, current, ownerThread)
    requires ownerThread ==> OwnedTried(end, current, before.passes + 1)
    ensures PassCounts(before, end, current, ownerThread)
  {
    TriesSince(before, asked, end, ownerThread);
    if ownerThread {
      TwiceSince(before, asked, end, current);
      if Undisturbed(before) {
        StoppedSince(before, asked, end, current);
      }
    }
  }

  lemma CalmSince(before: Server, asked: Server, end: Server, current: Option<int>, ownerThread: bool)
    requires SameTable(Began(before), asked) && NotYet(Began(before), asked) && asked.live <= before.live
    requires asked.staff == before.staff && Requested(before, asked) && RestCalm(asked, end, current, ownerThread)
    ensures PassCalm(before, end, current, ownerThread)
  {
    assert Calm(before) ==> Calm(asked) && Calm(Began(before));
    if Calm(before) {
      forall c | MustStay(before, c, current, ownerThread) ensures c in end.connections {
        assert MustStay(asked, c, current, ownerThread);
      }
      if SocketsPlain(before) {
        assert forall x :: Asides(Began(before), x) == Asides(before, x);
      }
    }
  }

  lemma TriesSince(before: Server, asked: Server, end: Server, ownerThread: bool)
    requires Onward(before, asked, {}) && Onward(asked, end, {}) && AllAsked(asked)
    requires Requested(before, asked) && TriesSwept(asked, end, ownerThread)
    ensures PassTries(before, end, ownerThread)
  {
    if Quiet(before, end) && SocketsPlain(before) {
      QuietParts(before, asked, end);
      BeganCalls(before, asked);
      if ownerThread {
        if Regular(before) {
          RegularSince(before, asked);
          BoundedSince(before, asked, end);
        }
      }
    }
  }

  /** Beginning a pass changes nothing the requests look at. */
  lemma BeganCalls(before: Server, asked: Server)
    requires CallsExactly(Began(before), asked, CalledOff(before))
    ensures TriesExactly(before, asked, CalledOff(before))
    ensures asked.pending == before.pending && asked.connections == before.connections && asked.staff == before.staff
    ensures asked.cancelledIds == before.cancelledIds && asked.ws == before.ws
    ensures forall x | x in before.owned && (x in CalledOff(before) ==> !Disowns(before, x)) :: x in asked.owned
  {
  }

  lemma RegularSince(before: Server, asked: Server)
    requires Regular(before) && Onward(before, asked, {}) && AllAsked(asked) && asked.connections == before.connections
    requires asked.pending == {}
    ensures Regular(asked)
  {
    assert CalledOff(asked) == {};
    forall t | t in asked.live && Serves(asked, t)
      ensures ChildrenOf(asked, t) != {} ==> IsConnectionTask(asked, t)
      ensures forall x | x in ChildrenOf(asked, t) :: Simple(asked, x)
    {
      FewerChildren(before, asked, t);
      assert IsConnectionTask(before, t) == IsConnectionTask(asked, t);
    }
    forall t, u | t in asked.live && u in asked.live && Serves(asked, t) && Serves(asked, u) && t != u
      ensures ChildrenOf(asked, t) !! ChildrenOf(asked, u)
    {
      FewerChildren(before, asked, t);
      FewerChildren(before, asked, u);
      assert ChildrenOf(before, t) !! ChildrenOf(before, u);
    }
  }

  lemma BoundedSince(before: Server, asked: Server, end: Server)
    requires Regular(before) && TriesExactly(before, asked, CalledOff(before)) && AllAsked(asked)
    requires Onward(before, asked, {}) && TriesBounded(asked, end)
    ensures TriesBounded(before, end)
  {
    assert CalledOff(asked) == {};
    forall x | LingeringChild(asked, x) ensures LingeringChild(before, x) && x !in CalledOff(before) {
      var t :| ChildOf(asked, t, x);
      FewerChildren(before, asked, t);
      assert ChildOf(before, t, x);
      assert x in asked.staff.handlers;
      assert Prompt(asked, x) == Prompt(before, x);
    }
  }

  lemma TwiceSince(before: Server, asked: Server, end: Server, current: Option<int>)
    requires Onward(before, asked, {}) && InPass(asked, before.passes + 1, {}) && Onward(asked, end, {})
    requires Requested(before, asked) && OwnedTried(end, current, before.passes + 1)
    ensures CalledTwice(before, end, current)
  {
    if SocketsPlain(before) {
      BeganCalls(before, asked);
      forall x | x in CalledOff(before) && x in before.owned && SocketTask(before, x) && x !in before.cancelledIds
                 && Some(x) != current ensures end.tries[x] >= before.tries[x] + 2
      {
        assert asked.tries[x] == before.tries[x] + 1;
        TriedAgain(asked, end, x, current, before.passes + 1);
      }
    }
  }

  /** A WebSocket's task that is still owned is tried by its connection or by the owner's pass. */
  lemma TriedAgain(asked: Server, end: Server, x: int, current: Option<int>, pass: nat)
    requires InPass(asked, pass, {}) && Onward(asked, end, {}) && OwnedTried(end, current, pass)
    requires x in asked.owned && x !in asked.cancelledIds && Some(x) != current
    requires x in asked.staff.coordinated && !Disowns(asked, x) && Bare(asked, x) && !IsConnectionTask(asked, x)
    ensures end.tries[x] > asked.tries[x]
  {
    CountedAlways(asked, end, x);
    if x in end.owned && x !in end.cancelledIds {
      assert end.attempts[Attempt(pass, x)] > 0 && asked.attempts[Attempt(pass, x)] == 0;
    }
  }

  lemma StoppedSince(before: Server, asked: Server, end: Server, current: Option<int>)
    requires Undisturbed(before) && CallsExactly(Began(before), asked, CalledOff(before))
    requires asked.pending == {} ==> Stopped(asked, end, current)
    ensures Stopped(before, end, current)
  {
    BeganCalls(before, asked);
    assert forall t :: Prompt(asked, t) == Prompt(before, t);
  }

  lemma NothingCalled(s: Server)
    requires Sound(s, {}) && s.finished
    ensures CalledOff(s) == {} && CalmTries(s, s) && PassTries(s, s, true) && PassTries(s, s, false)
  {
    assert s.ws == {};
  }

  /** What the tries of a pass behind its requests come to while no kernel call fails. */
  ghost predicate TriesSwept(a: Server, b: Server, ownerThread: bool)
  {
    Quiet(a, b) ==>
      if ownerThread then Regular(a) && AllAsked(a) ==> TriesBounded(a, b) else a.pending == {} ==> Untouched(a, b)
  }

  lemma TriesOfPass(before: Server, started: Server, swept: Server, end: Server, current: Option<int>, ownerThread: bool)
    requires SameTasks(before, started) && SameTasks(swept, end)
    requires Onward(before, started, {}) && Onward(started, swept, {}) && Onward(swept, end, {})
    requires TriesSwept(started, swept, ownerThread)
    requires ownerThread && started.pending == {} ==> Stopped(started, swept, current)
    ensures ownerThread && before.pending == {} ==> Stopped(before, end, current)
    ensures TriesSwept(before, end, ownerThread)
  {
    assert forall t :: Prompt(started, t) == Prompt(before, t);
    if Quiet(before, end) {
      Compose(started, swept, end, {});
      QuietParts(before, started, end);
      QuietParts(started, swept, end);
      SameRegular(before, started);
    }
  }

  lemma SameRegular(a: Server, b: Server)
    requires SameTasks(a, b) && b.staff == a.staff && b.cursor == a.cursor
    ensures Regular(b) == Regular(a) && CalledOff(b) == CalledOff(a)
    ensures forall x :: LingeringChild(b, x) == LingeringChild(a, x)
  {
    assert forall t :: ChildrenOf(b, t) == ChildrenOf(a, t) && Serves(b, t) == Serves(a, t);
    assert forall t :: IsConnectionTask(b, t) == IsConnectionTask(a, t);
    assert forall x :: Simple(b, x) == Simple(a, x);
    assert forall c :: Unasked(b, c) == Unasked(a, c);
    assert CalledOff(b) == CalledOff(a);
    assert SocketsPlain(b) == SocketsPlain(a);
    assert forall x :: Lingers(b, x) == Lingers(a, x);
    assert forall t, x :: ChildOf(b, t, x) == ChildOf(a, t, x);
  }

  /** What a cancellation leaves, by what the runtime made of it. */
  lemma CancelLeaves(before: Server, ran: Server, end: Server, t: int, pass: nat)
    requires var tried := Tried(before, t, pass);
             && Onward(tried, ran, {}) && Sound(ran, {}) && end == Settled(ran, t) && Asks(tried, ran, t)
             && (Plainly(tried, t) ==> ran == tried || (t in tried.live && ran == LeftTable(tried, t)))
             && (Prompt(tried, t) ==> t !in ran.live)
    ensures Plainly(before, t) ==> PlainlyCancelled(before, end, t, pass)
    ensures Prompt(before, t) ==> t !in end.live
    ensures Neat(before, t) && Quiet(before, end) ==> Cancelled(before, end, t)
  {
    assert Prompt(Tried(before, t, pass), t) == Prompt(before, t);
    if Plainly(before, t) {
      SettledPlainly(before, ran, end, t, pass);
    }
    if Neat(before, t) && Quiet(before, end) {
      SettledQuietly(Tried(before, t, pass), ran, t);
      CancelledNeatly(before, ran, end, t, pass);
    }
  }

  lemma SettledQuietly(tried: Server, ran: Server, t: int)
    requires Onward(tried, ran, {}) && Quiet(tried, Settled(ran, t))
    ensures Quiet(tried, ran)
  {
  }

  lemma CancelledNeatly(before: Server, ran: Server, end: Server, t: int, pass: nat)
    requires Neat(before, t) && Asks(Tried(before, t, pass), ran, t) && end == Settled(ran, t)
    requires Quiet(before, ran)
    ensures Cancelled(before, end, t)
  {
    var tried := Tried(before, t, pass);
    assert Kids(tried, t) == Kids(before, t);
    assert forall x :: Simple(tried, x) == Simple(before, x);
    TaskCancelled(before, ran, end, t, pass);
  }

  /** What the runtime has done to tasks, as long as no kernel call failed. */
  ghost predicate Asks(a: Server, b: Server, t: int)
  {
    Neat(a, t) && Quiet(a, b) ==> Asked(a, b, t)
  }

  /** The runtime has made the task run its `finally` block. */
  lemma Interrupted(before: Server, end: Server, t: int)
    requires Sound(before, {}) && Kept(Ending(before, t), end, {}, {})
    requires var begun := Ending(before, t);
             && (Bare(begun, t) ==> end == if Disowns(begun, t) then Disowned(begun, t) else begun)
             && (Serves(begun, t) ==> CaredFor(begun, end, t))
             && (begun.pending == {} && AllAsked(begun) && AllSimple(begun, Kids(begun, t)) && Quiet(begun, end) ==>
                   Dismissed(begun, end, Kids(begun, t)))
    ensures Kept(before, end, {}, {}) && t !in end.live
    ensures Bare(before, t) ==> end == LeftTable(before, t)
    ensures t in before.live && Neat(before, t) && Quiet(before, end) ==> Dismissed(Ending(before, t), end, Kids(before, t))
  {
    EndedKept(before, end, t);
    NeatEnding(before, t);
    if Bare(before, t) {
      LeftTableForm(before, t);
    }
  }

  lemma LeftTableForm(s: Server, t: int)
    ensures var begun := Ending(s, t);
            LeftTable(s, t) == if Disowns(begun, t) then Disowned(begun, t) else begun
  {
  }

  lemma NeatEnding(s: Server, t: int)
    ensures ChildrenOf(Ending(s, t), t) == ChildrenOf(s, t) && Kids(Ending(s, t), t) == Kids(s, t)
    ensures AllSimple(s, Kids(s, t)) ==> AllSimple(Ending(s, t), Kids(s, t))
  {
    assert forall x :: Simple(Ending(s, t), x) == Simple(s, x);
  }

  /** From the first child to the last look at `finished`. */
  lemma ConnectionEnded(before: Server, childless: Server, detached: Server, end: Server, t: int)
    requires Kept(before, childless, {}, {}) && Kept(childless, detached, {}, {}) && Kept(detached, end, {}, {})
    requires ChildrenTried(before, childless, t) && detached == childless.(ws := detached.ws)
    requires forall x | ChildrenOf(before, t) == {x} && x !in before.live :: childless == ChildCancelled(before, x)
    requires DismissedSoFar(before, childless, ChildrenOf(before, t), {})
    requires Quiet(detached, end) ==> Untouched(detached, end)
    requires detached.finished ==> (end.finished <==> detached.pending == {})
    ensures Kept(before, end, {}, {}) && ChildrenTried(before, end, t)
    ensures Quiet(before, end) && before.pending == {} && AllSimple(before, ChildrenOf(before, t)) ==>
              Dismissed(before, end, ChildrenOf(before, t))
    ensures before.finished ==> forall x | ChildrenOf(before, t) == {x} && x !in before.live && Fails(before.tape) :: !end.finished
  {
    Chain(before, childless, detached, {}, {});
    Chain(before, detached, end, {}, {});
    TriedFurther(before, detached, end, t);
    if Quiet(before, end) {
      EndedQuietly(before, childless, detached, end, t);
    }
    if before.finished {
      forall x | ChildrenOf(before, t) == {x} && x !in before.live && Fails(before.tape) ensures !end.finished {
        FailedChild(before, x);
      }
    }
  }

  /** From before the WebSocket of the connection was asked to shut down. */
  lemma EndedSince(before: Server, asked: Server, end: Server, t: int)
    requires Kept(before, asked, {}, {}) && Kept(asked, end, {}, {}) && ChildrenTried(asked, end, t)
    ensures Kept(before, end, {}, {}) && CaredFor(before, end, t)
  {
    Chain(before, asked, end, {}, {});
    CaredSince(before, asked, end, t);
  }

  lemma FinishedIsAsked(s: Server, t: int)
    requires Sound(s, {}) && s.finished && t in s.staff.serves
    ensures SelfAsked(s, t)
  {
    assert s.ws == {};
  }

  lemma EndedQuietly(before: Server, childless: Server, detached: Server, end: Server, t: int)
    requires DismissedSoFar(before, childless, ChildrenOf(before, t), {})
    requires Onward(before, childless, {}) && Onward(childless, detached, {}) && Onward(detached, end, {})
    requires detached == childless.(ws := detached.ws) && (Quiet(detached, end) ==> Untouched(detached, end))
    requires Quiet(before, end)
    ensures before.pending == {} && AllSimple(before, ChildrenOf(before, t)) ==> Dismissed(before, end, ChildrenOf(before, t))
  {
    if before.pending == {} && AllSimple(before, ChildrenOf(before, t)) {
      Compose(childless, detached, end, {});
      QuietParts(before, childless, end);
      QuietParts(childless, detached, end);
      assert ChildrenOf(before, t) - {} == ChildrenOf(before, t);
      DismissedFurther(before, childless, end, ChildrenOf(before, t));
    }
  }

  lemma CalmPassTriesOnce(before: Server, swept: Server, end: Server, pass: nat)
    requires TriedOnce(end) && pass > 0 && OwnAttempts(before, pass, {})
    requires Alone(before, swept, pass) && SameTasks(swept, end)
    ensures Calm(before) ==> forall x :: Asides(end, x) == Asides(before, x) && end.tries[x] <= before.tries[x] + 1
  {
    if Calm(before) {
      forall x ensures Asides(end, x) == Asides(before, x) && end.tries[x] <= before.tries[x] + 1 {
        assert Asides(swept, x) == Asides(before, x);
        assert end.attempts[Attempt(pass, x)] <= 1 && before.attempts[Attempt(pass, x)] == 0;
      }
    }
  }

  lemma PassUndisturbed(a: Server, b: Server, pass: nat, tried: set<int>)
    requires InPass(a, pass, tried) && Kept(a, b, {}, {}) && NotYet(a, b) && Alone(a, b, pass)
    ensures InPass(b, pass, tried) && KeptIn(a, b, pass)
  {
    assert OwnAttempts(b, pass, tried);
  }

  lemma SetupRetained(s: Server, c: int)
    requires Sound(s, {c}) && c in s.openStreams && c !in s.connections
    ensures Sound(s.(closing := s.closing + {c}, errors := s.errors + {StreamKey(c)}, failed := true, closeRequested := true), {})
  {
    var t := s.(closing := s.closing + {c}, errors := s.errors + {StreamKey(c)}, failed := true, closeRequested := true);
    assert Ownership(t, {});
    assert Reported(t);
    assert Notified(t);
  }

  /** A retained stream tried once more. */
  function StreamRetried(s: Server, c: int): Server
  {
    if Closes(s, c) then Closed(s, c)
    else
      var b := Answered(s);
      b.(errors := b.errors + {StreamKey(c)})
  }

  lemma StreamRetriedKept(s: Server, c: int)
    requires Sound(s, {}) && s.closeRequested
    ensures var t := StreamRetried(s, c);
            && Kept(s, t, {}, {}) && t.passes == s.passes && t.callbacks == s.callbacks && SameTasks(s, t)
            && (Quiet(s, t) ==> t.closing == s.closing - {c})
  {
    if Closes(s, c) {
      HoleInTable(s, c);
      ClosedKept(s, c);
      FromTable(s, Closed(s, c), c);
    } else {
      RetainedAgain(s, c);
    }
  }

  lemma RetainedAgain(s: Server, c: int)
    requires Sound(s, {}) && c in s.openStreams && Fails(s.tape) && s.closeRequested
    ensures var b := Answered(s);
            Kept(s, b.(errors := b.errors + {StreamKey(c)}), {}, {}) && !Quiet(s, b)
  {
    var b := Answered(s);
    ChannelKept(s, b.(errors := b.errors + {StreamKey(c)}));
    AnsweredKept(s);
  }

  /** What a pass leaves behind. */
  ghost predicate PassDone(a: Server, b: Server, current: Option<int>, ownerThread: bool)
  {
    PassEnded(a, b, current, ownerThread, a.passes + 1)
  }

  ghost predicate PassEnded(a: Server, b: Server, current: Option<int>, ownerThread: bool, pass: nat)
  {
    && (Quiet(a, b) ==> !b.wakeupOpen && !b.listenerOpen && b.closing == {} && b.pending == {})
    && (forall c | c in b.connections :: Stays(a, c, current, ownerThread))
    && (ownerThread ==> OwnedTried(b, current, pass))
  }

  /** Without a failing kernel call and a live WebSocket, the owner's pass releases everything. */
  lemma AllReleased(a: Server, b: Server)
    requires Onward(a, b, {}) && PassDone(a, b, None, true) && Quiet(a, b) && a.ws == {} && b.closeRequested
    ensures AllGone(b)
  {
    assert forall c :: c !in b.connections;
    assert b.connections == map[];
  }
}
