/** Acquiring kernel resources and sending through them (`KernelTransport`). */
module Transport {
  import opened Answers
  import opened Bytes
  import opened CleanupTransactions

  /** The outcome of an acquisition: it went through, it was rolled back, or the rollback is still owed. */
  datatype Acquired = Got | RolledBack | Owing(transaction: CleanupTransaction)

  /** No failed acquisition leaks: what is open is what was open before, plus what was got or is owed. */
  ghost predicate NothingLeaks(a: Acquired, r: Resource, before: set<Resource>, after: set<Resource>)
    reads if a.Owing? then {a.transaction} else {}
  {
    match a
    case Got => after == before + {r}
    case RolledBack => after == before
    case Owing(t) => t.Valid() && after == before + {r} && |t.actions| == 1 && t.actions[0].resource == r
  }

  /** An acquisition went through if none of its kernel calls failed, and was rolled back if one did; two failures leave a debt. */
  function Failures(a: Acquired): nat
  {
    if a.Got? then 0 else if a.RolledBack? then 1 else 2
  }

  /** A resource just opened is set up by these calls, in order, and closed again if one of them raises. */
  method SetUp(kernel: Kernel, r: Resource, name: string, calls: seq<Call>) returns (a: Acquired)
    requires r in kernel.open
    modifies kernel
    ensures a.Owing? ==> fresh(a.transaction)
    ensures NothingLeaks(a, r, old(kernel.open) - {r}, kernel.open)
    ensures Failing(old(kernel.tape)) == Failing(kernel.tape) + Failures(a)
    ensures Reached(old(kernel.made), kernel.made, calls, a.Got?)
  {
    var ok := true;
    var done := 0;
    while done < |calls| && ok
      invariant kernel.open == old(kernel.open) && done <= |calls|
      invariant Failing(old(kernel.tape)) == Failing(kernel.tape) + if ok then 0 else 1
      invariant if ok then kernel.made == old(kernel.made) + calls[..done] else Reached(old(kernel.made), kernel.made, calls, false)
      decreases |calls| - done, ok
    {
      ok := kernel.Do(calls[done]);
      done := done + 1;
      OneMoreCall(old(kernel.made), calls, done);
    }
    if ok {
      assert calls[..done] == calls;
      return Got;
    }
    var closed := kernel.Close(r);
    if closed { return RolledBack; }
    var t := new CleanupTransaction();
    t.Add(name, r);
    a := Owing(t);
  }

  lemma OneMoreCall(before: seq<Call>, calls: seq<Call>, done: nat)
    requires 0 < done <= |calls|
    ensures before + calls[..done - 1] + [calls[done - 1]] == before + calls[..done]
    ensures Reached(before, before + calls[..done - 1], calls, false)
  {
    assert (before + calls[..done - 1])[|before|..] == calls[..done - 1];
  }

  /** What makes a listener: its socket, then these settings. */
  const LISTENER_SETTINGS := [ReuseAddress, Bind, Listen, NonBlocking]

  const LISTENER_CALLS := [ResolveAddress, Open(ListenerSocket)] + LISTENER_SETTINGS

  const WAKEUP_CALLS := [Open(WakeupPipe), ValidateWakeup]

  function AcceptCalls(id: int): seq<Call> { [Open(AcceptedStream(id)), NonBlocking, PeerAddress] }

  /** Calls made one after the other. */
  lemma ReachedOn(before: seq<Call>, after: seq<Call>, first: seq<Call>, calls: seq<Call>, all: bool)
    requires Reached(before + first, after, calls, all)
    ensures Reached(before, after, first + calls, all)
  {
    assert after[|before|..] == first + after[|before + first|..];
    assert before + (first + calls) == before + first + calls;
    if after == before + (first + calls) {
      assert after == before + first + calls;
    }
  }

  /** Calls made before the last ones. */
  lemma ReachedPart(before: seq<Call>, after: seq<Call>, calls: seq<Call>, rest: seq<Call>)
    requires Reached(before, after, calls, false)
    ensures Reached(before, after, calls + rest, false)
  {
  }

  lemma ReachedNothing(before: seq<Call>, calls: seq<Call>)
    requires calls != []
    ensures Reached(before, before, calls, false)
  {
    assert |before + calls| > |before|;
  }

  /** `open_listener`: resolve, open, then reuse-address, bind, listen and non-blocking. */
  method OpenListener(kernel: Kernel) returns (a: Acquired)
    requires ListenerSocket !in kernel.open
    modifies kernel
    ensures a.Owing? ==> fresh(a.transaction)
    ensures NothingLeaks(a, ListenerSocket, old(kernel.open), kernel.open)
    ensures Failing(old(kernel.tape)) == Failing(kernel.tape) + Failures(a)
    ensures Reached(old(kernel.made), kernel.made, LISTENER_CALLS, a.Got?)
  {
    ghost var before := kernel.made;
    var resolved := kernel.Do(ResolveAddress);
    if !resolved {
      ReachedNothing(before, LISTENER_CALLS);
      return RolledBack;
    }
    ghost var begun := kernel.made;
    var ok := kernel.Acquire(ListenerSocket);
    if !ok {
      ReachedNothing(begun, LISTENER_CALLS[1..]);
      ReachedOn(before, begun, [ResolveAddress], LISTENER_CALLS[1..], false);
      return RolledBack;
    }
    a := SetUp(kernel, ListenerSocket, "listener", LISTENER_SETTINGS);
    assert before + [ResolveAddress] + [Open(ListenerSocket)] == before + [ResolveAddress, Open(ListenerSocket)];
    ReachedOn(before, kernel.made, [ResolveAddress, Open(ListenerSocket)], LISTENER_SETTINGS, a.Got?);
  }

  /** `create_wakeup_channel`: open, then validation of the channel. */
  method CreateWakeup(kernel: Kernel) returns (a: Acquired)
    requires WakeupPipe !in kernel.open
    modifies kernel
    ensures a.Owing? ==> fresh(a.transaction)
    ensures NothingLeaks(a, WakeupPipe, old(kernel.open), kernel.open)
    ensures Failing(old(kernel.tape)) == Failing(kernel.tape) + Failures(a)
    ensures Reached(old(kernel.made), kernel.made, WAKEUP_CALLS, a.Got?)
  {
    ghost var before := kernel.made;
    var ok := kernel.Acquire(WakeupPipe);
    if !ok {
      ReachedNothing(before, WAKEUP_CALLS);
      return RolledBack;
    }
    a := SetUp(kernel, WakeupPipe, "wakeup", [ValidateWakeup]);
    ReachedOn(before, kernel.made, [Open(WakeupPipe)], [ValidateWakeup], a.Got?);
  }

  /** `accept`, once the kernel has a stream to hand out: non-blocking and the peer's address. */
  method Accept(kernel: Kernel, id: int) returns (a: Acquired)
    requires AcceptedStream(id) !in kernel.open
    modifies kernel
    ensures a.Owing? ==> fresh(a.transaction)
    ensures NothingLeaks(a, AcceptedStream(id), old(kernel.open), kernel.open)
    ensures Failing(old(kernel.tape)) == Failing(kernel.tape) + Failures(a)
    ensures Reached(old(kernel.made), kernel.made, AcceptCalls(id), a.Got?)
  {
    ghost var before := kernel.made;
    var ok := kernel.Acquire(AcceptedStream(id));
    if !ok {
      ReachedNothing(before, AcceptCalls(id));
      return RolledBack;
    }
    a := SetUp(kernel, AcceptedStream(id), "accepted-connection", [NonBlocking, PeerAddress]);
    ReachedOn(before, kernel.made, [Open(AcceptedStream(id))], [NonBlocking, PeerAddress], a.Got?);
  }

  /** What one `socket_send` call does; Blocked where `_wait_for_retry` waits and the loop goes round again. */
  datatype SendAnswer = Took(count: int) | Blocked | Raises | NotAnInteger

  datatype SendOutcome = SentAll | SendFailed | Waiting

  /**
   `send_all`.  Whatever the kernel answers, the slices it took are the data in order from its start,
   without gap or repeat, and the call returns normally exactly when they are all of it.
   */
  method SendAll(data: bytes, answers: seq<SendAnswer>) returns (outcome: SendOutcome, taken: seq<bytes>)
    ensures Concat(taken) <= data
    ensures outcome == SentAll <==> Concat(taken) == data
    ensures forall slice | slice in taken :: slice != []
    ensures outcome == Waiting ==> forall a | a in answers :: a == Blocked || (a.Took? && a.count > 0)
  {
    var offset := 0;
    taken := [];
    var i := 0;
    while offset < |data|
      invariant 0 <= offset <= |data| && Concat(taken) == data[..offset] && i <= |answers|
      invariant forall slice | slice in taken :: slice != []
      invariant forall k | 0 <= k < i :: answers[k] == Blocked || (answers[k].Took? && answers[k].count > 0)
      decreases |answers| - i
    {
      if i == |answers| { return Waiting, taken; }
      var answer := answers[i];
      i := i + 1;
      if answer == Blocked { continue; }
      if !answer.Took? || answer.count <= 0 || answer.count > |data| - offset {
        return SendFailed, taken;
      }
      ConcatSnoc(taken, data[offset..offset + answer.count]);
      taken := taken + [data[offset..offset + answer.count]];
      offset := offset + answer.count;
    }
    outcome := SentAll;
  }
}
