/**
 Retryable ownership of kernel resources outside a running server: `_CleanupTransaction`, the errors that
 carry one, and the rollback of half-finished acquisitions in the transport.
 */
module CleanupTransactions {
  import opened Answers
  import opened Decimals

  datatype Resource = ListenerSocket | WakeupPipe | AcceptedStream(id: int)

  /** A call that may raise; the tasks of a startup are numbers. */
  datatype Call =
    | CheckKernel
    | ResolveAddress
    | Open(r: Resource)
    | ReuseAddress
    | Bind
    | Listen
    | NonBlocking
    | PeerAddress
    | ValidateWakeup
    | MakeHandle
    | MakeTask(task: int)
    | ForkTasks(tasks: set<int>)

  /** The kernel: its answers to come, what is open, and the calls that went through. */
  class Kernel {
    var tape: seq<bool>
    var open: set<Resource>
    var made: seq<Call>

    constructor (tape: seq<bool>)
      ensures this.tape == tape && open == {} && made == []
    {
      this.tape, open, made := tape, {}, [];
    }

    method Answer() returns (ok: bool)
      modifies `tape
      ensures ok == !Fails(old(tape)) && tape == Rest(old(tape))
      ensures Failing(old(tape)) == Failing(tape) + if ok then 0 else 1
    {
      ok := tape == [] || !tape[0];
      tape := if tape == [] then [] else tape[1..];
    }

    /** Any call but those that open or close. */
    method Do(call: Call) returns (ok: bool)
      modifies `tape, `made
      ensures ok == !Fails(old(tape)) && tape == Rest(old(tape))
      ensures Failing(old(tape)) == Failing(tape) + if ok then 0 else 1
      ensures made == if ok then old(made) + [call] else old(made)
    {
      ok := Answer();
      if ok {
        made := made + [call];
      }
    }

    method Acquire(r: Resource) returns (ok: bool)
      modifies this
      ensures Failing(old(tape)) == Failing(tape) + if ok then 0 else 1
      ensures open == if ok then old(open) + {r} else old(open)
      ensures made == if ok then old(made) + [Open(r)] else old(made)
    {
      ok := Do(Open(r));
      if ok {
        open := open + {r};
      }
    }

    /** `close`: nothing to do for a closed resource; an open one is closed unless the kernel raises. */
    method Close(r: Resource) returns (ok: bool)
      modifies `tape, `open
      ensures ok <==> r !in open
      ensures open == if ok then old(open) - {r} else old(open)
      ensures Failing(old(tape)) == Failing(tape) + if ok then 0 else 1
    {
      if r !in open { return true; }
      ok := Answer();
      if ok {
        open := open - {r};
      }
    }
  }

  /** So many of these calls were made in their order, the last one not included unless all were. */
  predicate Reached(before: seq<Call>, after: seq<Call>, calls: seq<Call>, all: bool)
  {
    && before <= after && after[|before|..] <= calls
    && (all <==> after == before + calls)
  }

  datatype Action = Action(name: string, resource: Resource)

  function Names(actions: seq<Action>): set<string> { set a | a in actions :: a.name }

  function Resources(actions: seq<Action>): set<Resource> { set a | a in actions :: a.resource }

  ghost predicate Distinct(actions: seq<Action>)
  {
    forall i, j | 0 <= i < j < |actions| ::
      actions[i].name != actions[j].name && actions[i].resource != actions[j].resource
  }

  lemma OneMoreAction(actions: seq<Action>, key: string, r: Resource)
    requires Distinct(actions) && key !in Names(actions) && r !in Resources(actions)
    ensures Distinct(actions + [Action(key, r)]) && Names(actions + [Action(key, r)]) == Names(actions) + {key}
  {
    forall i | 0 <= i < |actions| ensures actions[i].name != key && actions[i].resource != r {
      assert actions[i].name in Names(actions) && actions[i].resource in Resources(actions);
    }
  }

  /** The actions whose resource is still open, in order. */
  function StillOpen(actions: seq<Action>, open: set<Resource>): seq<Action>
  {
    if actions == [] then []
    else
      var a := actions[|actions| - 1];
      StillOpen(actions[..|actions| - 1], open) + if a.resource in open then [a] else []
  }

  lemma {:induction false} StillOpenMembers(actions: seq<Action>, open: set<Resource>)
    ensures forall a :: a in StillOpen(actions, open) <==> a in actions && a.resource in open
  {
    if actions != [] {
      var n := |actions| - 1;
      StillOpenMembers(actions[..n], open);
      assert forall a :: a in actions <==> a in actions[..n] || a == actions[n];
    }
  }

  /** The k-th alternative for a name already taken. */
  function Suffixed(name: string, k: nat): string { name + ":" + Decimal(k) }

  lemma SuffixesDiffer(name: string, j: nat, k: nat)
    requires Suffixed(name, j) == Suffixed(name, k)
    ensures j == k
  {
    assert Suffixed(name, j)[|name| + 1..] == Decimal(j);
    assert Suffixed(name, k)[|name| + 1..] == Decimal(k);
    DecimalReadsBack(j);
    DecimalReadsBack(k);
  }

  lemma LaterNamesDiffer(name: string, j: nat)
    ensures forall k: nat | k > j :: Suffixed(name, k) != Suffixed(name, j)
  {
    forall k: nat | k > j ensures Suffixed(name, k) != Suffixed(name, j) {
      if Suffixed(name, k) == Suffixed(name, j) {
        SuffixesDiffer(name, j, k);
      }
    }
  }

  class CleanupTransaction {
    var actions: seq<Action>
    var errors: set<string>

    constructor ()
      ensures actions == [] && errors == {} && Valid()
    {
      actions, errors := [], {};
    }

    /** Names and resources are distinct, and every action still owned has its last error. */
    ghost predicate Valid()
      reads this
    {
      Distinct(actions) && errors == Names(actions)
    }

    predicate Complete()
      reads this
    {
      actions == []
    }

    /** `add`: no action is ever overwritten; a taken name gets the first free number behind it. */
    method Add(name: string, resource: Resource)
      requires Valid() && resource !in Resources(actions)
      modifies this
      ensures Valid()
      ensures exists key :: actions == old(actions) + [Action(key, resource)] && key !in Names(old(actions))
                            && (name !in Names(old(actions)) ==> key == name)
    {
      var key := FreeName(name);
      OneMoreAction(actions, key, resource);
      actions := actions + [Action(key, resource)];
      errors := errors + {key};
    }

    method FreeName(name: string) returns (key: string)
      ensures key !in Names(actions) && (name !in Names(actions) ==> key == name)
    {
      key := name;
      var suffix := 2;
      ghost var tried: set<string> := {};
      while key in Names(actions)
        invariant suffix >= 2 && tried <= Names(actions) && key !in tried
        invariant if suffix == 2 then key == name && tried == {} else key == Suffixed(name, suffix - 1) && name in tried
        invariant forall k: nat | k >= suffix :: Suffixed(name, k) !in tried && Suffixed(name, k) != key
        decreases Names(actions) - tried
      {
        tried := tried + {key};
        key := Suffixed(name, suffix);
        suffix := suffix + 1;
        LaterNamesDiffer(name, suffix - 1);
      }
    }

    /** `retry`: what can be closed now is; exactly the rest stays owned, each with its error. */
    method Retry(kernel: Kernel)
      requires Valid()
      modifies this, kernel`tape, kernel`open
      ensures Valid() && kernel.open <= old(kernel.open)
      ensures actions == StillOpen(old(actions), kernel.open)
      ensures old(kernel.open) - kernel.open <= Resources(old(actions))
      ensures |actions| == Failing(old(kernel.tape)) - Failing(kernel.tape)
    {
      ghost var before := actions;
      var todo := actions;
      var kept: seq<Action> := [];
      for i := 0 to |todo|
        invariant kernel.open <= old(kernel.open) && old(kernel.open) - kernel.open <= Resources(todo[..i])
        invariant kept == StillOpen(todo[..i], kernel.open) && errors == Names(kept) + Names(todo[i..])
        invariant |kept| == Failing(old(kernel.tape)) - Failing(kernel.tape)
      {
        var a := todo[i];
        ghost var open := kernel.open;
        var ok := kernel.Close(a.resource);
        RetryStep(todo, i, kept, open, kernel.open);
        if ok {
          errors := errors - {a.name};
        } else {
          kept := kept + [a];
          errors := errors + {a.name};
        }
      }
      assert todo[..|todo|] == todo;
      actions := kept;
      StillOpenDistinct(before, kernel.open);
    }
  }

  /** What one turn of the retry loop needs to know. */
  lemma RetryStep(todo: seq<Action>, i: nat, kept: seq<Action>, before: set<Resource>, after: set<Resource>)
    requires Distinct(todo) && i < |todo| && kept == StillOpen(todo[..i], before)
    requires after == before || after == before - {todo[i].resource}
    ensures StillOpen(todo[..i + 1], after) == kept + if todo[i].resource in after then [todo[i]] else []
    ensures Resources(todo[..i + 1]) == Resources(todo[..i]) + {todo[i].resource}
    ensures todo[i].name !in Names(kept) && todo[i].name !in Names(todo[i + 1..])
    ensures Names(todo[i..]) == {todo[i].name} + Names(todo[i + 1..])
    ensures Names(kept + [todo[i]]) == Names(kept) + {todo[i].name}
  {
    assert todo[..i + 1][..i] == todo[..i] && todo[..i + 1][i] == todo[i];
    OthersUnmoved(todo, i, before, after);
    StillOpenMembers(todo[..i], before);
    TailNames(todo, i, kept);
  }

  /** Closing one action's resource leaves the verdict on the others as it was. */
  lemma OthersUnmoved(actions: seq<Action>, i: nat, before: set<Resource>, after: set<Resource>)
    requires Distinct(actions) && i < |actions| && after <= before && before - after <= {actions[i].resource}
    ensures StillOpen(actions[..i], after) == StillOpen(actions[..i], before)
  {
    UpTo(actions, i, i, before, after);
  }

  lemma {:induction false} UpTo(actions: seq<Action>, i: nat, k: nat, before: set<Resource>, after: set<Resource>)
    requires Distinct(actions) && k <= i < |actions| && after <= before && before - after <= {actions[i].resource}
    ensures StillOpen(actions[..k], after) == StillOpen(actions[..k], before)
  {
    if k > 0 {
      UpTo(actions, i, k - 1, before, after);
      assert actions[..k][..k - 1] == actions[..k - 1];
      var r := actions[k - 1].resource;
      assert r != actions[i].resource;
      assert r in before ==> r in after || r in before - after;
    }
  }

  /** An action's name is neither among those kept before it nor among those behind it. */
  lemma TailNames(todo: seq<Action>, i: nat, kept: seq<Action>)
    requires Distinct(todo) && i < |todo| && forall a | a in kept :: a in todo[..i]
    ensures todo[i].name !in Names(kept) && todo[i].name !in Names(todo[i + 1..])
    ensures Names(todo[i..]) == {todo[i].name} + Names(todo[i + 1..])
  {
    forall a | a in kept ensures a.name != todo[i].name {
      var k :| 0 <= k < i && todo[k] == a;
    }
    forall a | a in todo[i + 1..] ensures a.name != todo[i].name {
      var k :| i < k < |todo| && todo[k] == a;
    }
    assert todo[i..] == [todo[i]] + todo[i + 1..];
  }

  lemma {:induction false} StillOpenDistinct(actions: seq<Action>, open: set<Resource>)
    requires Distinct(actions)
    ensures Distinct(StillOpen(actions, open))
  {
    if actions != [] {
      var n := |actions| - 1;
      var rest := StillOpen(actions[..n], open);
      StillOpenDistinct(actions[..n], open);
      StillOpenMembers(actions[..n], open);
      forall a | a in rest ensures a.name != actions[n].name && a.resource != actions[n].resource {
        var k :| 0 <= k < n && actions[k] == a;
      }
      assert forall i | 0 <= i < |rest| :: rest[i] in rest;
    }
  }
}
