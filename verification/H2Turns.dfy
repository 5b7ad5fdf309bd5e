/** The turns of a flush: every stream that is waiting has one, and no turn takes the output over its limit. */
module H2Turns {
  import opened Bytes
  import opened Optional
  import opened FrameBudgetSplitter
  import opened H2State
  import opened H2Invariant
  import opened H2Safety
  import opened H2Operations
  import opened H2Sending
  import opened H2Runs
  import opened H2Progress

  /** DATA of the stream went out behind the first `from` entries of the log. */
  predicate SentSince(log: seq<Entry>, from: nat, id: int)
  {
    exists i :: from <= i < |log| && log[i].DidData? && log[i].id == id
  }

  /** The stream has sent, is off the table, or flow control holds it back. */
  ghost predicate HadItsTurn<E>(ops: Ops<E>, s: H2<E>, from: nat, id: int)
  {
    SentSince(s.log, from, id) || Held(ops, s, id)
  }

  lemma TurnLogs<E>(ops: Ops<E>, cfg: Config, f: Flushed<E>, o: Outbound)
    ensures var r := FlushStream(ops, cfg, f, o);
            r.Ok? ==> f.s.log <= r.s.s.log && (r.s.output != f.output ==> SentSince(r.s.s.log, |f.s.log|, o.id))
  {
    var r := FlushStream(ops, cfg, f, o);
    if r.Ok? && r.s.output != f.output {
      var i := |f.s.log|;
      assert r.s.s.log[i].DidData? && r.s.s.log[i].id == o.id;
    }
  }

  /** A turn once had stays had. */
  lemma TurnStays<E>(ops: Ops<E>, s: H2<E>, t: H2<E>, from: nat, id: int)
    requires HadItsTurn(ops, s, from, id) && s.log <= t.log && (Held(ops, s, id) ==> Held(ops, t, id))
    ensures HadItsTurn(ops, t, from, id)
  {
    if SentSince(s.log, from, id) {
      var i :| from <= i < |s.log| && s.log[i].DidData? && s.log[i].id == id;
      assert t.log[i] == s.log[i];
    }
  }

  lemma {:induction false} LoopTurns<E(!new)>(ops: Ops<E>, cfg: Config, f: Flushed<E>, g: Story, from: nat, todo: seq<Outbound>)
    requires Orderly(ops) && Inv(cfg, f.s, g) && from <= |f.s.log|
    requires DistinctOuts(todo) && forall o | o in todo :: o in f.s.outbound
    ensures var r := FlushStreams(ops, cfg, f, todo);
            r.Ok? ==> f.s.log <= r.s.s.log && Progress(ops, f, r.s) && forall o | o in todo :: HadItsTurn(ops, r.s.s, from, o.id)
    decreases |todo|
  {
    if todo != [] {
      StreamProgress(ops, cfg, f, g, todo[0]);
      TurnLogs(ops, cfg, f, todo[0]);
      FirstTurn(ops, cfg, f, g, todo);
      var r := FlushStream(ops, cfg, f, todo[0]);
      if r.Ok? {
        SinceEarlier(r.s.s.log, from, |f.s.log|, todo[0].id);
        assert HadItsTurn(ops, r.s.s, from, todo[0].id);
        LoopTurns(ops, cfg, r.s, g, from, todo[1..]);
        FirstAndRest(ops, cfg, f, r.s, from, todo);
      }
    }
  }

  lemma SinceEarlier(log: seq<Entry>, from: nat, later: nat, id: int)
    requires from <= later
    ensures SentSince(log, later, id) ==> SentSince(log, from, id)
  {
  }

  lemma FirstAndRest<E>(ops: Ops<E>, cfg: Config, f: Flushed<E>, r: Flushed<E>, from: nat, todo: seq<Outbound>)
    requires todo != [] && FlushStream(ops, cfg, f, todo[0]) == Ok(r) && f.s.log <= r.s.log
    requires Progress(ops, f, r) && HadItsTurn(ops, r.s, from, todo[0].id)
    requires var z := FlushStreams(ops, cfg, r, todo[1..]);
             z.Ok? ==> r.s.log <= z.s.s.log && Progress(ops, r, z.s) && forall o | o in todo[1..] :: HadItsTurn(ops, z.s.s, from, o.id)
    ensures var z := FlushStreams(ops, cfg, f, todo);
            z.Ok? ==> f.s.log <= z.s.s.log && Progress(ops, f, z.s) && forall o | o in todo :: HadItsTurn(ops, z.s.s, from, o.id)
  {
    var z := FlushStreams(ops, cfg, r, todo[1..]);
    if z.Ok? {
      ProgressComposes(ops, f, r, z.s);
      TurnStays(ops, r.s, z.s.s, from, todo[0].id);
      assert forall o | o in todo :: o == todo[0] || o in todo[1..];
    }
  }

  /** Every stream still on the table has had its turn. */
  ghost predicate AllHadTurns<E>(ops: Ops<E>, s: H2<E>, from: nat)
  {
    forall o | o in s.outbound :: SentSince(s.log, from, o.id) || Blocked(ops, s.conn, o.id)
  }

  lemma TableTurns<E(!new)>(ops: Ops<E>, cfg: Config, s: H2<E>, g: Story, from: nat)
    requires Orderly(ops) && Inv(cfg, s, g) && from <= |s.log|
    ensures var r := FlushTable(ops, cfg, s); r.Ok? ==> AllHadTurns(ops, r.s.s, from)
  {
    ClearControl(cfg, s, g);
    var f := Flushed(s.(control := []), s.control);
    LoopTurns(ops, cfg, f, g, from, s.outbound);
    var r := FlushStreams(ops, cfg, f, s.outbound);
    if r.Ok? {
      TurnsOfTable(ops, s.outbound, r.s.s, from);
      FinishTurns(ops, cfg, r.s, from);
    }
  }

  lemma TurnsOfTable<E>(ops: Ops<E>, before: seq<Outbound>, t: H2<E>, from: nat)
    requires OutIds(t.outbound) <= OutIds(before)
    requires forall o | o in before :: HadItsTurn(ops, t, from, o.id)
    ensures AllHadTurns(ops, t, from)
  {
    forall o | o in t.outbound ensures SentSince(t.log, from, o.id) || Blocked(ops, t.conn, o.id) {
      assert o.id in OutIds(t.outbound);
      var q :| q in before && q.id == o.id;
      assert HadItsTurn(ops, t, from, q.id);
    }
  }

  lemma FinishTurns<E(!new)>(ops: Ops<E>, cfg: Config, f: Flushed<E>, from: nat)
    requires Orderly(ops) && AllHadTurns(ops, f.s, from)
    ensures var r := FinishFlush(ops, cfg, f); r.Ok? ==> AllHadTurns(ops, r.s.s, from)
  {
  }

  lemma CommandLogs<E>(ops: Ops<E>, cfg: Config, s: H2<E>, c: Command)
    ensures |s.log| <= |RunCommand(ops, cfg, s, c).s.log|
  {
  }

  lemma {:induction false} CommandsLog<E>(ops: Ops<E>, cfg: Config, s: H2<E>, commands: seq<Command>)
    ensures |s.log| <= |RunCommands(ops, cfg, s, commands).s.log|
    decreases |commands|
  {
    if commands != [] {
      CommandLogs(ops, cfg, s, commands[0]);
      var t := RunCommand(ops, cfg, s, commands[0]);
      if t.Ok? {
        CommandsLog(ops, cfg, t.s, commands[1..]);
      }
    }
  }

  /**
   From any connection a run can reach, a flush that returns has given every stream its turn, those it has just started
   included: each one still on the table has sent DATA in this very flush, or its flow-control window is used up.
   No stream waits for another to finish.
   */
  lemma EveryStreamHasItsTurn<E(!new)>(ops: Ops<E>, cfg: Config, conn: E, steps: seq<Step>)
    requires Lawful(ops) && Orderly(ops) && ValidConfig(cfg) && Newborn(ops, conn)
    requires !Run(ops, cfg, Start(conn), steps).raised
    ensures var s := Run(ops, cfg, Start(conn), steps).h;
            var r := Flush(ops, cfg, s);
            r.Ok? ==> AllHadTurns(ops, r.s.s, |s.log|)
  {
    var g := FromStart(ops, cfg, conn, steps);
    var s := Run(ops, cfg, Start(conn), steps).h;
    var u := s.(commands := []);
    assert WithTail(u, s.commands) == s;
    var tail := RunCommandsInv(ops, cfg, u, g, s.commands);
    CommandsLog(ops, cfg, u, s.commands);
    var t := RunCommands(ops, cfg, u, s.commands);
    if t.Ok? {
      assert WithTail(t.s, []) == t.s;
      TableTurns(ops, cfg, t.s, g, |s.log|);
    }
  }

  // ---------------------------------------------------------------- the limit at every turn

  /** The output gathered so far and the bytes still pending are within the limit. */
  predicate Within<E>(cfg: Config, f: Flushed<E>)
  {
    |f.output| + f.s.pending <= cfg.maxPendingOutput
  }

  lemma DropWithin<E>(s: H2<E>, conn: E, o: Outbound)
    requires Lookup(s.outbound, o.id) == Some(o) && o.offset < |o.body|
    ensures DropStream(s.(conn := conn), o.id).pending <= s.pending
  {
  }

  lemma TurnWithin<E>(ops: Ops<E>, cfg: Config, f: Flushed<E>, g: Story, o: Outbound)
    requires Inv(cfg, f.s, g) && o in f.s.outbound && Within(cfg, f)
    ensures var r := FlushStream(ops, cfg, f, o); r.Ok? ==> Within(cfg, r.s)
  {
    TheEntry(f.s.outbound, o);
    var window := ops.window(f.s.conn, o.id);
    if window == None {
      DropWithin(f.s, f.s.conn, o);
    } else {
      var n := ChunkSize(o, window.value, ops.frameSize(f.s.conn));
      if n > 0 {
        DropWithin(f.s, ops.sendData(f.s.conn, o.id, o.body[o.offset..o.offset + n], n == Remaining(o)).0, o);
      }
    }
  }

  lemma {:induction false} LoopWithin<E>(ops: Ops<E>, cfg: Config, f: Flushed<E>, g: Story, todo: seq<Outbound>)
    requires Inv(cfg, f.s, g) && DistinctOuts(todo) && (forall o | o in todo :: o in f.s.outbound) && Within(cfg, f)
    ensures var r := FlushStreams(ops, cfg, f, todo); r.Ok? ==> Within(cfg, r.s)
    decreases |todo|
  {
    if todo != [] {
      TurnWithin(ops, cfg, f, g, todo[0]);
      FirstTurn(ops, cfg, f, g, todo);
      var r := FlushStream(ops, cfg, f, todo[0]);
      if r.Ok? {
        LoopWithin(ops, cfg, r.s, g, todo[1..]);
      }
    }
  }

  /**
   From any connection a run can reach: after every turn of a flush, not only after the last one, what was gathered
   for the transport and what is still pending are together within the limit.
   */
  lemma EveryTurnIsWithinLimits<E(!new)>(ops: Ops<E>, cfg: Config, conn: E, steps: seq<Step>, turns: nat)
    requires Lawful(ops) && ValidConfig(cfg) && Newborn(ops, conn) && !Run(ops, cfg, Start(conn), steps).raised
    ensures var s := Run(ops, cfg, Start(conn), steps).h;
            var t := RunCommands(ops, cfg, s.(commands := []), s.commands);
            t.Ok? && turns <= |t.s.outbound| ==>
              var r := FlushStreams(ops, cfg, Flushed(t.s.(control := []), t.s.control), t.s.outbound[..turns]);
              r.Ok? ==> Within(cfg, r.s)
  {
    var g := FromStart(ops, cfg, conn, steps);
    var s := Run(ops, cfg, Start(conn), steps).h;
    var u := s.(commands := []);
    assert WithTail(u, s.commands) == s;
    var tail := RunCommandsInv(ops, cfg, u, g, s.commands);
    var t := RunCommands(ops, cfg, u, s.commands);
    if t.Ok? && turns <= |t.s.outbound| {
      assert WithTail(t.s, []) == t.s;
      TurnsWithin(ops, cfg, t.s, g, turns);
    }
  }

  lemma TurnsWithin<E>(ops: Ops<E>, cfg: Config, s: H2<E>, g: Story, turns: nat)
    requires Inv(cfg, s, g) && turns <= |s.outbound|
    ensures var r := FlushStreams(ops, cfg, Flushed(s.(control := []), s.control), s.outbound[..turns]);
            r.Ok? ==> Within(cfg, r.s)
  {
    ClearControl(cfg, s, g);
    var todo := s.outbound[..turns];
    assert forall o | o in todo :: o in s.outbound;
    LoopWithin(ops, cfg, Flushed(s.(control := []), s.control), g, todo);
  }
}
