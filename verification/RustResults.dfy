/** What the Rust server answers to each command, told from the table before and after and from the record. */
module RustResults {
  import opened Protocol
  import opened StreamRelay
  import opened RustServer
  import opened RustRecord
  import opened RustMoves
  import opened RustWorld
  import opened RustRuns
  import opened RustStreams
  import opened RustIsolation
  import opened RustTheorems
  import opened RustAnswers
  import opened RustExits
  import opened RustSteps

  predicate RunsUnder(s: Server, n: Name) {
    n in s.procs && s.procs[n].status == Running
  }

  /** A row of a listing says what is known of the entry: its pid while not reaped, and the code of its child's one reap. */
  ghost predicate RightRow(e: Entry, tr: seq<Event>, row: ProcInfo) {
    && row.pid == (if Reaps(e.child, tr) == [] then e.pid else 0)
    && row.status == e.status
    && row.exitCode == CodeOf(Reaps(e.child, tr))
    && row.buffered == |e.buffer|
    && row.subscribed == e.subscribed
    && (row.idle <==> e.lastStdout >= e.lastStdin)
  }

  /** A spawn tells the pid of the process that already runs, of the one it has put into the table, or why there is none. */
  ghost predicate RightSpawn(s: Server, s': Server, n: Name, env: Env, r: ResultMsg) {
    if RunsUnder(s, n) then
      s'.procs == s.procs && r == Ok(n).(pid := Some(s.procs[n].pid), alreadyRunning := Some(true))
    else if RunsUnder(s', n) then
      s'.procs[n].child == s.spawns && env.spawn == Started(s'.procs[n].pid) && r == Ok(n).(pid := Some(s'.procs[n].pid))
    else
      n !in s'.procs && env.spawn.SpawnFailed? && r == Err(n, env.spawn.error)
  }

  /** An interrupt succeeds if and only if the name is held by a running process whose group is found and signalled. */
  ghost predicate RightInterrupt(s: Server, s': Server, n: Name, env: Env, r: ResultMsg) {
    && s'.procs == s.procs && r.name == n
    && (r.ok <==> RunsUnder(s, n) && env.pgid.None? && env.signal.None?)
    && r == if r.ok then Ok(n)
            else Err(n, if !RunsUnder(s, n) then "not running" else if env.pgid.Some? then env.pgid.value
                        else if env.signal.Some? then env.signal.value else "")
  }

  ghost predicate RightSubscribe(s: Server, tr: seq<Event>, n: Name, r: ResultMsg) {
    if n !in s.procs then r == Err(n, "not found")
    else
      var e := s.procs[n];
      r == Ok(n).(replayed := Some(|e.buffer|), status := Some(e.status), exitCode := CodeOf(Reaps(e.child, tr)),
                  idle := Some(e.lastStdout >= e.lastStdin))
  }

  /** The answer to a command is right about the table before and after, `tr` being the record before. */
  ghost predicate Right(s: Server, s': Server, tr: seq<Event>, cmd: CmdMsg, env: Env, r: ResultMsg)
  {
    match cmd.verb
    case Spawn => RightSpawn(s, s', cmd.name, env, r)
    case Kill => cmd.name !in s'.procs && r == (if cmd.name in s.procs then Ok(cmd.name) else Err(cmd.name, "not found"))
    case Interrupt => RightInterrupt(s, s', cmd.name, env, r)
    case Subscribe => RightSubscribe(s, tr, cmd.name, r)
    case Unsubscribe => r == if cmd.name in s.procs then Ok(cmd.name) else Err(cmd.name, "not found")
    case List =>
      && r.processes.Some? && r == Ok("").(processes := r.processes)
      && r.processes.value.Keys == s.procs.Keys
      && forall n :: n in s.procs ==> RightRow(s.procs[n], tr, r.processes.value[n])
    case Uptime => r == Ok("").(uptime := Some(env.uptime))
    case Unknown(text) => r == Err("", "unknown command: " + text)
  }

  /** The last event answers the command on the current connection, and is accepted when there was room. */
  ghost predicate AnswersRight(s: Server, e: Effect, tr: seq<Event>, cmd: CmdMsg, env: Env) {
    && e.events != []
    && var last := e.events[|e.events| - 1];
       && last.Answered? && last.conn == Peer(s) && last.cmd == cmd
       && (!cmd.verb.Subscribe? ==> (last.accepted <==> ChannelOpen(s)))
       && Right(s, e.server, tr, cmd, env, last.result)
  }

  ghost predicate KnownAll(s: Server, tr: seq<Event>) {
    forall n :: n in s.procs ==> Known(s.procs[n], Reaps(s.procs[n].child, tr))
  }

  lemma SpawnRight(s: Server, tr: seq<Event>, cmd: CmdMsg, env: Env)
    requires KnownAll(s, tr) && cmd.verb.Spawn?
    ensures AnswersRight(s, CmdSpawn(s, cmd, env), tr, cmd, env)
  {
    if RunsUnder(s, cmd.name) {
      assert Known(s.procs[cmd.name], Reaps(s.procs[cmd.name].child, tr));
      var r := Ok(cmd.name).(pid := Some(s.procs[cmd.name].pid), alreadyRunning := Some(true));
      assert CmdSpawn(s, cmd, env) == SendResult(s, cmd, r);
      SendRight(s, tr, cmd, env, r);
    } else {
      FreshRight(s, Remove(s, cmd.name).server, tr, cmd, env);
    }
  }

  /** A spawn over a name that holds no running process. */
  lemma FreshRight(s: Server, free: Server, tr: seq<Event>, cmd: CmdMsg, env: Env)
    requires cmd.verb.Spawn? && !RunsUnder(s, cmd.name) && free == s.(procs := s.procs - {cmd.name})
    ensures AnswersRight(s, SpawnFresh(free, cmd, env), tr, cmd, env)
  {
  }

  lemma KillRight(s: Server, tr: seq<Event>, cmd: CmdMsg, env: Env)
    requires cmd.verb.Kill?
    ensures AnswersRight(s, CmdKill(s, cmd, env), tr, cmd, env)
  {
  }

  lemma InterruptRight(s: Server, tr: seq<Event>, cmd: CmdMsg, env: Env)
    requires KnownAll(s, tr) && cmd.verb.Interrupt?
    ensures AnswersRight(s, CmdInterrupt(s, cmd, env), tr, cmd, env)
  {
    if RunsUnder(s, cmd.name) {
      assert Known(s.procs[cmd.name], Reaps(s.procs[cmd.name].child, tr));
    }
    var r := InterruptResult(s, cmd.name, env);
    InterruptJust(s, SendResult(s, cmd, r).server, cmd.name, env);
    SendRight(s, tr, cmd, env, r);
  }

  function InterruptResult(s: Server, n: Name, env: Env): ResultMsg {
    if !RunsUnder(s, n) then Err(n, "not running")
    else if env.pgid.Some? then Err(n, env.pgid.value)
    else if env.signal.Some? then Err(n, env.signal.value)
    else Ok(n)
  }

  lemma InterruptJust(s: Server, s': Server, n: Name, env: Env)
    requires s'.procs == s.procs
    ensures RightInterrupt(s, s', n, env, InterruptResult(s, n, env))
  {
  }

  /** A right result that is sent at once. */
  lemma SendRight(s: Server, tr: seq<Event>, cmd: CmdMsg, env: Env, r: ResultMsg)
    requires !cmd.verb.Subscribe? && Right(s, SendResult(s, cmd, r).server, tr, cmd, env, r)
    ensures AnswersRight(s, SendResult(s, cmd, r), tr, cmd, env)
  {
  }

  lemma SubscribeRight(s: Server, tr: seq<Event>, cmd: CmdMsg, env: Env)
    requires KnownAll(s, tr) && cmd.verb.Subscribe?
    ensures AnswersRight(s, CmdSubscribe(s, cmd), tr, cmd, env)
  {
    if cmd.name in s.procs {
      var e := s.procs[cmd.name];
      assert Known(e, Reaps(e.child, tr));
      ReplayShape(Put(s, cmd.name, e.(buffer := [], subscribed := true)), e.child, e.buffer);
    }
  }

  lemma ListRight(s: Server, tr: seq<Event>, cmd: CmdMsg, env: Env)
    requires KnownAll(s, tr) && cmd.verb.List?
    ensures AnswersRight(s, CmdList(s, cmd), tr, cmd, env)
  {
    forall n | n in s.procs ensures RightRow(s.procs[n], tr, Info(s.procs[n])) {
      assert Known(s.procs[n], Reaps(s.procs[n].child, tr));
    }
  }

  lemma CommandRight(s: Server, tr: seq<Event>, cmd: CmdMsg, env: Env)
    requires KnownAll(s, tr)
    ensures AnswersRight(s, HandleCommand(s, cmd, env), tr, cmd, env)
  {
    match cmd.verb {
      case Spawn => SpawnRight(s, tr, cmd, env);
      case Kill => KillRight(s, tr, cmd, env);
      case Interrupt => InterruptRight(s, tr, cmd, env);
      case Subscribe => SubscribeRight(s, tr, cmd, env);
      case List => ListRight(s, tr, cmd, env);
      case Unsubscribe =>
      case Uptime =>
      case Unknown(_) =>
    }
  }

  /**
   In every run the last thing a command records is its answer, to the current connection, and it is right: a spawn tells
   the process that runs under the name afterwards, an interrupt succeeds exactly when it reached a running process, a
   subscribe and every row of a listing tell what the table and the record hold.
   */
  lemma {:induction false} AnsweredExactly(o: Oracle, run: seq<Label>, l: Label)
    requires TakesCommand(Run(o, run), l)
    ensures var w, w' := Run(o, run), Step(Run(o, run), l);
            && w.trace <= w'.trace
            && AnswersRight(w.server, Effect(w'.server, w'.trace[|w.trace|..]), w.trace, w.lines[0].msg.cmd, l.env)
  {
    var w := Run(o, run);
    RunSettled(o, run);
    LineStep(w, l.env);
    CommandRight(w.server, w.trace, w.lines[0].msg.cmd, l.env);
  }

  // ---- exited means that an exit was logged ----

  ghost predicate ExitLogged(x: nat, tr: seq<Event>) {
    exists e :: e in tr && e.Logged? && e.entry == x && e.msg.Exit?
  }

  /** Who has exited is told from the record. */
  ghost predicate StatusTold(s: Server, tr: seq<Event>) {
    && (forall n :: n in s.procs ==> (s.procs[n].status == Exited <==> ExitLogged(s.procs[n].child, tr)))
    && (forall x: nat :: x >= s.spawns ==> !ExitLogged(x, tr))
  }

  lemma LoggedMore(x: nat, tr: seq<Event>, evs: seq<Event>)
    ensures ExitLogged(x, tr + evs) <==> ExitLogged(x, tr) || ExitLogged(x, evs)
  {
  }

  /** An exit is logged for the entry whose exit message is taken. */
  lemma RelayTellsStatus(s: Server, tr: seq<Event>, item: Relay, env: Env)
    requires StatusTold(s, tr) && (item.body.Ended? ==> item.body.code.None?)
    requires Identities(s)
    ensures StatusTold(HandleRelay(s, item, env).server, tr + HandleRelay(s, item, env).events)
  {
    var r := HandleRelay(s, item, env);
    RelayLineage(s, item, env);
    forall n | n in r.server.procs
      ensures r.server.procs[n].status == Exited <==> ExitLogged(r.server.procs[n].child, tr + r.events)
    {
      RelayLeaves(s, item, env, n);
      LoggedMore(s.procs[n].child, tr, r.events);
      RelayLogsExit(s, item, env, s.procs[n].child);
    }
    forall x: nat | x >= r.server.spawns ensures !ExitLogged(x, tr + r.events) {
      LoggedMore(x, tr, r.events);
      RelayLogsExit(s, item, env, x);
    }
  }

  lemma TakeTellsStatus(w: World, env: Env)
    requires Settled(w) && StatusTold(w.server, w.trace) && Enabled(w, TakeRelay(env))
    ensures StatusTold(Step(w, TakeRelay(env)).server, Step(w, TakeRelay(env)).trace)
  {
    assert Fits(w.children, w.queue[0]);
    StepTrace(w, TakeRelay(env));
    RelayTellsStatus(w.server, w.trace, w.queue[0], env);
  }

  lemma RelayLogsExit(s: Server, item: Relay, env: Env, x: nat)
    requires item.body.Ended? ==> item.body.code.None?
    ensures ExitLogged(x, HandleRelay(s, item, env).events)
            <==> item.name in s.procs && s.procs[item.name].child == x && item.body.Ended?
  {
    if item.name in s.procs {
      RelayRecords(s, item, env);
      var e := s.procs[item.name];
      var logged := Logged(e.child, item, Told(item, Noted(e, item.body, env).exitCode));
      assert logged in HandleRelay(s, item, env).events;
    }
  }

  lemma KeptStatus(w: World, l: Label, n: Name)
    requires Settled(w) && KeepsChild(w.server, Step(w, l).server, n) && !l.TakeRelay? && !l.ShutDown?
    ensures Step(w, l).server.procs[n].status == w.server.procs[n].status
  {
    if l.TakeLine? {
      TakeLineKnows(w, l.env, n);
    } else {
      OthersKnow(w, l, n);
    }
  }

  /** Nothing is logged, and entries keep their status or are new and running. */
  lemma NothingTold(s: Server, s': Server, tr: seq<Event>, evs: seq<Event>)
    requires StatusTold(s, tr) && s.spawns <= s'.spawns && forall e :: e in evs ==> !e.Logged?
    requires forall n :: n in s'.procs ==>
               if KeepsChild(s, s', n) then s'.procs[n].status == s.procs[n].status
               else s'.procs[n].status == Running && s'.procs[n].child == s.spawns
    ensures StatusTold(s', tr + evs)
  {
    forall x: nat ensures ExitLogged(x, tr + evs) <==> ExitLogged(x, tr) {
      LoggedMore(x, tr, evs);
    }
  }

  lemma OthersTellStatus(o: Oracle, run: seq<Label>, l: Label)
    requires StatusTold(Run(o, run).server, Run(o, run).trace) && !l.TakeRelay? && !l.ShutDown?
    ensures StatusTold(Step(Run(o, run), l).server, Step(Run(o, run), l).trace)
  {
    var w := Run(o, run);
    var s, s' := w.server, Step(w, l).server;
    OthersLogNothing(w, l);
    StepTrace(w, l);
    RunSettled(o, run);
    StepGrows(w, l);
    forall n | n in s'.procs
      ensures if KeepsChild(s, s', n) then s'.procs[n].status == s.procs[n].status
              else s'.procs[n].status == Running && s'.procs[n].child == s.spawns
    {
      StatusNow(o, run, l, n);
    }
    NothingTold(s, s', w.trace, NewEvents(w, l));
  }

  lemma StatusNow(o: Oracle, run: seq<Label>, l: Label, n: Name)
    requires n in Step(Run(o, run), l).server.procs && !l.TakeRelay? && !l.ShutDown? && Settled(Run(o, run))
    ensures var s, s' := Run(o, run).server, Step(Run(o, run), l).server;
            if KeepsChild(s, s', n) then s'.procs[n].status == s.procs[n].status
            else s'.procs[n].status == Running && s'.procs[n].child == s.spawns
  {
    TableExactly(o, run, l, n);
    if KeepsChild(Run(o, run).server, Step(Run(o, run), l).server, n) {
      KeptStatus(Run(o, run), l, n);
    }
  }

  lemma {:induction false} RunStatusTold(o: Oracle, run: seq<Label>)
    ensures Run(o, run).mode != Finished ==> StatusTold(Run(o, run).server, Run(o, run).trace)
  {
    if run != [] {
      var init, l := run[..|run| - 1], run[|run| - 1];
      RunStatusTold(o, init);
      RunSettled(o, init);
      if Run(o, init).mode != Finished {
        StepTellsStatus(o, init, l);
      }
    }
  }

  lemma StepTellsStatus(o: Oracle, run: seq<Label>, l: Label)
    requires StatusTold(Run(o, run).server, Run(o, run).trace) && Settled(Run(o, run))
    ensures Step(Run(o, run), l).mode != Finished ==> StatusTold(Step(Run(o, run), l).server, Step(Run(o, run), l).trace)
  {
    var w := Run(o, run);
    if !Enabled(w, l) {
      DisabledStays(w, l);
    } else if l.TakeRelay? {
      TakeTellsStatus(w, l.env);
    } else if !l.ShutDown? {
      OthersTellStatus(o, run, l);
    }
  }

  /** In every run, until a shutdown, an entry in the table is marked exited exactly when an exit was logged for it. */
  lemma {:induction false} StatusExactly(o: Oracle, run: seq<Label>, n: Name)
    requires n in Run(o, run).server.procs && Run(o, run).mode != Finished
    ensures var w := Run(o, run);
            w.server.procs[n].status == Exited <==> ExitLogged(w.server.procs[n].child, w.trace)
  {
    RunStatusTold(o, run);
  }
}
