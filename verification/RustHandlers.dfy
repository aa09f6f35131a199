/** Every handler of the Rust server is a chain of allowed moves, so it keeps what moves keep. */
module RustHandlers {
  import opened Protocol
  import opened Sequences
  import opened StreamRelay
  import opened RustServer
  import opened RustMoves

  /** The last move of a command: its result goes out. */
  function Sending(s: Server, cmd: CmdMsg, result: ResultMsg): Move {
    Quietly(SendResult(s, cmd, result).server, SendResult(s, cmd, result).events)
  }

  lemma RelayMoves(s: Server, item: Relay, env: Env) returns (moves: seq<Move>)
    requires Identities(s) && Subscriptions(s)
    requires item.body.Ended? ==> item.body.code.None?
    ensures Legal(s, moves) && Chain(s, moves) == HandleRelay(s, item, env)
  {
    if item.name !in s.procs {
      var m := Quietly(s, [Discarded(item)]);
      ChainOne(s, m);
      return [m];
    }
    match item.body {
      case OutLine(data) => moves := OutLineMoves(s, item, data, env);
      case TextLine(text) =>
        var pass := Pass(item, Stderr(item.name, text));
        ChainOne(s, pass);
        moves := [pass];
      case Ended(code) => moves := EndedMoves(s, item, env);
    }
  }

  lemma OutLineMoves(s: Server, item: Relay, data: Json, env: Env) returns (moves: seq<Move>)
    requires Identities(s) && Subscriptions(s) && item.name in s.procs && item.body == OutLine(data)
    ensures Legal(s, moves) && Chain(s, moves) == HandleRelay(s, item, env)
  {
    var touched := Put(s, item.name, s.procs[item.name].(lastStdout := env.t0));
    var touch, pass := Quietly(touched, []), Pass(item, Stdout(item.name, data));
    ChainTwo(s, touch, pass);
    assert [] + Do(touched, pass).events == Do(touched, pass).events;
    moves := [touch, pass];
  }

  lemma SettleAllowed(s: Server, name: Name, code: Option<int>, wait: Wait)
    requires name in s.procs && code.None?
    ensures var settled := Settle(s.procs[name], code, wait);
            && Allowed(s, Learn(name, settled.0))
            && Do(s, Learn(name, settled.0)) == Effect(Put(s, name, settled.0), settled.1)
  {
  }

  lemma EndedMoves(s: Server, item: Relay, env: Env) returns (moves: seq<Move>)
    requires Identities(s) && Subscriptions(s) && item.name in s.procs && item.body.Ended? && item.body.code.None?
    ensures Legal(s, moves) && Chain(s, moves) == HandleRelay(s, item, env)
  {
    var settled := Settle(s.procs[item.name], None, env.soon);
    SettleAllowed(s, item.name, None, env.soon);
    var learn, pass := Learn(item.name, settled.0), Pass(item, Exit(item.name, settled.0.exitCode));
    ChainTwo(s, learn, pass);
    moves := [learn, pass];
  }

  lemma SendAllowed(s: Server, cmd: CmdMsg, result: ResultMsg)
    requires Identities(s) && Subscriptions(s)
    ensures Allowed(s, Sending(s, cmd, result))
  {
  }

  lemma QuietMoves(s: Server, e: Effect) returns (moves: seq<Move>)
    requires Allowed(s, Quietly(e.server, e.events))
    ensures Legal(s, moves) && Chain(s, moves) == e
  {
    ChainOne(s, Quietly(e.server, e.events));
    moves := [Quietly(e.server, e.events)];
  }

  lemma SendMoves(s: Server, cmd: CmdMsg, result: ResultMsg) returns (moves: seq<Move>)
    requires Identities(s) && Subscriptions(s)
    ensures Legal(s, moves) && Chain(s, moves) == SendResult(s, cmd, result)
  {
    SendAllowed(s, cmd, result);
    moves := QuietMoves(s, SendResult(s, cmd, result));
  }

  lemma RemoveMoves(s: Server, name: Name) returns (moves: seq<Move>)
    requires Identities(s) && Subscriptions(s)
    ensures Legal(s, moves) && Chain(s, moves) == Remove(s, name)
    ensures Identities(Remove(s, name).server) && Subscriptions(Remove(s, name).server)
  {
    if name in s.procs {
      ChainOne(s, Forget(name));
      moves := [Forget(name)];
    } else {
      moves := [];
    }
  }

  lemma BirthMoves(s: Server, name: Name, pid: nat, env: Env) returns (moves: seq<Move>)
    requires Identities(s) && Subscriptions(s) && name !in s.procs
    ensures var born := Put(s, name, NewEntry(s.spawns, pid, env.t0, env.t1)).(spawns := s.spawns + 1);
            Legal(s, moves) && Chain(s, moves) == Effect(born, [Spawned(s.spawns, name)])
  {
    var birth := Birth(name, NewEntry(s.spawns, pid, env.t0, env.t1));
    ChainOne(s, birth);
    moves := [birth];
  }

  lemma FreshMoves(s: Server, cmd: CmdMsg, env: Env) returns (moves: seq<Move>)
    requires Identities(s) && Subscriptions(s) && cmd.name !in s.procs
    ensures Legal(s, moves) && Chain(s, moves) == SpawnFresh(s, cmd, env)
  {
    match env.spawn {
      case SpawnFailed(error) => moves := SendMoves(s, cmd, Err(cmd.name, error));
      case Started(pid) =>
        var first := BirthMoves(s, cmd.name, pid, env);
        MovesKeepShape(s, first);
        var second := SendMoves(Chain(s, first).server, cmd, Ok(cmd.name).(pid := Some(pid)));
        ChainJoin(s, first, second);
        moves := first + second;
    }
  }

  lemma SpawnMoves(s: Server, cmd: CmdMsg, env: Env) returns (moves: seq<Move>)
    requires Identities(s) && Subscriptions(s)
    ensures Legal(s, moves) && Chain(s, moves) == CmdSpawn(s, cmd, env)
  {
    if cmd.name in s.procs && s.procs[cmd.name].status == Running {
      moves := SendMoves(s, cmd, Ok(cmd.name).(pid := Some(s.procs[cmd.name].PidOrZero()), alreadyRunning := Some(true)));
    } else {
      var first := RemoveMoves(s, cmd.name);
      var second := FreshMoves(Remove(s, cmd.name).server, cmd, env);
      ChainJoin(s, first, second);
      moves := first + second;
    }
  }

  lemma AwaitMoves(s: Server, name: Name, env: Env) returns (moves: seq<Move>)
    requires Identities(s) && Subscriptions(s) && name in s.procs
    requires s.procs[name].status == Running && s.procs[name].reaped.None? && env.pgid.None?
    ensures Legal(s, moves) && Chain(s, moves) == KillProcess(s, name, env)
  {
    var waited := Await(s.procs[name], env);
    var learn := Learn(name, waited.0);
    LearnAllowed(s, name, env);
    MoveKeepsShape(s, learn);
    var known := Put(s, name, waited.0);
    var aborted := Abort(waited.0);
    var abort := Quietly(Put(known, name, aborted.0), aborted.1);
    AbortAllowed(known, name);
    assert abort.to == Put(s, name, aborted.0);
    ChainTwo(s, learn, abort);
    moves := [learn, abort];
  }

  lemma LearnAllowed(s: Server, name: Name, env: Env)
    requires name in s.procs && s.procs[name].reaped.None?
    ensures var waited := Await(s.procs[name], env);
            && Allowed(s, Learn(name, waited.0))
            && Do(s, Learn(name, waited.0)) == Effect(Put(s, name, waited.0), waited.1)
  {
  }

  lemma AbortAllowed(s: Server, name: Name)
    requires Identities(s) && Subscriptions(s) && name in s.procs
    ensures var aborted := Abort(s.procs[name]);
            Allowed(s, Quietly(Put(s, name, aborted.0), aborted.1))
  {
  }

  lemma KillEntryMoves(s: Server, name: Name, env: Env) returns (moves: seq<Move>)
    requires Identities(s) && Subscriptions(s)
    ensures Legal(s, moves) && Chain(s, moves) == KillProcess(s, name, env)
  {
    if name !in s.procs {
      moves := [];
    } else if s.procs[name].status != Running || s.procs[name].Pid().None? {
      assert Put(s, name, s.procs[name]) == s;
      moves := [];
    } else if env.pgid.Some? {
      moves := QuietMoves(s, KillProcess(s, name, env));
    } else {
      moves := AwaitMoves(s, name, env);
    }
  }

  lemma {:induction false} MovesKeepShape(s: Server, moves: seq<Move>)
    requires Identities(s) && Subscriptions(s) && Legal(s, moves)
    ensures Identities(Chain(s, moves).server) && Subscriptions(Chain(s, moves).server)
  {
    if moves != [] {
      MovesKeepShape(s, moves[..|moves| - 1]);
      MoveKeepsShape(Chain(s, moves[..|moves| - 1]).server, moves[|moves| - 1]);
    }
  }

  lemma AfterBoth(x: seq<Event>, y: seq<Event>, e: Effect)
    ensures After(x, After(y, e)) == After(x + y, e)
  {
    assert x + (y + e.events) == (x + y) + e.events;
  }

  lemma {:induction false} ChainJoin(s: Server, a: seq<Move>, b: seq<Move>)
    ensures Chain(s, a + b) == After(Chain(s, a).events, Chain(Chain(s, a).server, b))
    ensures Legal(s, a) && Legal(Chain(s, a).server, b) ==> Legal(s, a + b)
  {
    if b == [] {
      assert a + b == a;
    } else {
      var init, last := b[..|b| - 1], b[|b| - 1];
      var mid := Chain(Chain(s, a).server, init);
      ChainJoin(s, a, init);
      LastApart(a, b);
      ChainLast(s, a + init, last);
      AfterBoth(Chain(s, a).events, mid.events, Do(mid.server, last));
    }
  }

  lemma KillMoves(s: Server, cmd: CmdMsg, env: Env) returns (moves: seq<Move>)
    requires Identities(s) && Subscriptions(s)
    ensures Legal(s, moves) && Chain(s, moves) == CmdKill(s, cmd, env)
  {
    if cmd.name !in s.procs {
      moves := SendMoves(s, cmd, Err(cmd.name, "not found"));
    } else {
      var first := KillEntryMoves(s, cmd.name, env);
      MovesKeepShape(s, first);
      var killed := KillProcess(s, cmd.name, env);
      var second := RemoveMoves(killed.server, cmd.name);
      ChainJoin(s, first, second);
      var removed := Remove(killed.server, cmd.name);
      var third := SendMoves(removed.server, cmd, Ok(cmd.name));
      ChainJoin(s, first + second, third);
      moves := first + second + third;
    }
  }

  lemma SubscribeSplits(s: Server, cmd: CmdMsg)
    requires cmd.name in s.procs
    ensures var drained := Do(s, Drain(cmd.name));
            CmdSubscribe(s, cmd) ==
            After(drained.events, SendResult(drained.server, cmd, SubscribeResult(cmd.name, s.procs[cmd.name])))
  {
  }

  lemma SubscribeMoves(s: Server, cmd: CmdMsg) returns (moves: seq<Move>)
    requires Identities(s) && Subscriptions(s) && s.client.Some?
    ensures Legal(s, moves) && Chain(s, moves) == CmdSubscribe(s, cmd)
  {
    if cmd.name !in s.procs {
      moves := SendMoves(s, cmd, Err(cmd.name, "not found"));
    } else {
      var drain := Drain(cmd.name);
      ChainOne(s, drain);
      MoveKeepsShape(s, drain);
      SubscribeSplits(s, cmd);
      var second := SendMoves(Do(s, drain).server, cmd, SubscribeResult(cmd.name, s.procs[cmd.name]));
      ChainJoin(s, [drain], second);
      moves := [drain] + second;
    }
  }

  lemma InterruptMoves(s: Server, cmd: CmdMsg, env: Env) returns (moves: seq<Move>)
    requires Identities(s) && Subscriptions(s)
    ensures Legal(s, moves) && Chain(s, moves) == CmdInterrupt(s, cmd, env)
  {
    if cmd.name !in s.procs || s.procs[cmd.name].status != Running {
      moves := SendMoves(s, cmd, Err(cmd.name, "not running"));
    } else if s.procs[cmd.name].Pid().None? {
      moves := SendMoves(s, cmd, Err(cmd.name, "no pid"));
    } else {
      match (env.pgid, env.signal) {
        case (Some(error), _) => moves := SendMoves(s, cmd, Err(cmd.name, error));
        case (None, Some(error)) => moves := SendMoves(s, cmd, Err(cmd.name, error));
        case (None, None) => moves := SendMoves(s, cmd, Ok(cmd.name));
      }
    }
  }

  lemma AfterNothing(e: Effect)
    ensures After([], e) == e
  {
    assert [] + e.events == e.events;
  }

  lemma MuteKeepsShape(s: Server, name: Name)
    requires Identities(s) && Subscriptions(s) && name in s.procs
    ensures var muted := Put(s, name, s.procs[name].(subscribed := false));
            Allowed(s, Quietly(muted, [])) && Identities(muted) && Subscriptions(muted)
  {
    MoveKeepsShape(s, Quietly(Put(s, name, s.procs[name].(subscribed := false)), []));
  }

  lemma UnsubscribeMoves(s: Server, cmd: CmdMsg) returns (moves: seq<Move>)
    requires Identities(s) && Subscriptions(s)
    ensures Legal(s, moves) && Chain(s, moves) == CmdUnsubscribe(s, cmd)
  {
    if cmd.name !in s.procs {
      moves := SendMoves(s, cmd, Err(cmd.name, "not found"));
    } else {
      var muted := Put(s, cmd.name, s.procs[cmd.name].(subscribed := false));
      MuteKeepsShape(s, cmd.name);
      var first := QuietMoves(s, Effect(muted, []));
      var second := SendMoves(muted, cmd, Ok(cmd.name));
      ChainJoin(s, first, second);
      AfterNothing(SendResult(muted, cmd, Ok(cmd.name)));
      moves := first + second;
    }
  }

  lemma CommandMoves(s: Server, cmd: CmdMsg, env: Env) returns (moves: seq<Move>)
    requires Identities(s) && Subscriptions(s) && s.client.Some?
    ensures Legal(s, moves) && Chain(s, moves) == HandleCommand(s, cmd, env)
  {
    match cmd.verb {
      case Spawn => moves := SpawnMoves(s, cmd, env);
      case Kill => moves := KillMoves(s, cmd, env);
      case Interrupt => moves := InterruptMoves(s, cmd, env);
      case Subscribe => moves := SubscribeMoves(s, cmd);
      case Unsubscribe => moves := UnsubscribeMoves(s, cmd);
      case List => moves := SendMoves(s, cmd, Ok("").(processes := Some(Listing(s.procs))));
      case Uptime => moves := SendMoves(s, cmd, Ok("").(uptime := Some(env.uptime)));
      case Unknown(text) => moves := SendMoves(s, cmd, Err("", "unknown command: " + text));
    }
  }

  lemma LineMoves(s: Server, line: Line, env: Env) returns (moves: seq<Move>)
    requires Identities(s) && Subscriptions(s) && s.client.Some?
    ensures Legal(s, moves) && Chain(s, moves) == HandleLine(s, line, env)
  {
    match line {
      case Parsed(Cmd(cmd)) => moves := CommandMoves(s, cmd, env);
      case Parsed(Stdin(_, _)) => moves := QuietMoves(s, HandleLine(s, line, env));
      case Garbage(_) => moves := QuietMoves(s, HandleLine(s, line, env));
    }
  }

  lemma {:induction false} KillAllMoves(s: Server, plan: seq<(Name, Env)>) returns (moves: seq<Move>)
    requires Identities(s) && Subscriptions(s)
    ensures Legal(s, moves) && Chain(s, moves) == KillAll(s, plan)
  {
    if plan == [] {
      moves := [];
    } else {
      var init, last := plan[..|plan| - 1], plan[|plan| - 1];
      var first := KillAllMoves(s, init);
      MovesKeepShape(s, first);
      var second := KillEntryMoves(Chain(s, first).server, last.0, last.1);
      ChainJoin(s, first, second);
      moves := first + second;
    }
  }

  lemma ConnectMoves(s: Server, life: Option<nat>) returns (moves: seq<Move>)
    ensures Legal(s, moves) && Chain(s, moves) == Connect(s, life)
  {
    moves := QuietMoves(s, Connect(s, life));
  }

  lemma DisconnectMoves(s: Server) returns (moves: seq<Move>)
    ensures Legal(s, moves) && Chain(s, moves) == Disconnect(s)
  {
    moves := QuietMoves(s, Disconnect(s));
  }

  /** Only what belongs to a kill may differ. */
  ghost predicate Spared(s: Server, s': Server) {
    && s' == s.(procs := s'.procs) && s'.procs.Keys == s.procs.Keys
    && forall n :: n in s.procs ==>
         && s'.procs[n].subscribed == s.procs[n].subscribed
         && s'.procs[n].child == s.procs[n].child
         && s'.procs[n].buffer == s.procs[n].buffer
  }

  lemma KillProcessSpares(s: Server, name: Name, env: Env)
    ensures Spared(s, KillProcess(s, name, env).server)
  {
  }

  lemma SparedTwice(s: Server, mid: Server, s': Server)
    requires Spared(s, mid) && Spared(mid, s')
    ensures Spared(s, s')
  {
  }

  /** Killing touches neither the client nor any subscription. */
  lemma {:induction false} KillAllSpares(s: Server, plan: seq<(Name, Env)>)
    ensures Spared(s, KillAll(s, plan).server)
  {
    if plan != [] {
      var before, last := KillAll(s, plan[..|plan| - 1]).server, plan[|plan| - 1];
      KillAllSpares(s, plan[..|plan| - 1]);
      KillProcessSpares(before, last.0, last.1);
      SparedTwice(s, before, KillProcess(before, last.0, last.1).server);
    }
  }

  /** Nothing is subscribed when the client channel goes. */
  lemma HangUpMoves(s: Server) returns (moves: seq<Move>)
    requires forall n :: n in s.procs ==> !s.procs[n].subscribed
    ensures Legal(s, moves) && Chain(s, moves) == Effect(s.(client := None), [])
  {
    moves := QuietMoves(s, Effect(s.(client := None), []));
  }

  lemma ShutdownMoves(s: Server, plan: seq<(Name, Env)>) returns (moves: seq<Move>)
    requires Identities(s) && Subscriptions(s) && forall n :: n in s.procs ==> !s.procs[n].subscribed
    ensures Legal(s, moves) && Chain(s, moves) == Shutdown(s, plan)
  {
    var first := KillAllMoves(s, plan);
    KillAllSpares(s, plan);
    var killed := KillAll(s, plan);
    var second := HangUpMoves(killed.server);
    ChainJoin(s, first, second);
    assert killed.events + [] == killed.events;
    moves := first + second;
  }
}
