/**
 The Rust server as it is written: one object owning a table of processes and the client's channel,
 whose methods update them in place. Each method is proved to do what `RustServer` specifies.
 */
module RustLiveServer {
  import opened Protocol
  import S = RustServer

  /** A managed process: the handles of its child and relay tasks, and what the server keeps for it. */
  class ManagedProcess {
    const child: nat
    const pid: nat
    var reaped: Option<Option<int>>
    var status: Status
    var exitCode: Option<int>
    var buffer: seq<ServerMsg>
    var subscribed: bool
    var lastStdinAt: nat
    var lastStdoutAt: nat
    var stdoutTask: bool
    var stderrTask: bool

    ghost function Value(): S.Entry
      reads this
    {
      S.Entry(child, pid, reaped, status, exitCode, buffer, subscribed, lastStdinAt, lastStdoutAt, stdoutTask, stderrTask)
    }

    constructor (child: nat, pid: nat, t0: nat, t1: nat)
      ensures Value() == S.NewEntry(child, pid, t0, t1)
    {
      this.child, this.pid := child, pid;
      reaped, status, exitCode := None, Running, None;
      buffer, subscribed := [], false;
      lastStdinAt, lastStdoutAt := t0, t1;
      stdoutTask, stderrTask := true, true;
    }

    function Idle(): bool
      reads this
    {
      lastStdoutAt >= lastStdinAt
    }

    function Pid(): Option<nat>
      reads this
    {
      if reaped.None? then Some(pid) else None
    }

    /** Waits for the child with a time limit; a child already reaped returns its status again. */
    method TryWait(outcome: S.Wait) returns (w: S.Wait)
      modifies this`reaped
      ensures w == (if old(reaped).Some? then S.Gone(old(reaped).value) else outcome)
      ensures reaped == (if w.Gone? then Some(w.code) else old(reaped))
    {
      if reaped.Some? {
        return S.Gone(reaped.value);
      }
      if outcome.Gone? {
        reaped := Some(outcome.code);
      }
      return outcome;
    }

    /** Learns the exit code, waiting for the child if the message brought none, and marks the process exited. */
    method Settle(code: Option<int>, wait: S.Wait) returns (finalCode: Option<int>)
      modifies this
      ensures Value() == S.Settle(old(Value()), code, wait).0 && finalCode == exitCode
    {
      finalCode := code;
      if code.None? {
        var w := TryWait(wait);
        finalCode := if w.Gone? then w.code else code;
      }
      status := Exited;
      exitCode := finalCode;
    }

    /** Signals the process group, escalating after the first wait, and cancels the relay tasks. */
    method Kill(env: S.Env)
      modifies this
      ensures Value() == S.KillEntry(old(Value()), env).0
    {
      if status != Running || Pid().None? {
        return;
      }
      if env.pgid.None? {
        var wait := TryWait(env.soon);
        if wait.NotYet? {
          wait := TryWait(env.late);
        }
        status := Exited;
        exitCode := if wait.Gone? then wait.code else None;
      }
      stdoutTask := false;
      stderrTask := false;
    }
  }

  /** Updating one process in place is updating its entry. */
  lemma OneChanged(before: map<Name, S.Entry>, after: map<Name, S.Entry>, name: Name, e: S.Entry)
    requires after.Keys == before.Keys && name in before && after[name] == e
    requires forall n :: n in before && n != name ==> after[n] == before[n]
    ensures after == before[name := e]
  {
  }

  lemma KillAllStep(s: S.Server, plan: seq<(Name, S.Env)>, i: nat)
    requires i < |plan|
    ensures var before := S.KillAll(s, plan[..i]);
            S.KillAll(s, plan[..i + 1]) == S.After(before.events, S.KillProcess(before.server, plan[i].0, plan[i].1))
  {
    assert plan[..i + 1][..i] == plan[..i];
  }

  class ProcmuxServer {
    var procs: map<Name, ManagedProcess>
    var clientTx: Option<S.Channel>
    var conns: nat
    var spawns: nat
    ghost var trace: seq<S.Event>

    /** No two names share a process. */
    ghost predicate Valid()
      reads this
    {
      forall n, m :: n in procs && m in procs && n != m ==> procs[n] != procs[m]
    }

    ghost function Footprint(): set<object>
      reads this
    {
      {this} + (set n | n in procs :: procs[n] as object)
    }

    ghost function Table(): map<Name, S.Entry>
      reads Footprint()
    {
      map n | n in procs :: procs[n].Value()
    }

    ghost function State(): S.Server
      reads Footprint()
    {
      S.Server(Table(), clientTx, conns, spawns)
    }

    /** The method had the effect the specification gives. */
    twostate predicate Did(e: S.Effect)
      reads Footprint()
    {
      State() == e.server && trace == old(trace) + e.events
    }

    constructor ()
      ensures Valid() && fresh(Footprint()) && State() == S.INITIAL && trace == []
    {
      procs, clientTx, conns, spawns, trace := map[], None, 0, 0, [];
    }

    // ---- the client channel ----

    method SendToClient() returns (sent: bool)
      modifies this`clientTx
      ensures sent == S.Open(old(State()))
      ensures State() == if sent then S.Spend(old(State())) else old(State())
    {
      sent := false;
      if clientTx.Some? {
        match clientTx.value.life {
          case None => sent := true;
          case Some(n) =>
            if n > 0 {
              sent := true;
              clientTx := Some(S.Channel(clientTx.value.conn, Some(n - 1)));
            }
        }
      }
      assert Table() == old(Table());
    }

    /** Only the record changes. */
    method Note(ghost e: S.Event)
      modifies this`trace
      ensures State() == old(State()) && trace == old(trace) + [e]
    {
      trace := trace + [e];
      assert Table() == old(Table());
    }

    method SendResult(ghost cmd: CmdMsg, r: ResultMsg)
      modifies this`trace, this`clientTx
      ensures Did(S.SendResult(old(State()), cmd, r))
    {
      ghost var peer := S.Peer(State());
      var sent := SendToClient();
      Note(S.Answered(peer, sent, cmd, r));
    }

    // ---- relaying ----

    /** Sends to the client; if that fails the process is unsubscribed and the message kept. */
    method Relay(name: Name, msg: ServerMsg)
      requires Valid() && name in procs
      modifies this`trace, this`clientTx, procs[name]
      ensures var s, e := old(State()), old(State()).procs[name];
              Did(if S.Open(s) then S.Effect(S.Spend(s), [S.Sent(S.Peer(s), e.child, msg)])
                  else S.Effect(S.Put(s, name, e.(subscribed := false, buffer := e.buffer + [msg])), []))
    {
      ghost var s := State();
      var sent := SendToClient();
      if sent {
        Note(S.Sent(S.Peer(s), s.procs[name].child, msg));
      } else {
        var mp := procs[name];
        mp.subscribed := false;
        mp.buffer := mp.buffer + [msg];
        OneChanged(s.procs, Table(), name, mp.Value());
      }
    }

    /** Keeps a message for later. */
    method Buffer(name: Name, msg: ServerMsg)
      requires Valid() && name in procs
      modifies procs[name]
      ensures State() == S.Put(old(State()), name, old(State()).procs[name].(buffer := old(State()).procs[name].buffer + [msg]))
    {
      procs[name].buffer := procs[name].buffer + [msg];
      OneChanged(old(Table()), Table(), name, procs[name].Value());
    }

    method Unsubscribe(name: Name)
      requires Valid() && name in procs
      modifies procs[name]
      ensures State() == S.Put(old(State()), name, old(State()).procs[name].(subscribed := false))
    {
      procs[name].subscribed := false;
      OneChanged(old(Table()), Table(), name, procs[name].Value());
    }

    method RelayOrBuffer(ghost item: S.Relay, name: Name, msg: ServerMsg)
      requires Valid() && item.name == name
      modifies Footprint()
      ensures Valid() && procs == old(procs)
      ensures Did(S.RelayOrBuffer(old(State()), item, msg))
    {
      if name !in procs {
        Note(S.Discarded(item));
        return;
      }
      ghost var s := State();
      ghost var logged := S.Logged(procs[name].child, item, msg);
      Note(logged);
      if procs[name].subscribed {
        Relay(name, msg);
        assert [logged] + [S.Sent(S.Peer(s), s.procs[name].child, msg)] == [logged, S.Sent(S.Peer(s), s.procs[name].child, msg)];
      } else {
        Buffer(name, msg);
      }
    }

    /** The process has produced output. */
    method Touch(name: Name, t: nat)
      requires Valid() && name in procs
      modifies procs[name]
      ensures State() == S.Put(old(State()), name, old(State()).procs[name].(lastStdout := t))
    {
      procs[name].lastStdoutAt := t;
      OneChanged(old(Table()), Table(), name, procs[name].Value());
    }

    method Settle(name: Name, code: Option<int>, wait: S.Wait) returns (finalCode: Option<int>)
      requires Valid() && name in procs
      modifies this`trace, procs[name]
      ensures var settled := S.Settle(old(State()).procs[name], code, wait);
              && State() == S.Put(old(State()), name, settled.0)
              && trace == old(trace) + settled.1
              && finalCode == settled.0.exitCode
    {
      trace := trace + S.Settle(procs[name].Value(), code, wait).1;
      finalCode := procs[name].Settle(code, wait);
      OneChanged(old(Table()), Table(), name, procs[name].Value());
    }

    /** A line of stdout moves the clock of its process before it is passed on. */
    method HandleStdout(item: S.Relay, data: Json, t: nat)
      requires Valid()
      modifies Footprint()
      ensures Valid() && procs == old(procs)
      ensures var s := old(State());
              Did(if item.name in s.procs
                  then S.RelayOrBuffer(S.Put(s, item.name, s.procs[item.name].(lastStdout := t)), item, Stdout(item.name, data))
                  else S.Effect(s, [S.Discarded(item)]))
    {
      if item.name in procs {
        Touch(item.name, t);
        RelayOrBuffer(item, item.name, Stdout(item.name, data));
      } else {
        Note(S.Discarded(item));
      }
    }

    /** An exit is settled before it is passed on. */
    method HandleExit(item: S.Relay, code: Option<int>, wait: S.Wait)
      requires Valid() && item.name in procs
      modifies Footprint()
      ensures Valid() && procs == old(procs)
      ensures var s := old(State());
              var settled := S.Settle(s.procs[item.name], code, wait);
              Did(S.After(settled.1, S.RelayOrBuffer(S.Put(s, item.name, settled.0), item, Exit(item.name, settled.0.exitCode))))
    {
      var finalCode := Settle(item.name, code, wait);
      RelayOrBuffer(item, item.name, Exit(item.name, finalCode));
    }

    method HandleRelay(item: S.Relay, env: S.Env)
      requires Valid()
      modifies Footprint()
      ensures Valid() && procs == old(procs)
      ensures Did(S.HandleRelay(old(State()), item, env))
    {
      match item.body {
        case OutLine(data) => HandleStdout(item, data, env.t0);
        case TextLine(text) => RelayOrBuffer(item, item.name, Stderr(item.name, text));
        case Ended(code) =>
          if item.name in procs {
            HandleExit(item, code, env.soon);
          } else {
            RelayOrBuffer(item, item.name, Exit(item.name, code));
          }
      }
    }

    // ---- commands ----

    method Remove(name: Name)
      requires Valid()
      modifies this`procs, this`trace
      ensures Valid() && procs == old(procs) - {name}
      ensures Did(S.Remove(old(State()), name))
    {
      if name in procs {
        trace := trace + [S.Forgotten(procs[name].child, name, procs[name].buffer)];
        procs := procs - {name};
        assert Table() == old(Table()) - {name};
      } else {
        assert procs - {name} == procs;
      }
    }

    method Insert(name: Name, pid: nat, t0: nat, t1: nat)
      requires Valid() && name !in procs
      modifies this`procs, this`spawns
      ensures Valid() && procs.Keys == old(procs).Keys + {name} && fresh(procs[name])
      ensures forall n :: n in old(procs) ==> procs[n] == old(procs)[n]
      ensures State() == S.Put(old(State()), name, S.NewEntry(old(spawns), pid, t0, t1)).(spawns := old(spawns) + 1)
    {
      var mp := new ManagedProcess(spawns, pid, t0, t1);
      procs := procs[name := mp];
      spawns := spawns + 1;
      assert Table() == old(Table())[name := S.NewEntry(old(spawns), pid, t0, t1)];
    }

    method Start(cmd: CmdMsg, pid: nat, t0: nat, t1: nat)
      requires Valid() && cmd.name !in procs
      modifies this
      ensures Valid() && fresh(Footprint() - old(Footprint()))
      ensures var s := old(State());
              var spawned := S.Put(s, cmd.name, S.NewEntry(s.spawns, pid, t0, t1)).(spawns := s.spawns + 1);
              Did(S.After([S.Spawned(s.spawns, cmd.name)], S.SendResult(spawned, cmd, Ok(cmd.name).(pid := Some(pid)))))
    {
      Note(S.Spawned(spawns, cmd.name));
      Insert(cmd.name, pid, t0, t1);
      SendResult(cmd, Ok(cmd.name).(pid := Some(pid)));
    }

    method AnswerRunning(cmd: CmdMsg)
      requires cmd.name in procs
      modifies this`trace, this`clientTx
      ensures var s := old(State());
              Did(S.SendResult(s, cmd, Ok(cmd.name).(pid := Some(s.procs[cmd.name].PidOrZero()), alreadyRunning := Some(true))))
    {
      var pid := procs[cmd.name].Pid();
      SendResult(cmd, Ok(cmd.name).(pid := Some(if pid.Some? then pid.value else 0), alreadyRunning := Some(true)));
    }

    method SpawnFresh(cmd: CmdMsg, env: S.Env)
      requires Valid() && cmd.name !in procs
      modifies this
      ensures Valid() && fresh(Footprint() - old(Footprint()))
      ensures Did(S.SpawnFresh(old(State()), cmd, env))
    {
      match env.spawn {
        case SpawnFailed(error) => SendResult(cmd, Err(cmd.name, error));
        case Started(pid) => Start(cmd, pid, env.t0, env.t1);
      }
    }

    /** The entry of a process that has exited goes before the new child is started. */
    method SpawnOver(cmd: CmdMsg, env: S.Env)
      requires Valid()
      modifies this
      ensures Valid() && fresh(Footprint() - old(Footprint()))
      ensures var removed := S.Remove(old(State()), cmd.name);
              Did(S.After(removed.events, S.SpawnFresh(removed.server, cmd, env)))
    {
      Remove(cmd.name);
      assert Footprint() <= old(Footprint());
      ghost var s, noted := State(), trace;
      SpawnFresh(cmd, env);
      assert State() == S.SpawnFresh(s, cmd, env).server && trace == noted + S.SpawnFresh(s, cmd, env).events;
    }

    method CmdSpawn(cmd: CmdMsg, env: S.Env)
      requires Valid() && !S.SpawnPanics(State(), cmd)
      modifies Footprint()
      ensures Valid() && fresh(Footprint() - old(Footprint()))
      ensures Did(S.CmdSpawn(old(State()), cmd, env))
    {
      if cmd.name in procs && procs[cmd.name].status == Running {
        AnswerRunning(cmd);
        return;
      }
      SpawnOver(cmd, env);
    }

    method KillProcess(name: Name, env: S.Env)
      requires Valid()
      modifies this`trace, if name in procs then {procs[name]} else {}
      ensures Did(S.KillProcess(old(State()), name, env))
    {
      if name in procs {
        trace := trace + S.KillEntry(procs[name].Value(), env).1;
        procs[name].Kill(env);
        OneChanged(old(Table()), Table(), name, procs[name].Value());
      }
    }

    method KillAndRemove(name: Name, env: S.Env)
      requires Valid()
      modifies Footprint()
      ensures Valid() && procs == old(procs) - {name}
      ensures var killed := S.KillProcess(old(State()), name, env);
              Did(S.After(killed.events, S.Remove(killed.server, name)))
    {
      KillProcess(name, env);
      Remove(name);
    }

    method CmdKill(cmd: CmdMsg, env: S.Env)
      requires Valid()
      modifies Footprint()
      ensures Valid()
      ensures procs == old(procs) - {cmd.name}
      ensures Did(S.CmdKill(old(State()), cmd, env))
    {
      if cmd.name !in procs {
        SendResult(cmd, Err(cmd.name, "not found"));
        return;
      }
      KillAndRemove(cmd.name, env);
      SendResult(cmd, Ok(cmd.name));
    }

    method CmdInterrupt(cmd: CmdMsg, env: S.Env)
      modifies this`trace, this`clientTx
      ensures Did(S.CmdInterrupt(old(State()), cmd, env))
    {
      var name := cmd.name;
      if name !in procs {
        SendResult(cmd, Err(name, "not running"));
        return;
      }
      var mp := procs[name];
      if mp.status != Running {
        SendResult(cmd, Err(name, "not running"));
        return;
      }
      if mp.Pid().None? {
        SendResult(cmd, Err(name, "no pid"));
      } else if env.pgid.Some? {
        SendResult(cmd, Err(name, env.pgid.value));
      } else if env.signal.Some? {
        SendResult(cmd, Err(name, env.signal.value));
      } else {
        SendResult(cmd, Ok(name));
      }
    }

    /** Empties the buffer and marks the process subscribed. */
    method Drain(name: Name) returns (buffered: seq<ServerMsg>, result: ResultMsg)
      requires Valid() && name in procs
      modifies procs[name]
      ensures var e := old(State()).procs[name];
              && buffered == e.buffer
              && result == S.SubscribeResult(name, e)
              && State() == S.Put(old(State()), name, e.(buffer := [], subscribed := true))
    {
      var mp := procs[name];
      buffered := mp.buffer;
      mp.buffer := [];
      result := Ok(name).(replayed := Some(|buffered|), status := Some(mp.status), exitCode := mp.exitCode, idle := Some(mp.Idle()));
      mp.subscribed := true;
      OneChanged(old(Table()), Table(), name, mp.Value());
    }

    method SendBuffered(ghost x: nat, msg: ServerMsg)
      modifies this`trace, this`clientTx
      ensures var s := old(State());
              Did(if S.Open(s) then S.Effect(S.Spend(s), [S.Sent(S.Peer(s), x, msg)]) else S.Effect(s, [S.Lost(x, msg)]))
    {
      ghost var s := State();
      var sent := SendToClient();
      Note(if sent then S.Sent(S.Peer(s), x, msg) else S.Lost(x, msg));
    }

    method Replay(ghost x: nat, buffered: seq<ServerMsg>)
      modifies this`trace, this`clientTx
      ensures Did(S.Replay(old(State()), x, buffered))
    {
      for i := 0 to |buffered|
        invariant State() == S.Replay(old(State()), x, buffered[..i]).server
        invariant trace == old(trace) + S.Replay(old(State()), x, buffered[..i]).events
      {
        assert buffered[..i + 1][..i] == buffered[..i];
        SendBuffered(x, buffered[i]);
      }
      assert buffered[..|buffered|] == buffered;
    }

    method CmdSubscribe(cmd: CmdMsg)
      requires Valid()
      modifies Footprint()
      ensures Valid() && procs == old(procs)
      ensures Did(S.CmdSubscribe(old(State()), cmd))
    {
      if cmd.name !in procs {
        SendResult(cmd, Err(cmd.name, "not found"));
        return;
      }
      var buffered, result := Drain(cmd.name);
      Replay(procs[cmd.name].child, buffered);
      SendResult(cmd, result);
    }

    method CmdUnsubscribe(cmd: CmdMsg)
      requires Valid()
      modifies Footprint()
      ensures Valid() && procs == old(procs)
      ensures Did(S.CmdUnsubscribe(old(State()), cmd))
    {
      var name := cmd.name;
      if name !in procs {
        SendResult(cmd, Err(name, "not found"));
        return;
      }
      Unsubscribe(name);
      SendResult(cmd, Ok(name));
    }

    method CmdList(cmd: CmdMsg)
      modifies this`trace, this`clientTx
      ensures Did(S.CmdList(old(State()), cmd))
    {
      var rows: map<Name, ProcInfo> := map[];
      var names := procs.Keys;
      while names != {}
        invariant names <= procs.Keys && rows.Keys == procs.Keys - names
        invariant forall n :: n in rows ==> rows[n] == S.Info(procs[n].Value())
        invariant State() == old(State()) && trace == old(trace)
        decreases names
      {
        var n :| n in names;
        var mp := procs[n];
        var pid := mp.Pid();
        rows := rows[n := ProcInfo(if pid.Some? then pid.value else 0, mp.status, mp.exitCode, |mp.buffer|, mp.subscribed, mp.Idle())];
        names := names - {n};
      }
      assert rows == S.Listing(old(State()).procs);
      SendResult(cmd, Ok("").(processes := Some(rows)));
    }

    method HandleCommand(cmd: CmdMsg, env: S.Env)
      requires Valid() && !S.SpawnPanics(State(), cmd)
      modifies Footprint()
      ensures Valid() && fresh(Footprint() - old(Footprint()))
      ensures Did(S.HandleCommand(old(State()), cmd, env))
    {
      match cmd.verb {
        case Spawn => CmdSpawn(cmd, env);
        case Kill => CmdKill(cmd, env);
        case Interrupt => CmdInterrupt(cmd, env);
        case Subscribe => CmdSubscribe(cmd);
        case Unsubscribe => CmdUnsubscribe(cmd);
        case List => CmdList(cmd);
        case Uptime => SendResult(cmd, Ok("").(uptime := Some(env.uptime)));
        case Unknown(text) => SendResult(cmd, Err("", "unknown command: " + text));
      }
    }

    method HandleStdin(name: Name, data: Json, env: S.Env)
      requires Valid()
      modifies Footprint()
      ensures Valid() && procs == old(procs)
      ensures Did(S.HandleStdin(old(State()), name, data, env))
    {
      if name !in procs {
        return;
      }
      var mp := procs[name];
      if mp.status != Running {
        return;
      }
      if !env.written {
        return;
      }
      mp.lastStdinAt := env.t0;
      trace := trace + [S.StdinWritten(mp.child, data)];
      OneChanged(old(Table()), Table(), name, old(procs[name].Value()).(lastStdin := env.t0));
    }

    method HandleClientLine(line: Line, env: S.Env)
      requires Valid() && !S.Panics(State(), line)
      modifies Footprint()
      ensures Valid() && fresh(Footprint() - old(Footprint()))
      ensures Did(S.HandleLine(old(State()), line, env))
    {
      match line {
        case Garbage(_) =>
        case Parsed(Cmd(cmd)) => HandleCommand(cmd, env);
        case Parsed(Stdin(name, data)) => HandleStdin(name, data, env);
      }
    }

    // ---- connections and shutdown ----

    method ClearSubscriptions()
      requires Valid()
      modifies set n | n in procs :: procs[n]
      ensures State() == old(State()).(procs := S.Unsubscribed(old(State()).procs))
    {
      ghost var before := Table();
      var names := procs.Keys;
      while names != {}
        invariant names <= procs.Keys
        invariant forall n :: n in before ==> Table()[n] == if n in names then before[n] else before[n].(subscribed := false)
        decreases names
      {
        var n :| n in names;
        Unsubscribe(n);
        names := names - {n};
      }
      assert Table() == S.Unsubscribed(old(Table()));
    }

    method Install(life: Option<nat>)
      modifies this`clientTx, this`conns, this`trace
      ensures State() == old(State()).(client := Some(S.Channel(old(conns), life)), conns := old(conns) + 1)
      ensures trace == old(trace) + [S.Connected(old(conns))]
    {
      clientTx := Some(S.Channel(conns, life));
      trace := trace + [S.Connected(conns)];
      conns := conns + 1;
      assert Table() == old(Table());
    }

    method DropClient()
      modifies this`clientTx
      ensures State() == old(State()).(client := None) && clientTx == None
    {
      clientTx := None;
      assert Table() == old(Table());
    }

    /** The start of `handle_client`. */
    method Connect(life: Option<nat>)
      requires Valid()
      modifies Footprint()
      ensures Valid() && procs == old(procs) && fresh(Footprint() - old(Footprint()))
      ensures Did(S.Connect(old(State()), life))
    {
      if clientTx.Some? {
        DropClient();
      }
      ClearSubscriptions();
      Install(life);
    }

    /** The end of `handle_client`. */
    method Disconnect()
      requires Valid()
      modifies Footprint()
      ensures Valid() && procs == old(procs) && clientTx == None
      ensures Did(S.Disconnect(old(State())))
    {
      DropClient();
      ClearSubscriptions();
    }

    method KillAll(plan: seq<(Name, S.Env)>)
      requires Valid()
      modifies this`trace, set n | n in procs :: procs[n]
      ensures Did(S.KillAll(old(State()), plan))
    {
      ghost var s := State();
      for i := 0 to |plan|
        invariant State() == S.KillAll(s, plan[..i]).server
        invariant trace == old(trace) + S.KillAll(s, plan[..i]).events
      {
        KillNext(s, plan, i);
      }
      assert plan[..|plan|] == plan;
    }

    method KillNext(ghost s: S.Server, plan: seq<(Name, S.Env)>, i: nat)
      requires Valid() && i < |plan| && State() == S.KillAll(s, plan[..i]).server
      modifies this`trace, set n | n in procs :: procs[n]
      ensures State() == S.KillAll(s, plan[..i + 1]).server
      ensures S.KillAll(s, plan[..i]).events <= S.KillAll(s, plan[..i + 1]).events
      ensures trace == old(trace) + S.KillAll(s, plan[..i + 1]).events[|S.KillAll(s, plan[..i]).events|..]
    {
      KillAllStep(s, plan, i);
      KillProcess(plan[i].0, plan[i].1);
    }

    method Shutdown(plan: seq<(Name, S.Env)>)
      requires Valid()
      modifies Footprint()
      ensures Valid() && procs == old(procs) && clientTx == None
      ensures Did(S.Shutdown(old(State()), plan))
    {
      KillAll(plan);
      clientTx := None;
      assert Table() == S.KillAll(old(State()), plan).server.procs;
    }
  }
}
