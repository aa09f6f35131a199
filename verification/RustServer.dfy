/**
 The Rust server's handlers as functions on the state its main task owns. Each handler
 returns the next state and the events an observer could record.

 The outside world answers through `Env`. A handler may wait for a child or a pipe, but
 no other task touches the state meanwhile: producers append to queues, and the writer
 task can only stop. When it stops is fixed in `Channel.life` at connect time; closing is
 permanent and only a send notices it, so this choice excludes no run.
 */
module RustServer {
  import opened Protocol
  import opened StreamRelay

  // ---- state ----

  datatype Stream = OutStream | ErrStream

  /** A message on the relay queue. `child` and `stream` say which task sent it; the server sees only `name` and `body`. */
  datatype Relay = Relay(name: Name, child: nat, stream: Stream, body: Body)

  /**
   A managed process. `child` numbers the spawned children; `reaped` is the exit status
   a successful wait has returned, whose code is `None` after a signal.
   */
  datatype Entry = Entry(
    child: nat,
    pid: nat,
    reaped: Option<Option<int>>,
    status: Status,
    exitCode: Option<int>,
    buffer: seq<ServerMsg>,
    subscribed: bool,
    lastStdin: nat,
    lastStdout: nat,
    outTask: bool,
    errTask: bool)
  {
    predicate Idle() { lastStdout >= lastStdin }

    /** The pid is gone once the child has been reaped. */
    function Pid(): Option<nat> { if reaped.None? then Some(pid) else None }

    function PidOrZero(): nat { if reaped.None? then pid else 0 }
  }

  /** The sending half of the client's channel; `life` is how many more sends its writer task lives to take. */
  datatype Channel = Channel(conn: nat, life: Option<nat>)

  /** `conns` and `spawns` count connections and children so far. */
  datatype Server = Server(procs: map<Name, Entry>, client: Option<Channel>, conns: nat, spawns: nat)

  const INITIAL := Server(map[], None, 0, 0)

  // ---- the environment's answers ----

  datatype SpawnOutcome = Started(pid: nat) | SpawnFailed(error: string)

  /** A bounded wait for a child: it returned an exit status, or it timed out or failed. */
  datatype Wait = Gone(code: Option<int>) | NotYet

  /**
   `t0` and `t1` are two clock readings. `pgid` and `signal` hold an error when the lookup or the
   signal fails; `soon` is the wait of five seconds, `late` the wait after SIGKILL.
   */
  datatype Env = Env(
    t0: nat, t1: nat, spawn: SpawnOutcome, pgid: Option<string>, signal: Option<string>,
    soon: Wait, late: Wait, written: bool, uptime: nat)

  // ---- events ----

  datatype Event =
    | Connected(conn: nat)
    | Arrived(conn: nat, line: Line)
    | Spawned(entry: nat, name: Name)
    | Forgotten(entry: nat, name: Name, msgs: seq<ServerMsg>)
    | Logged(entry: nat, item: Relay, msg: ServerMsg)
    | Discarded(item: Relay)
    | Sent(conn: nat, entry: nat, msg: ServerMsg)
    | Lost(entry: nat, msg: ServerMsg)
    | Answered(conn: nat, accepted: bool, cmd: CmdMsg, result: ResultMsg)
    | StdinWritten(entry: nat, data: Json)
    | Reaped(entry: nat, code: Option<int>)
    | Aborted(entry: nat, stream: Stream)

  datatype Effect = Effect(server: Server, events: seq<Event>)

  function After(first: seq<Event>, e: Effect): Effect {
    Effect(e.server, first + e.events)
  }

  // ---- the client channel ----

  predicate Open(s: Server) {
    s.client.Some? && s.client.value.life != Some(0)
  }

  /** The channel after it has taken one payload. */
  function Spend(s: Server): Server
    requires Open(s)
  {
    var ch := s.client.value;
    match ch.life
    case None => s
    case Some(n) => s.(client := Some(Channel(ch.conn, Some(n - 1))))
  }

  /** The connection a result is meant for. */
  function Peer(s: Server): nat {
    if s.client.Some? then s.client.value.conn else s.conns
  }

  function SendResult(s: Server, cmd: CmdMsg, r: ResultMsg): Effect
  {
    if Open(s)
    then Effect(Spend(s), [Answered(Peer(s), true, cmd, r)])
    else Effect(s, [Answered(Peer(s), false, cmd, r)])
  }

  // ---- relaying ----

  function RelayOrBuffer(s: Server, item: Relay, msg: ServerMsg): Effect
  {
    if item.name !in s.procs then Effect(s, [Discarded(item)])
    else
      var e := s.procs[item.name];
      if e.subscribed then
        if Open(s)
        then Effect(Spend(s), [Logged(e.child, item, msg), Sent(Peer(s), e.child, msg)])
        else Effect(Put(s, item.name, e.(subscribed := false, buffer := e.buffer + [msg])), [Logged(e.child, item, msg)])
      else Effect(Put(s, item.name, e.(buffer := e.buffer + [msg])), [Logged(e.child, item, msg)])
  }

  function Put(s: Server, name: Name, e: Entry): Server {
    s.(procs := s.procs[name := e])
  }

  /** The entry once its exit has been reported with `code`, having waited for the child if no code came along. */
  function Settle(e: Entry, code: Option<int>, wait: Wait): (Entry, seq<Event>)
  {
    if code.Some? then (e.(status := Exited, exitCode := code), [])
    else
      match e.reaped
      case Some(c) => (e.(status := Exited, exitCode := c), [])
      case None =>
        match wait
        case Gone(c) => (e.(status := Exited, reaped := Some(c), exitCode := c), [Reaped(e.child, c)])
        case NotYet => (e.(status := Exited, exitCode := code), [])
  }

  function HandleRelay(s: Server, item: Relay, env: Env): Effect
  {
    match item.body
    case OutLine(data) =>
      if item.name in s.procs then
        var e := s.procs[item.name];
        RelayOrBuffer(Put(s, item.name, e.(lastStdout := env.t0)), item, Stdout(item.name, data))
      else Effect(s, [Discarded(item)])
    case TextLine(text) => RelayOrBuffer(s, item, Stderr(item.name, text))
    case Ended(code) =>
      if item.name in s.procs then
        var settled := Settle(s.procs[item.name], code, env.soon);
        After(settled.1, RelayOrBuffer(Put(s, item.name, settled.0), item, Exit(item.name, settled.0.exitCode)))
      else RelayOrBuffer(s, item, Exit(item.name, code))
  }

  // ---- commands ----

  function NewEntry(child: nat, pid: nat, t0: nat, t1: nat): Entry {
    Entry(child, pid, None, Running, None, [], false, t0, t1, true, true)
  }

  /** Spawning without arguments indexes an empty vector. */
  predicate SpawnPanics(s: Server, cmd: CmdMsg) {
    && cmd.verb.Spawn?
    && !(cmd.name in s.procs && s.procs[cmd.name].status == Running)
    && cmd.cliArgs == []
  }

  /** Handling the line makes the main task panic: such a spawn, or logging an invalid line cut inside a character. */
  predicate Panics(s: Server, line: Line) {
    match line
    case Garbage(splits) => splits
    case Parsed(Cmd(cmd)) => SpawnPanics(s, cmd)
    case Parsed(Stdin(_, _)) => false
  }

  /** The entry under a name leaves the table, with whatever it still has buffered. */
  function Remove(s: Server, name: Name): Effect
  {
    if name !in s.procs then Effect(s, [])
    else Effect(s.(procs := s.procs - {name}), [Forgotten(s.procs[name].child, name, s.procs[name].buffer)])
  }

  /** Spawning under a name that is not in the table. */
  function SpawnFresh(s: Server, cmd: CmdMsg, env: Env): Effect
  {
    match env.spawn
    case SpawnFailed(error) => SendResult(s, cmd, Err(cmd.name, error))
    case Started(pid) =>
      var entry := NewEntry(s.spawns, pid, env.t0, env.t1);
      var spawned := Put(s, cmd.name, entry).(spawns := s.spawns + 1);
      After([Spawned(s.spawns, cmd.name)], SendResult(spawned, cmd, Ok(cmd.name).(pid := Some(pid))))
  }

  function CmdSpawn(s: Server, cmd: CmdMsg, env: Env): Effect
  {
    if cmd.name in s.procs && s.procs[cmd.name].status == Running then
      SendResult(s, cmd, Ok(cmd.name).(pid := Some(s.procs[cmd.name].PidOrZero()), alreadyRunning := Some(true)))
    else
      var removed := Remove(s, cmd.name);
      After(removed.events, SpawnFresh(removed.server, cmd, env))
  }

  function Abort(e: Entry): (Entry, seq<Event>)
  {
    (e.(outTask := false, errTask := false),
     (if e.outTask then [Aborted(e.child, OutStream)] else [])
     + (if e.errTask then [Aborted(e.child, ErrStream)] else []))
  }

  /** Waiting for a signalled child: within five seconds, or after SIGKILL. */
  function Await(e: Entry, env: Env): (Entry, seq<Event>)
  {
    match (env.soon, env.late)
    case (Gone(c), _) => (e.(reaped := Some(c), status := Exited, exitCode := c), [Reaped(e.child, c)])
    case (NotYet, Gone(c)) => (e.(reaped := Some(c), status := Exited, exitCode := c), [Reaped(e.child, c)])
    case (NotYet, NotYet) => (e.(status := Exited, exitCode := None), [])
  }

  function KillEntry(e: Entry, env: Env): (Entry, seq<Event>)
  {
    if e.status != Running || e.Pid().None? then (e, [])
    else if env.pgid.Some? then Abort(e)
    else
      var waited := Await(e, env);
      var aborted := Abort(waited.0);
      (aborted.0, waited.1 + aborted.1)
  }

  function KillProcess(s: Server, name: Name, env: Env): Effect
  {
    if name !in s.procs then Effect(s, [])
    else
      var killed := KillEntry(s.procs[name], env);
      Effect(Put(s, name, killed.0), killed.1)
  }

  function CmdKill(s: Server, cmd: CmdMsg, env: Env): Effect
  {
    if cmd.name !in s.procs then SendResult(s, cmd, Err(cmd.name, "not found"))
    else
      var killed := KillProcess(s, cmd.name, env);
      var removed := Remove(killed.server, cmd.name);
      After(killed.events + removed.events, SendResult(removed.server, cmd, Ok(cmd.name)))
  }

  function CmdInterrupt(s: Server, cmd: CmdMsg, env: Env): Effect
  {
    if cmd.name !in s.procs || s.procs[cmd.name].status != Running then
      SendResult(s, cmd, Err(cmd.name, "not running"))
    else if s.procs[cmd.name].Pid().None? then SendResult(s, cmd, Err(cmd.name, "no pid"))
    else
      match (env.pgid, env.signal)
      case (Some(error), _) => SendResult(s, cmd, Err(cmd.name, error))
      case (None, Some(error)) => SendResult(s, cmd, Err(cmd.name, error))
      case (None, None) => SendResult(s, cmd, Ok(cmd.name))
  }

  /** Sends buffered messages in order; the channel may close on the way. */
  function Replay(s: Server, x: nat, msgs: seq<ServerMsg>): Effect
  {
    if msgs == [] then Effect(s, [])
    else
      var before := Replay(s, x, msgs[..|msgs| - 1]);
      var msg := msgs[|msgs| - 1];
      if Open(before.server)
      then Effect(Spend(before.server), before.events + [Sent(Peer(before.server), x, msg)])
      else Effect(before.server, before.events + [Lost(x, msg)])
  }

  function SubscribeResult(name: Name, e: Entry): ResultMsg {
    Ok(name).(replayed := Some(|e.buffer|), status := Some(e.status), exitCode := e.exitCode, idle := Some(e.Idle()))
  }

  function CmdSubscribe(s: Server, cmd: CmdMsg): Effect
  {
    if cmd.name !in s.procs then SendResult(s, cmd, Err(cmd.name, "not found"))
    else
      var e := s.procs[cmd.name];
      var replay := Replay(Put(s, cmd.name, e.(buffer := [], subscribed := true)), e.child, e.buffer);
      After(replay.events, SendResult(replay.server, cmd, SubscribeResult(cmd.name, e)))
  }

  function CmdUnsubscribe(s: Server, cmd: CmdMsg): Effect
  {
    if cmd.name !in s.procs then SendResult(s, cmd, Err(cmd.name, "not found"))
    else SendResult(Put(s, cmd.name, s.procs[cmd.name].(subscribed := false)), cmd, Ok(cmd.name))
  }

  function Info(e: Entry): ProcInfo {
    ProcInfo(e.PidOrZero(), e.status, e.exitCode, |e.buffer|, e.subscribed, e.Idle())
  }

  function Listing(procs: map<Name, Entry>): map<Name, ProcInfo> {
    map n | n in procs :: Info(procs[n])
  }

  function CmdList(s: Server, cmd: CmdMsg): Effect {
    SendResult(s, cmd, Ok("").(processes := Some(Listing(s.procs))))
  }

  function CmdStatus(s: Server, cmd: CmdMsg, env: Env): Effect {
    SendResult(s, cmd, Ok("").(uptime := Some(env.uptime)))
  }

  function HandleCommand(s: Server, cmd: CmdMsg, env: Env): Effect
  {
    match cmd.verb
    case Spawn => CmdSpawn(s, cmd, env)
    case Kill => CmdKill(s, cmd, env)
    case Interrupt => CmdInterrupt(s, cmd, env)
    case Subscribe => CmdSubscribe(s, cmd)
    case Unsubscribe => CmdUnsubscribe(s, cmd)
    case List => CmdList(s, cmd)
    case Uptime => CmdStatus(s, cmd, env)
    case Unknown(text) => SendResult(s, cmd, Err("", "unknown command: " + text))
  }

  function HandleStdin(s: Server, name: Name, data: Json, env: Env): Effect
  {
    if name !in s.procs || s.procs[name].status != Running || !env.written then Effect(s, [])
    else Effect(Put(s, name, s.procs[name].(lastStdin := env.t0)), [StdinWritten(s.procs[name].child, data)])
  }

  function HandleLine(s: Server, line: Line, env: Env): Effect
  {
    match line
    case Garbage(_) => Effect(s, [])
    case Parsed(Cmd(cmd)) => HandleCommand(s, cmd, env)
    case Parsed(Stdin(name, data)) => HandleStdin(s, name, data, env)
  }

  // ---- connections and shutdown ----

  function Unsubscribed(procs: map<Name, Entry>): map<Name, Entry> {
    map n | n in procs :: procs[n].(subscribed := false)
  }

  /** The first half of `handle_client`: the old channel, if any, is dropped for the new one. */
  function Connect(s: Server, life: Option<nat>): Effect {
    Effect(Server(Unsubscribed(s.procs), Some(Channel(s.conns, life)), s.conns + 1, s.spawns), [Connected(s.conns)])
  }

  function Disconnect(s: Server): Effect {
    Effect(s.(procs := Unsubscribed(s.procs), client := None), [])
  }

  /** Kills every process named in `plan`, in that order. */
  function KillAll(s: Server, plan: seq<(Name, Env)>): Effect
  {
    if plan == [] then Effect(s, [])
    else
      var before := KillAll(s, plan[..|plan| - 1]);
      var last := plan[|plan| - 1];
      After(before.events, KillProcess(before.server, last.0, last.1))
  }

  function Shutdown(s: Server, plan: seq<(Name, Env)>): Effect {
    var killed := KillAll(s, plan);
    Effect(killed.server.(client := None), killed.events)
  }
}
