/**
 The Python server: coroutines that share a table of processes and one client writer and let each
 other run only where they await something. A step is what one coroutine does between two such
 points; the bodies under the client lock await nothing, so the lock is never contended.

 A writer is named by the place of its connection in the order in which connections took over.
 A message counts as written once it is handed to `writer.write`.
 */
module PyServer {
  import opened Protocol
  import opened StreamRelay

  /** Where a relay task stands. Only the stdout task waits for the child and reports its exit. */
  datatype Relaying =
    | Listening
    | Draining(writer: nat)
    | Reaping
    | Parting(writer: nat)
    | Over

  /** A managed process; `cancelled` says that its relay tasks have been told to stop. */
  datatype Process = Process(
    name: Name,
    pid: nat,
    status: Status,
    exitCode: Option<int>,
    buffer: seq<ServerMsg>,
    subscribed: bool,
    lastStdin: nat,
    lastStdout: nat,
    out: Relaying,
    err: Relaying,
    cancelled: bool)
  {
    predicate Idle() { lastStdout >= lastStdin }
  }

  /** Where the coroutine that handles a connection stands. */
  datatype Handler =
    | Greeting
    | Reading
    | Answering(writer: nat)
    | Replaying(proc: nat, writer: nat, name: Name, count: nat)
    | Spawning(name: Name)
    | Killing(proc: nat, name: Name)
    | Feeding(proc: nat)
    | Left

  /** The shutdown: not begun, killing what is `left` and waiting for `now`, or finished. */
  datatype Shutdown = Serving | Stopping(left: set<nat>, now: Option<nat>) | Stopped

  datatype Event =
    | Emitted(proc: nat, msg: ServerMsg)
    | Wrote(proc: nat, writer: nat, msg: ServerMsg)
    | Dropped(proc: nat, msg: ServerMsg)
    | Answered(writer: nat, result: ResultMsg)
    | Unanswered(result: ResultMsg)
    | StdinWritten(proc: nat, data: Json)

  /** `all` holds every process ever created; `procs` is the table, by place in `all`. */
  datatype Server = Server(
    all: seq<Process>,
    procs: map<Name, nat>,
    writer: Option<nat>,
    handlers: seq<Handler>,
    shutdown: Shutdown,
    trace: seq<Event>)

  const INITIAL := Server([], map[], None, [], Serving, [])

  /**
   The world's answers to one step: a clock reading, how a spawn ends, an error in reaching the
   process group, the return code of a child, and the uptime.
   */
  datatype Env = Env(now: nat, spawn: SpawnOutcome, signal: Option<string>, code: Option<int>, uptime: nat)
  datatype SpawnOutcome = Started(pid: nat) | SpawnFailed(error: string)

  // ---- shared state ----

  function Set(s: Server, p: nat, mp: Process): Server
    requires p < |s.all|
  {
    s.(all := s.all[p := mp])
  }

  function At(s: Server, c: nat, h: Handler): Server
    requires c < |s.handlers|
  {
    s.(handlers := s.handlers[c := h])
  }

  /** Unsubscribes the processes in the table, and only those. */
  function ClearFlags(s: Server): Server {
    s.(all := seq(|s.all|, p requires 0 <= p < |s.all| =>
                if p in s.procs.Values then s.all[p].(subscribed := false) else s.all[p]))
  }

  /** A connection that has ended gives up the writer, if it is still its own. */
  function Retire(s: Server, w: nat): Server {
    if s.writer == Some(w) then ClearFlags(s).(writer := None) else s
  }

  function Record(s: Server, evs: seq<Event>): Server {
    s.(trace := s.trace + evs)
  }

  /** The process in the table under a name. */
  function Find(s: Server, name: Name): (r: Option<nat>)
    ensures r.Some? ==> r.value < |s.all|
  {
    if name in s.procs && s.procs[name] < |s.all| then Some(s.procs[name]) else None
  }

  // ---- relay tasks ----

  /** The writer a message of process `p` goes to right now. */
  function Outlet(s: Server, p: nat): Option<nat>
    requires p < |s.all|
  {
    if s.all[p].subscribed then s.writer else None
  }

  function RelayOrBuffer(s: Server, p: nat, msg: ServerMsg): Server
    requires p < |s.all|
  {
    var mp := s.all[p];
    if !mp.subscribed then Record(Set(s, p, mp.(buffer := mp.buffer + [msg])), [Emitted(p, msg)])
    else
      match s.writer
      case Some(w) => Record(s, [Emitted(p, msg), Wrote(p, w, msg)])
      case None => Record(s, [Emitted(p, msg), Dropped(p, msg)])
  }

  function WithOut(s: Server, p: nat, r: Relaying): Server
    requires p < |s.all|
  {
    Set(s, p, s.all[p].(out := r))
  }

  function WithErr(s: Server, p: nat, r: Relaying): Server
    requires p < |s.all|
  {
    Set(s, p, s.all[p].(err := r))
  }

  /** After an emission a task waits for the writer it used, if any. */
  function Pause(outlet: Option<nat>): Relaying {
    match outlet
    case Some(w) => Draining(w)
    case None => Listening
  }

  function Message(name: Name, body: Body): ServerMsg {
    match body
    case OutLine(data) => Stdout(name, data)
    case TextLine(text) => Stderr(name, text)
    case Ended(code) => Exit(name, code)
  }

  function EmitOut(s: Server, p: nat, body: Body, now: nat): Server
    requires p < |s.all|
  {
    var s1 := if body.OutLine? then Set(s, p, s.all[p].(lastStdout := now)) else s;
    WithOut(RelayOrBuffer(s1, p, Message(s.all[p].name, body)), p, Pause(Outlet(s, p)))
  }

  /** The stdout task takes what `readline` returned. */
  function TakeStdout(s: Server, o: Oracle, p: nat, ev: ReadEvent, now: nat): Server
    requires p < |s.all|
  {
    match ev
    case Eof => WithOut(s, p, Reaping)
    case Failed => WithOut(s, p, Over)
    case Text(text) =>
      match o.parse(o.trim(text))
      case Some(v) => EmitOut(s, p, OutLine(Wrap(v)), now)
      case None => if o.trim(text) == "" then s else EmitOut(s, p, TextLine(o.trim(text)), now)
  }

  function TakeStderr(s: Server, o: Oracle, p: nat, ev: ReadEvent): Server
    requires p < |s.all|
  {
    match ev
    case Eof => WithErr(s, p, Over)
    case Failed => WithErr(s, p, Over)
    case Text(text) =>
      if o.trim(text) == "" then s
      else WithErr(RelayOrBuffer(s, p, Stderr(s.all[p].name, o.trim(text))), p, Pause(Outlet(s, p)))
  }

  /** The stdout task, past end of file, has waited for the child: it reports the exit. */
  function Reap(s: Server, p: nat, code: Option<int>): Server
    requires p < |s.all|
  {
    var exited := Set(s, p, s.all[p].(status := Exited, exitCode := code));
    var sent := RelayOrBuffer(exited, p, Exit(s.all[p].name, code));
    WithOut(sent, p, match Outlet(s, p) case Some(w) => Parting(w) case None => Over)
  }

  /** A relay task's drain has returned or failed. */
  function Drained(s: Server, p: nat, out: bool, ok: bool): Server
    requires p < |s.all|
  {
    var task := if out then s.all[p].out else s.all[p].err;
    match task
    case Draining(w) =>
      var s1 := if ok then s else Retire(s, w);
      if out then WithOut(s1, p, Listening) else WithErr(s1, p, Listening)
    case Parting(w) =>
      var s1 := if ok then s else Retire(s, w);
      if out then WithOut(s1, p, Over) else WithErr(s1, p, Over)
    case _ => s
  }

  // ---- connections ----

  function Connect(s: Server): Server {
    ClearFlags(s).(writer := Some(|s.handlers|),
                   handlers := s.handlers + [if s.writer.Some? then Greeting else Reading])
  }

  /** The end of a connection's handler, by end of file, an error or a cancellation. */
  function Leave(s: Server, c: nat): Server
    requires c < |s.handlers|
  {
    At(Retire(s, c), c, Left)
  }

  /** Writes a result to whichever client is current; the handler then waits for that writer. */
  function Answer(s: Server, c: nat, r: ResultMsg): Server
    requires c < |s.handlers|
  {
    match s.writer
    case Some(w) => Record(At(s, c, Answering(w)), [Answered(w, r)])
    case None => Record(At(s, c, Reading), [Unanswered(r)])
  }

  function AnswerDrained(s: Server, c: nat, w: nat, ok: bool): Server
    requires c < |s.handlers|
  {
    At(if ok then s else Retire(s, w), c, Reading)
  }

  // ---- commands ----

  function CmdSpawn(s: Server, c: nat, name: Name): Server
    requires c < |s.handlers|
  {
    var p := Find(s, name);
    if p.Some? && s.all[p.value].status == Running
    then Answer(s, c, Ok(name).(pid := Some(s.all[p.value].pid), alreadyRunning := Some(true)))
    else At(s.(procs := s.procs - {name}), c, Spawning(name))
  }

  function NewProcess(name: Name, pid: nat): Process {
    Process(name, pid, Running, None, [], false, 0, 0, Listening, Listening, false)
  }

  /** The child has been created, or could not be. */
  function FinishSpawn(s: Server, c: nat, name: Name, outcome: SpawnOutcome): Server
    requires c < |s.handlers|
  {
    match outcome
    case SpawnFailed(error) => Answer(s, c, Err(name, error))
    case Started(pid) =>
      Answer(s.(all := s.all + [NewProcess(name, pid)], procs := s.procs[name := |s.all|]), c,
             Ok(name).(pid := Some(pid)))
  }

  /** The last part of killing a process: it counts as exited and its relay tasks are cancelled. */
  function FinishKill(s: Server, p: nat, code: Option<int>): Server
    requires p < |s.all|
  {
    Set(s, p, s.all[p].(status := Exited, exitCode := code, cancelled := true))
  }

  function Forget(s: Server, c: nat, name: Name): Server
    requires c < |s.handlers|
  {
    Answer(s.(procs := s.procs - {name}), c, Ok(name))
  }

  function CmdKill(s: Server, c: nat, name: Name, env: Env): Server
    requires c < |s.handlers|
  {
    match Find(s, name)
    case None => Answer(s, c, Err(name, "not found"))
    case Some(p) =>
      if s.all[p].status != Running then Forget(s, c, name)
      else if env.signal.Some? then Forget(FinishKill(s, p, env.code), c, name)
      else At(s, c, Killing(p, name))
  }

  function CmdInterrupt(s: Server, c: nat, name: Name, env: Env): Server
    requires c < |s.handlers|
  {
    var p := Find(s, name);
    if p.None? || s.all[p.value].status != Running then Answer(s, c, Err(name, "not running"))
    else
      match env.signal
      case None => Answer(s, c, Ok(name))
      case Some(error) => Answer(s, c, Err(name, error))
  }

  function Wrotes(p: nat, w: nat, msgs: seq<ServerMsg>): (r: seq<Event>)
    ensures |r| == |msgs|
  {
    seq(|msgs|, i requires 0 <= i < |msgs| => Wrote(p, w, msgs[i]))
  }

  function Drops(p: nat, msgs: seq<ServerMsg>): (r: seq<Event>)
    ensures |r| == |msgs|
  {
    seq(|msgs|, i requires 0 <= i < |msgs| => Dropped(p, msgs[i]))
  }

  /** Empties the buffer, onto the writer if there is one, and marks the process subscribed. */
  function Flush(s: Server, p: nat): Server
    requires p < |s.all|
  {
    var mp := s.all[p];
    Record(Set(s, p, mp.(buffer := [], subscribed := true)),
           match s.writer case Some(w) => Wrotes(p, w, mp.buffer) case None => Drops(p, mp.buffer))
  }

  function SubscribeResult(name: Name, mp: Process, count: nat): ResultMsg {
    Ok(name).(replayed := Some(count), status := Some(mp.status), exitCode := mp.exitCode, idle := Some(mp.Idle()))
  }

  function CmdSubscribe(s: Server, c: nat, name: Name): Server
    requires c < |s.handlers|
  {
    match Find(s, name)
    case None => Answer(s, c, Err(name, "not found"))
    case Some(p) =>
      var count := |s.all[p].buffer|;
      if s.writer.Some? then At(Flush(s, p), c, Replaying(p, s.writer.value, name, count))
      else Answer(Flush(s, p), c, SubscribeResult(name, s.all[p], count))
  }

  /** The drain after a replay has returned or failed. */
  function FinishSubscribe(s: Server, c: nat, h: Handler, ok: bool): Server
    requires c < |s.handlers| && h.Replaying?
  {
    if !ok then At(Retire(s, h.writer), c, Reading)
    else if h.proc < |s.all| then Answer(s, c, SubscribeResult(h.name, s.all[h.proc], h.count))
    else s
  }

  function CmdUnsubscribe(s: Server, c: nat, name: Name): Server
    requires c < |s.handlers|
  {
    match Find(s, name)
    case None => Answer(s, c, Err(name, "not found"))
    case Some(p) => Answer(Set(s, p, s.all[p].(subscribed := false)), c, Ok(name))
  }

  function Info(mp: Process): ProcInfo {
    ProcInfo(mp.pid, mp.status, mp.exitCode, |mp.buffer|, mp.subscribed, mp.Idle())
  }

  function Listing(s: Server): map<Name, ProcInfo> {
    map n | n in s.procs && Find(s, n).Some? :: Info(s.all[Find(s, n).value])
  }

  function HandleCommand(s: Server, c: nat, cmd: CmdMsg, env: Env): Server
    requires c < |s.handlers|
  {
    match cmd.verb
    case Spawn => CmdSpawn(s, c, cmd.name)
    case Kill => CmdKill(s, c, cmd.name, env)
    case Interrupt => CmdInterrupt(s, c, cmd.name, env)
    case Subscribe => CmdSubscribe(s, c, cmd.name)
    case Unsubscribe => CmdUnsubscribe(s, c, cmd.name)
    case List => Answer(s, c, Ok("").(processes := Some(Listing(s))))
    case Uptime => Answer(s, c, Ok("").(uptime := Some(env.uptime)))
    case Unknown(text) => Answer(s, c, Err("", "unknown command: " + text))
  }

  /** The child's pipe takes the data; the handler then waits for it to drain. */
  function HandleStdin(s: Server, c: nat, name: Name, data: Json): Server
    requires c < |s.handlers|
  {
    var p := Find(s, name);
    if p.None? || s.all[p.value].status != Running then s
    else Record(At(s, c, Feeding(p.value)), [StdinWritten(p.value, data)])
  }

  function HandleLine(s: Server, c: nat, line: Line, env: Env): Server
    requires c < |s.handlers|
  {
    match line
    case Garbage(_) => s
    case Parsed(Cmd(cmd)) => HandleCommand(s, c, cmd, env)
    case Parsed(Stdin(name, data)) => HandleStdin(s, c, name, data)
  }

  /** The child's pipe has drained, or failed to. */
  function FinishStdin(s: Server, c: nat, p: nat, ok: bool, now: nat): Server
    requires c < |s.handlers|
  {
    At(if ok && p < |s.all| then Set(s, p, s.all[p].(lastStdin := now)) else s, c, Reading)
  }

  /** The kill a handler waited for is over; whatever now has the name leaves the table. */
  function FinishCmdKill(s: Server, c: nat, p: nat, name: Name, code: Option<int>): Server
    requires c < |s.handlers|
  {
    Forget(if p < |s.all| then FinishKill(s, p, code) else s, c, name)
  }

  // ---- shutdown ----

  /** The shutdown turns to the next process of its list. */
  function KillNext(s: Server, p: nat, env: Env): Server
    requires s.shutdown.Stopping? && p < |s.all|
  {
    var left := s.shutdown.left - {p};
    if s.all[p].status != Running then s.(shutdown := Stopping(left, None))
    else if env.signal.Some? then FinishKill(s, p, env.code).(shutdown := Stopping(left, None))
    else s.(shutdown := Stopping(left, Some(p)))
  }

  // ---- steps ----

  datatype Label =
    | Accept
    | Greeted(conn: nat)
    | Vanish(conn: nat)
    | Line(conn: nat, line: Line, env: Env)
    | Resume(conn: nat, ok: bool, env: Env)
    | Depart(conn: nat)
    | ReadOut(proc: nat, ev: ReadEvent, now: nat)
    | ReadErr(proc: nat, ev: ReadEvent)
    | ChildGone(proc: nat, code: Option<int>)
    | DrainEnds(proc: nat, out: bool, ok: bool)
    | Cancel(proc: nat, out: bool)
    | BeginShutdown
    | ShutdownNext(proc: nat, env: Env)
    | ShutdownGone(code: Option<int>)
    | EndShutdown

  /** A handler waiting for something goes on. */
  function ResumeHandler(s: Server, c: nat, ok: bool, env: Env): Server
    requires c < |s.handlers|
  {
    match s.handlers[c]
    case Answering(w) => AnswerDrained(s, c, w, ok)
    case Replaying(_, _, _, _) => FinishSubscribe(s, c, s.handlers[c], ok)
    case Spawning(name) => FinishSpawn(s, c, name, env.spawn)
    case Killing(p, name) => FinishCmdKill(s, c, p, name, env.code)
    case Feeding(p) => FinishStdin(s, c, p, ok, env.now)
    case _ => s
  }

  /** The relay tasks of `p` may still run: it exists and they have not been told to stop. */
  predicate Free(s: Server, p: nat) {
    p < |s.all| && !s.all[p].cancelled
  }

  function Step(s: Server, o: Oracle, l: Label): Server
  {
    match l
    case Accept => Connect(s)
    case Greeted(c) => if c < |s.handlers| && s.handlers[c].Greeting? then At(s, c, Reading) else s
    case Vanish(c) => if c < |s.handlers| && s.handlers[c].Greeting? then At(s, c, Left) else s
    case Line(c, line, env) =>
      if c < |s.handlers| && s.handlers[c].Reading? then HandleLine(s, c, line, env) else s
    case Resume(c, ok, env) => if c < |s.handlers| then ResumeHandler(s, c, ok, env) else s
    case Depart(c) =>
      if c < |s.handlers| && !s.handlers[c].Greeting? && !s.handlers[c].Left? then Leave(s, c) else s
    case ReadOut(p, ev, now) =>
      if Free(s, p) && s.all[p].out.Listening? then TakeStdout(s, o, p, ev, now) else s
    case ReadErr(p, ev) =>
      if Free(s, p) && s.all[p].err.Listening? then TakeStderr(s, o, p, ev) else s
    case ChildGone(p, code) => if Free(s, p) && s.all[p].out.Reaping? then Reap(s, p, code) else s
    case DrainEnds(p, out, ok) => if Free(s, p) then Drained(s, p, out, ok) else s
    case Cancel(p, out) =>
      if p < |s.all| && s.all[p].cancelled then (if out then WithOut(s, p, Over) else WithErr(s, p, Over)) else s
    case BeginShutdown => if s.shutdown.Serving? then s.(shutdown := Stopping(s.procs.Values, None)) else s
    case ShutdownNext(p, env) =>
      if s.shutdown.Stopping? && s.shutdown.now.None? && p in s.shutdown.left && p < |s.all|
      then KillNext(s, p, env) else s
    case ShutdownGone(code) =>
      if s.shutdown.Stopping? && s.shutdown.now.Some? && s.shutdown.now.value < |s.all|
      then FinishKill(s, s.shutdown.now.value, code).(shutdown := s.shutdown.(now := None)) else s
    case EndShutdown =>
      if s.shutdown.Stopping? && s.shutdown.now.None? && s.shutdown.left == {}
      then s.(writer := None, shutdown := Stopped) else s
  }

  function Run(o: Oracle, run: seq<Label>): Server
  {
    if run == [] then INITIAL else Step(Run(o, run[..|run| - 1]), o, run[|run| - 1])
  }
}
