/**
 The Python server as it is written: an object whose coroutines change the table, the processes
 and the client writer in place. Each method is one piece of a coroutine between two points
 where it waits, and is proved to do what `PyServer` specifies.
 */
module PyLiveServer {
  import opened Protocol
  import opened StreamRelay
  import S = PyServer

  class ManagedProcess {
    /** The place in the order of creation, by which a coroutine refers to the process. */
    const id: nat
    const name: Name
    const pid: nat
    var status: Status
    var exitCode: Option<int>
    var buffer: seq<ServerMsg>
    var subscribed: bool
    var lastStdinAt: nat
    var lastStdoutAt: nat
    var stdoutTask: S.Relaying
    var stderrTask: S.Relaying
    var cancelled: bool

    ghost function Value(): S.Process
      reads this
    {
      S.Process(name, pid, status, exitCode, buffer, subscribed, lastStdinAt, lastStdoutAt, stdoutTask, stderrTask, cancelled)
    }

    constructor (id: nat, name: Name, pid: nat)
      ensures this.id == id && Value() == S.NewProcess(name, pid)
    {
      this.id, this.name, this.pid := id, name, pid;
      status, exitCode, buffer, subscribed := Running, None, [], false;
      lastStdinAt, lastStdoutAt := 0, 0;
      stdoutTask, stderrTask, cancelled := S.Listening, S.Listening, false;
    }

    function Idle(): bool
      reads this
    {
      lastStdoutAt >= lastStdinAt
    }
  }

  /** Updating one process in place is updating it in the sequence. */
  lemma OneSet(before: seq<S.Process>, after: seq<S.Process>, p: nat, v: S.Process)
    requires p < |before| == |after| && after[p] == v
    requires forall i :: 0 <= i < |before| && i != p ==> after[i] == before[i]
    ensures after == before[p := v]
  {
  }

  ghost function Cleared(all: seq<S.Process>, done: set<nat>): seq<S.Process> {
    seq(|all|, p requires 0 <= p < |all| => if p in done then all[p].(subscribed := false) else all[p])
  }

  lemma ClearedOneMore(all: seq<S.Process>, done: set<nat>, p: nat)
    requires p < |all|
    ensures Cleared(all, done)[p := Cleared(all, done)[p].(subscribed := false)] == Cleared(all, done + {p})
  {
  }

  class ProcmuxServer {
    var procs: map<Name, ManagedProcess>
    var clientWriter: Option<nat>
    var handlers: seq<S.Handler>
    var shutdown: S.Shutdown
    var created: nat
    ghost var all: seq<ManagedProcess>
    ghost var trace: seq<S.Event>

    /** Every process is where it says, and the table holds only such processes. */
    ghost predicate Valid()
      reads this
    {
      && created == |all|
      && (forall i :: 0 <= i < |all| ==> all[i].id == i)
      && (forall n :: n in procs ==> Known(procs[n]))
    }

    ghost predicate Known(mp: ManagedProcess)
      reads this
    {
      mp.id < |all| && all[mp.id] == mp
    }

    ghost function Values(): seq<S.Process>
      reads this, all
    {
      seq(|all|, i requires 0 <= i < |all| reads this, all => all[i].Value())
    }

    ghost function Table(): map<Name, nat>
      reads this
    {
      map n | n in procs :: procs[n].id
    }

    ghost function State(): S.Server
      reads this, all
    {
      S.Server(Values(), Table(), clientWriter, handlers, shutdown, trace)
    }

    constructor ()
      ensures Valid() && State() == S.INITIAL
    {
      procs, clientWriter, handlers, shutdown, created, all, trace := map[], None, [], S.Serving, 0, [], [];
    }

    // ---- one process ----

    method SetStatus(mp: ManagedProcess, code: Option<int>)
      requires Valid() && Known(mp)
      modifies mp`status, mp`exitCode
      ensures State() == S.Set(old(State()), mp.id, old(mp.Value()).(status := Exited, exitCode := code))
    {
      mp.status := Exited;
      mp.exitCode := code;
      OneSet(old(Values()), Values(), mp.id, mp.Value());
    }

    method Touch(mp: ManagedProcess, now: nat)
      requires Valid() && Known(mp)
      modifies mp`lastStdoutAt
      ensures State() == S.Set(old(State()), mp.id, old(mp.Value()).(lastStdout := now))
    {
      mp.lastStdoutAt := now;
      OneSet(old(Values()), Values(), mp.id, mp.Value());
    }

    method WithOut(mp: ManagedProcess, r: S.Relaying)
      requires Valid() && Known(mp)
      modifies mp`stdoutTask
      ensures State() == S.WithOut(old(State()), mp.id, r)
    {
      mp.stdoutTask := r;
      OneSet(old(Values()), Values(), mp.id, mp.Value());
    }

    method WithErr(mp: ManagedProcess, r: S.Relaying)
      requires Valid() && Known(mp)
      modifies mp`stderrTask
      ensures State() == S.WithErr(old(State()), mp.id, r)
    {
      mp.stderrTask := r;
      OneSet(old(Values()), Values(), mp.id, mp.Value());
    }

    // ---- relaying ----

    method RelayOrBuffer(mp: ManagedProcess, msg: ServerMsg) returns (outlet: Option<nat>)
      requires Valid() && Known(mp)
      modifies this`trace, mp`buffer
      ensures outlet == S.Outlet(old(State()), mp.id)
      ensures State() == S.RelayOrBuffer(old(State()), mp.id, msg)
    {
      ghost var s := State();
      outlet := None;
      if mp.subscribed {
        outlet := clientWriter;
        trace := trace + [S.Emitted(mp.id, msg),
          if clientWriter.Some? then S.Wrote(mp.id, clientWriter.value, msg) else S.Dropped(mp.id, msg)];
        assert Values() == s.all;
      } else {
        mp.buffer := mp.buffer + [msg];
        trace := trace + [S.Emitted(mp.id, msg)];
        OneSet(s.all, Values(), mp.id, mp.Value());
      }
    }

    method EmitOut(mp: ManagedProcess, body: Body, now: nat)
      requires Valid() && Known(mp)
      modifies this`trace, mp
      ensures State() == S.EmitOut(old(State()), mp.id, body, now)
    {
      if body.OutLine? {
        Touch(mp, now);
      }
      var outlet := RelayOrBuffer(mp, S.Message(mp.name, body));
      WithOut(mp, S.Pause(outlet));
    }

    /** One round of the loop of `_relay_stdout`. */
    method TakeStdout(o: Oracle, mp: ManagedProcess, ev: ReadEvent, now: nat)
      requires Valid() && Known(mp)
      modifies this`trace, mp
      ensures State() == S.TakeStdout(old(State()), o, mp.id, ev, now)
    {
      match ev {
        case Eof => WithOut(mp, S.Reaping);
        case Failed => WithOut(mp, S.Over);
        case Text(text) =>
          var raw := o.trim(text);
          var data := o.parse(raw);
          if data.Some? {
            EmitOut(mp, OutLine(Wrap(data.value)), now);
          } else if raw != "" {
            EmitOut(mp, TextLine(raw), now);
          }
      }
    }

    /** One round of the loop of `_relay_stderr`. */
    method TakeStderr(o: Oracle, mp: ManagedProcess, ev: ReadEvent)
      requires Valid() && Known(mp)
      modifies this`trace, mp
      ensures State() == S.TakeStderr(old(State()), o, mp.id, ev)
    {
      if !ev.Text? {
        WithErr(mp, S.Over);
        return;
      }
      var text := o.trim(ev.line);
      if text != "" {
        var outlet := RelayOrBuffer(mp, Stderr(mp.name, text));
        WithErr(mp, S.Pause(outlet));
      }
    }

    /** The end of `_relay_stdout`: the exit is reported. */
    method Reap(mp: ManagedProcess, code: Option<int>)
      requires Valid() && Known(mp)
      modifies this`trace, mp
      ensures State() == S.Reap(old(State()), mp.id, code)
    {
      SetStatus(mp, code);
      var outlet := RelayOrBuffer(mp, Exit(mp.name, code));
      WithOut(mp, if outlet.Some? then S.Parting(outlet.value) else S.Over);
    }

    method Unsubscribe(mp: ManagedProcess)
      requires Valid() && Known(mp)
      modifies mp`subscribed
      ensures State() == S.Set(old(State()), mp.id, old(mp.Value()).(subscribed := false))
    {
      mp.subscribed := false;
      OneSet(old(Values()), Values(), mp.id, mp.Value());
    }

    /** The processes whose names are not among `names`. */
    ghost function Ids(names: set<Name>): set<nat>
      reads this
    {
      set n | n in procs && n !in names :: procs[n].id
    }

    lemma AllIds()
      ensures Ids({}) == Table().Values
    {
      forall v | v in Table().Values ensures v in Ids({}) {
        var n :| n in Table() && Table()[n] == v;
      }
      forall v | v in Ids({}) ensures v in Table().Values {
        var n :| n in procs && procs[n].id == v;
        assert Table()[n] == v;
      }
    }

    /** Unsubscribes every process in the table. */
    method ClearFlags()
      requires Valid()
      modifies set n | n in procs :: procs[n]
      ensures State() == S.ClearFlags(old(State()))
    {
      ghost var was := Values();
      ghost var done: set<nat> := {};
      var names := procs.Keys;
      while names != {}
        invariant names <= procs.Keys
        invariant done == Ids(names)
        invariant Values() == Cleared(was, done)
        decreases names
      {
        var n: Name :| n in names;
        ClearFlag(n, was, done);
        IdsGrow(names, n);
        done := done + {procs[n].id};
        names := names - {n};
      }
      AllIds();
    }

    method ClearFlag(n: Name, ghost was: seq<S.Process>, ghost done: set<nat>)
      requires Valid() && n in procs && Values() == Cleared(was, done)
      modifies procs[n]
      ensures Values() == Cleared(was, done + {procs[n].id})
    {
      Unsubscribe(procs[n]);
      ClearedOneMore(was, done, procs[n].id);
    }

    lemma IdsGrow(names: set<Name>, n: Name)
      requires n in names && n in procs
      ensures Ids(names - {n}) == Ids(names) + {procs[n].id}
    {
    }

    /** What every handler of a failed drain does, and the end of a connection's handler. */
    method Retire(w: nat)
      requires Valid()
      modifies this`clientWriter, set n | n in procs :: procs[n]
      ensures State() == S.Retire(old(State()), w)
    {
      if clientWriter == Some(w) {
        clientWriter := None;
        ClearFlags();
      }
    }

    /** A relay task goes on after a drain. */
    method Drained(mp: ManagedProcess, out: bool, ok: bool)
      requires Valid() && Known(mp)
      modifies this`clientWriter, mp, set n | n in procs :: procs[n]
      ensures State() == S.Drained(old(State()), mp.id, out, ok)
    {
      var task := if out then mp.stdoutTask else mp.stderrTask;
      if task.Draining? || task.Parting? {
        if !ok {
          Retire(task.writer);
        }
        var next := if task.Draining? then S.Listening else S.Over;
        if out {
          WithOut(mp, next);
        } else {
          WithErr(mp, next);
        }
      }
    }

    // ---- connections ----

    method At(c: nat, h: S.Handler)
      requires c < |handlers|
      modifies this`handlers
      ensures handlers == old(handlers)[c := h]
      ensures State() == S.At(old(State()), c, h)
    {
      handlers := handlers[c := h];
      assert Values() == old(Values());
    }

    /** The start of `_handle_client`. */
    method Connect()
      requires Valid()
      modifies this`clientWriter, this`handlers, set n | n in procs :: procs[n]
      ensures Valid() && State() == S.Connect(old(State()))
    {
      var oldWriter := clientWriter;
      ClearFlags();
      clientWriter := Some(|handlers|);
      handlers := handlers + [if oldWriter.Some? then S.Greeting else S.Reading];
      assert Values() == S.ClearFlags(old(State())).all;
    }

    /** The end of `_handle_client`. */
    method Leave(c: nat)
      requires Valid() && c < |handlers|
      modifies this`clientWriter, this`handlers, set n | n in procs :: procs[n]
      ensures Valid() && State() == S.Leave(old(State()), c)
    {
      Retire(c);
      At(c, S.Left);
    }

    method Answer(c: nat, r: ResultMsg)
      requires c < |handlers|
      modifies this`handlers, this`trace
      ensures |handlers| == |old(handlers)|
      ensures State() == S.Answer(old(State()), c, r)
    {
      match clientWriter {
        case Some(w) =>
          handlers := handlers[c := S.Answering(w)];
          trace := trace + [S.Answered(w, r)];
        case None =>
          handlers := handlers[c := S.Reading];
          trace := trace + [S.Unanswered(r)];
      }
      assert Values() == old(Values());
    }

    method AnswerDrained(c: nat, w: nat, ok: bool)
      requires Valid() && c < |handlers|
      modifies this`clientWriter, this`handlers, set n | n in procs :: procs[n]
      ensures Valid() && State() == S.AnswerDrained(old(State()), c, w, ok)
    {
      if !ok {
        Retire(w);
      }
      At(c, S.Reading);
    }

    // ---- commands ----

    /** A name's process, if any. */
    method Get(name: Name) returns (mp: Option<ManagedProcess>)
      requires Valid()
      ensures mp.Some? <==> name in procs
      ensures mp.Some? ==> mp.value == procs[name] && Known(mp.value)
      ensures S.Find(State(), name) == if mp.Some? then Some(mp.value.id) else None
    {
      mp := if name in procs then Some(procs[name]) else None;
    }

    method Remove(name: Name)
      requires Valid()
      modifies this`procs
      ensures Valid()
      ensures State() == old(State()).(procs := old(State()).procs - {name})
    {
      procs := procs - {name};
      assert Table() == old(Table()) - {name};
      assert Values() == old(Values());
    }

    method CmdSpawn(c: nat, name: Name)
      requires Valid() && c < |handlers|
      modifies this`procs, this`handlers, this`trace
      ensures Valid() && State() == S.CmdSpawn(old(State()), c, name)
    {
      var mp := Get(name);
      if mp.Some? && mp.value.status == Running {
        Answer(c, Ok(name).(pid := Some(mp.value.pid), alreadyRunning := Some(true)));
        return;
      }
      Remove(name);
      At(c, S.Spawning(name));
    }

    method Create(name: Name, pid: nat)
      requires Valid()
      modifies this`procs, this`created, this`all
      ensures Valid() && |all| == |old(all)| + 1 && all[..|old(all)|] == old(all) && fresh(all[|old(all)|])
      ensures State() == old(State()).(all := old(State()).all + [S.NewProcess(name, pid)],
                                       procs := old(State()).procs[name := |old(all)|])
    {
      var mp := new ManagedProcess(created, name, pid);
      created := created + 1;
      procs := procs[name := mp];
      all := all + [mp];
      assert Table() == old(Table())[name := |old(all)|];
      assert Values() == old(Values()) + [S.NewProcess(name, pid)];
    }

    method FinishSpawn(c: nat, name: Name, outcome: S.SpawnOutcome)
      requires Valid() && c < |handlers|
      modifies this`procs, this`created, this`all, this`handlers, this`trace
      ensures Valid() && State() == S.FinishSpawn(old(State()), c, name, outcome)
    {
      match outcome {
        case SpawnFailed(error) => Answer(c, Err(name, error));
        case Started(pid) =>
          Create(name, pid);
          Answer(c, Ok(name).(pid := Some(pid)));
      }
    }

    /** The end of `_kill_process`. */
    method FinishKill(mp: ManagedProcess, code: Option<int>)
      requires Valid() && Known(mp)
      modifies mp
      ensures State() == S.FinishKill(old(State()), mp.id, code)
    {
      mp.status := Exited;
      mp.exitCode := code;
      mp.cancelled := true;
      OneSet(old(Values()), Values(), mp.id, mp.Value());
    }

    method Forget(c: nat, name: Name)
      requires Valid() && c < |handlers|
      modifies this`procs, this`handlers, this`trace
      ensures Valid() && State() == S.Forget(old(State()), c, name)
    {
      Remove(name);
      Answer(c, Ok(name));
    }

    method CmdKill(c: nat, name: Name, env: S.Env)
      requires Valid() && c < |handlers|
      modifies this`procs, this`handlers, this`trace, set n | n in procs :: procs[n]
      ensures Valid() && State() == S.CmdKill(old(State()), c, name, env)
    {
      var mp := Get(name);
      if mp.None? {
        Answer(c, Err(name, "not found"));
      } else if mp.value.status != Running {
        Forget(c, name);
      } else if env.signal.Some? {
        FinishKill(mp.value, env.code);
        Forget(c, name);
      } else {
        At(c, S.Killing(mp.value.id, name));
      }
    }

    method CmdInterrupt(c: nat, name: Name, env: S.Env)
      requires Valid() && c < |handlers|
      modifies this`handlers, this`trace
      ensures Valid() && State() == S.CmdInterrupt(old(State()), c, name, env)
    {
      var mp := Get(name);
      if mp.None? || mp.value.status != Running {
        Answer(c, Err(name, "not running"));
      } else if env.signal.None? {
        Answer(c, Ok(name));
      } else {
        Answer(c, Err(name, env.signal.value));
      }
    }

    /** Writes the buffered messages one after the other, without waiting in between. */
    method Replay(mp: ManagedProcess, w: nat)
      requires Valid() && Known(mp)
      modifies this`trace
      ensures State() == S.Record(old(State()), S.Wrotes(mp.id, w, mp.buffer))
    {
      for i := 0 to |mp.buffer|
        invariant trace == old(trace) + S.Wrotes(mp.id, w, mp.buffer[..i])
      {
        trace := trace + [S.Wrote(mp.id, w, mp.buffer[i])];
        assert S.Wrotes(mp.id, w, mp.buffer[..i + 1]) == S.Wrotes(mp.id, w, mp.buffer[..i]) + [S.Wrote(mp.id, w, mp.buffer[i])];
      }
      assert mp.buffer[..|mp.buffer|] == mp.buffer;
      assert Values() == old(Values());
    }

    /** The synchronous part of `_cmd_subscribe`. */
    method Flush(mp: ManagedProcess)
      requires Valid() && Known(mp)
      modifies this`trace, mp`buffer, mp`subscribed
      ensures State() == S.Flush(old(State()), mp.id)
    {
      ghost var s := State();
      if clientWriter.Some? {
        Replay(mp, clientWriter.value);
      } else {
        trace := trace + S.Drops(mp.id, mp.buffer);
        assert Values() == s.all;
      }
      mp.buffer := [];
      mp.subscribed := true;
      OneSet(s.all, Values(), mp.id, mp.Value());
    }

    method CmdSubscribe(c: nat, name: Name)
      requires Valid() && c < |handlers|
      modifies this`handlers, this`trace, set n | n in procs :: procs[n]
      ensures Valid() && State() == S.CmdSubscribe(old(State()), c, name)
    {
      var found := Get(name);
      if found.None? {
        Answer(c, Err(name, "not found"));
        return;
      }
      var mp := found.value;
      var count := |mp.buffer|;
      Flush(mp);
      if clientWriter.Some? {
        At(c, S.Replaying(mp.id, clientWriter.value, name, count));
      } else {
        AnswerSubscribed(c, mp, name, count);
      }
    }

    method AnswerSubscribed(c: nat, mp: ManagedProcess, name: Name, count: nat)
      requires Valid() && Known(mp) && c < |handlers|
      modifies this`handlers, this`trace
      ensures |handlers| == |old(handlers)|
      ensures State() == S.Answer(old(State()), c, S.SubscribeResult(name, mp.Value(), count))
    {
      Answer(c, Ok(name).(replayed := Some(count), status := Some(mp.status), exitCode := mp.exitCode, idle := Some(mp.Idle())));
    }

    /** The rest of `_cmd_subscribe`, once the drain has returned or failed. */
    method FinishSubscribe(c: nat, mp: ManagedProcess, w: nat, name: Name, count: nat, ok: bool)
      requires Valid() && Known(mp) && c < |handlers|
      modifies this`clientWriter, this`handlers, this`trace, set n | n in procs :: procs[n]
      ensures Valid() && State() == S.FinishSubscribe(old(State()), c, S.Replaying(mp.id, w, name, count), ok)
    {
      if ok {
        AnswerSubscribed(c, mp, name, count);
      } else {
        Retire(w);
        At(c, S.Reading);
      }
    }

    method CmdUnsubscribe(c: nat, name: Name)
      requires Valid() && c < |handlers|
      modifies this`handlers, this`trace, set n | n in procs :: procs[n]
      ensures Valid() && State() == S.CmdUnsubscribe(old(State()), c, name)
    {
      var mp := Get(name);
      if mp.None? {
        Answer(c, Err(name, "not found"));
        return;
      }
      Unsubscribe(mp.value);
      Answer(c, Ok(name));
    }

    method List() returns (rows: map<Name, ProcInfo>)
      requires Valid()
      ensures rows == S.Listing(State())
    {
      rows := map[];
      var names := procs.Keys;
      while names != {}
        invariant names <= procs.Keys && rows.Keys == procs.Keys - names
        invariant forall n :: n in rows ==> rows[n] == S.Info(procs[n].Value())
        decreases names
      {
        var n :| n in names;
        var mp := procs[n];
        rows := rows[n := ProcInfo(mp.pid, mp.status, mp.exitCode, |mp.buffer|, mp.subscribed, mp.Idle())];
        names := names - {n};
      }
      assert rows.Keys == S.Listing(State()).Keys;
    }

    method HandleCommand(c: nat, cmd: CmdMsg, env: S.Env)
      requires Valid() && c < |handlers|
      modifies this`procs, this`handlers, this`trace, set n | n in procs :: procs[n]
      ensures Valid() && State() == S.HandleCommand(old(State()), c, cmd, env)
    {
      match cmd.verb {
        case Spawn => CmdSpawn(c, cmd.name);
        case Kill => CmdKill(c, cmd.name, env);
        case Interrupt => CmdInterrupt(c, cmd.name, env);
        case Subscribe => CmdSubscribe(c, cmd.name);
        case Unsubscribe => CmdUnsubscribe(c, cmd.name);
        case List =>
          var rows := List();
          Answer(c, Ok("").(processes := Some(rows)));
        case Uptime => Answer(c, Ok("").(uptime := Some(env.uptime)));
        case Unknown(text) => Answer(c, Err("", "unknown command: " + text));
      }
    }

    /** `_handle_stdin` up to the drain of the child's pipe. */
    method HandleStdin(c: nat, name: Name, data: Json)
      requires Valid() && c < |handlers|
      modifies this`handlers, this`trace
      ensures Valid() && State() == S.HandleStdin(old(State()), c, name, data)
    {
      var mp := Get(name);
      if mp.Some? && mp.value.status == Running {
        trace := trace + [S.StdinWritten(mp.value.id, data)];
        At(c, S.Feeding(mp.value.id));
      }
    }

    method HandleLine(c: nat, line: Line, env: S.Env)
      requires Valid() && c < |handlers|
      modifies this`procs, this`handlers, this`trace, set n | n in procs :: procs[n]
      ensures Valid() && State() == S.HandleLine(old(State()), c, line, env)
    {
      match line {
        case Garbage(_) =>
        case Parsed(Cmd(cmd)) => HandleCommand(c, cmd, env);
        case Parsed(Stdin(name, data)) => HandleStdin(c, name, data);
      }
    }

    method FinishStdin(c: nat, mp: ManagedProcess, ok: bool, now: nat)
      requires Valid() && Known(mp) && c < |handlers|
      modifies this`handlers, mp`lastStdinAt
      ensures Valid() && State() == S.FinishStdin(old(State()), c, mp.id, ok, now)
    {
      if ok {
        mp.lastStdinAt := now;
        OneSet(old(Values()), Values(), mp.id, mp.Value());
      }
      At(c, S.Reading);
    }

    /** The rest of `_cmd_kill`, once the process is gone. */
    method FinishCmdKill(c: nat, mp: ManagedProcess, name: Name, code: Option<int>)
      requires Valid() && Known(mp) && c < |handlers|
      modifies this`procs, this`handlers, this`trace, mp
      ensures Valid() && State() == S.FinishCmdKill(old(State()), c, mp.id, name, code)
    {
      FinishKill(mp, code);
      Forget(c, name);
    }

    // ---- shutdown ----

    /** One round of the loop of `_shutdown`. */
    method KillNext(mp: ManagedProcess, env: S.Env)
      requires Valid() && Known(mp) && shutdown.Stopping?
      modifies this`shutdown, mp
      ensures Valid() && State() == S.KillNext(old(State()), mp.id, env)
    {
      var left := shutdown.left - {mp.id};
      if mp.status != Running {
        shutdown := S.Stopping(left, None);
      } else if env.signal.Some? {
        FinishKill(mp, env.code);
        shutdown := S.Stopping(left, None);
      } else {
        shutdown := S.Stopping(left, Some(mp.id));
      }
      assert Values() == S.KillNext(old(State()), mp.id, env).all;
    }
  }
}
