/**
 What one step of the Rust server does to each entry and each message, told from the world before it and the
 label alone: who is subscribed, what is delivered, what is known of a child, which clocks move, who is in the table.
 */
module RustSteps {
  import opened Protocol
  import opened StreamRelay
  import opened RustServer
  import opened RustRecord
  import opened RustMoves
  import opened RustHandlers
  import opened RustWorld
  import opened RustRuns
  import opened RustStreams
  import opened RustTheorems
  import opened RustKill
  import opened RustExits

  // ---- what a label asks for ----

  /** The main task takes a relay message for a name. */
  predicate Takes(w: World, l: Label, n: Name) {
    Enabled(w, l) && l.TakeRelay? && w.queue[0].name == n
  }

  /** The main task takes a command line. */
  predicate TakesCommand(w: World, l: Label) {
    Enabled(w, l) && l.TakeLine? && w.lines[0].Parsed? && w.lines[0].msg.Cmd?
  }

  predicate Orders(w: World, l: Label, verb: Verb, n: Name) {
    TakesCommand(w, l) && w.lines[0].msg.cmd.verb == verb && w.lines[0].msg.cmd.name == n
  }

  /** The main task takes a line of stdin for a running process and writes it. */
  predicate Feeds(w: World, l: Label, n: Name, data: Json) {
    && Enabled(w, l) && l.TakeLine? && w.lines[0] == Parsed(Stdin(n, data)) && l.env.written
    && n in w.server.procs && w.server.procs[n].status == Running
  }

  predicate FeedsSome(w: World, l: Label, n: Name) {
    Enabled(w, l) && l.TakeLine? && w.lines[0].Parsed? && w.lines[0].msg.Stdin? && Feeds(w, l, n, w.lines[0].msg.data)
  }

  /** A connection is accepted or over. */
  predicate Turns(w: World, l: Label) {
    Enabled(w, l) && (l.Accept? || l.TakeEof?)
  }

  /** The client channel still takes messages. */
  predicate ChannelOpen(s: Server) {
    s.client.Some? && s.client.value.life != Some(0)
  }

  // ---- the entry afterwards ----

  /** The message a client is told for a relay message; an exit carries the code known by then. */
  function Told(item: Relay, code: Option<int>): ServerMsg {
    match item.body
    case OutLine(data) => Stdout(item.name, data)
    case TextLine(text) => Stderr(item.name, text)
    case Ended(_) => Exit(item.name, code)
  }

  function ReapedBy(e: Entry, env: Env): Option<Option<int>> {
    if e.reaped.None? && env.soon.Gone? then Some(env.soon.code) else e.reaped
  }

  /** A relay message moves the clock, or makes an exit known with the code of the reaped child. */
  function Noted(e: Entry, body: Body, env: Env): Entry {
    match body
    case OutLine(_) => e.(lastStdout := env.t0)
    case TextLine(_) => e
    case Ended(_) =>
      var reaped := ReapedBy(e, env);
      e.(status := Exited, reaped := reaped, exitCode := if reaped.Some? then reaped.value else None)
  }

  /** And it leaves at once, or stays and ends the subscription. */
  function Relayed(e: Entry, item: Relay, open: bool, env: Env): Entry {
    var noted := Noted(e, item.body, env);
    if e.subscribed && open then noted
    else noted.(subscribed := false, buffer := e.buffer + [Told(item, noted.exitCode)])
  }

  function Lined(e: Entry, line: Line, n: Name, env: Env): Entry {
    match line
    case Parsed(Cmd(cmd)) =>
      if cmd.name != n then e
      else if cmd.verb.Subscribe? then e.(buffer := [], subscribed := true)
      else if cmd.verb.Unsubscribe? then e.(subscribed := false)
      else e
    case Parsed(Stdin(name, _)) =>
      if name == n && e.status == Running && env.written then e.(lastStdin := env.t0) else e
    case Garbage(_) => e
  }

  lemma RelayLeaves(s: Server, item: Relay, env: Env, n: Name)
    requires n in s.procs && (item.body.Ended? ==> item.body.code.None?)
    ensures var s' := HandleRelay(s, item, env).server;
            && n in s'.procs
            && s'.procs[n] == if item.name == n then Relayed(s.procs[n], item, ChannelOpen(s), env) else s.procs[n]
  {
    if item.name in s.procs {
      var noted := Noted(s.procs[item.name], item.body, env);
      PassLeaves(Put(s, item.name, noted), item, Told(item, noted.exitCode), n);
    }
  }

  lemma PassLeaves(s: Server, item: Relay, msg: ServerMsg, n: Name)
    requires n in s.procs && item.name in s.procs
    ensures var s', e := RelayOrBuffer(s, item, msg).server, s.procs[n];
            && n in s'.procs
            && s'.procs[n] == if item.name != n || (e.subscribed && ChannelOpen(s)) then e
                              else e.(subscribed := false, buffer := e.buffer + [msg])
  {
  }

  lemma SpawnLeaves(s: Server, cmd: CmdMsg, env: Env, n: Name)
    requires Identities(s) && KeepsChild(s, CmdSpawn(s, cmd, env).server, n)
    ensures CmdSpawn(s, cmd, env).server.procs[n] == s.procs[n]
  {
    if !(cmd.name in s.procs && s.procs[cmd.name].status == Running) {
      FreshKnows(Remove(s, cmd.name).server, cmd, env, n);
    }
  }

  lemma SubscribeLeaves(s: Server, cmd: CmdMsg, n: Name)
    requires n in s.procs
    ensures var s' := CmdSubscribe(s, cmd).server;
            && n in s'.procs
            && s'.procs[n] == if cmd.name == n then s.procs[n].(buffer := [], subscribed := true) else s.procs[n]
  {
    if cmd.name in s.procs {
      var e := s.procs[cmd.name];
      ReplayShape(Put(s, cmd.name, e.(buffer := [], subscribed := true)), e.child, e.buffer);
    }
  }

  lemma LineLeaves(s: Server, line: Line, env: Env, n: Name)
    requires Identities(s) && KeepsChild(s, HandleLine(s, line, env).server, n)
    ensures HandleLine(s, line, env).server.procs[n] == Lined(s.procs[n], line, n, env)
  {
    if line.Parsed? && line.msg.Cmd? {
      var cmd := line.msg.cmd;
      match cmd.verb {
        case Spawn => SpawnLeaves(s, cmd, env, n);
        case Kill => KillRemovesExactly(s, cmd, env);
        case Subscribe => SubscribeLeaves(s, cmd, n);
        case _ =>
      }
    }
  }

  /** What any step but a shutdown makes of an entry that stays. */
  function StepEntry(w: World, l: Label, n: Name): Entry
    requires n in w.server.procs
  {
    var e := w.server.procs[n];
    if !Enabled(w, l) then e
    else
      match l
      case Accept(_) => e.(subscribed := false)
      case TakeEof => e.(subscribed := false)
      case TakeRelay(env) => if w.queue[0].name == n then Relayed(e, w.queue[0], ChannelOpen(w.server), env) else e
      case TakeLine(env) => Lined(e, w.lines[0], n, env)
      case _ => e
  }

  lemma TurnsLeave(w: World, l: Label, n: Name)
    requires KeepsChild(w.server, Step(w, l).server, n) && !l.ShutDown? && !l.TakeRelay? && !l.TakeLine?
    ensures Step(w, l).server.procs[n] == StepEntry(w, l, n)
  {
  }

  lemma StepLeavesEntry(w: World, l: Label, n: Name)
    requires Settled(w) && KeepsChild(w.server, Step(w, l).server, n) && !l.ShutDown?
    ensures Step(w, l).server.procs[n] == StepEntry(w, l, n)
  {
    if !Enabled(w, l) {
      DisabledStays(w, l);
    } else if l.TakeRelay? {
      assert Fits(w.children, w.queue[0]);
      RelayStep(w, l.env);
      RelayLeaves(w.server, w.queue[0], l.env, n);
    } else if l.TakeLine? {
      LineStep(w, l.env);
      LineLeaves(w.server, w.lines[0], l.env, n);
    } else {
      TurnsLeave(w, l, n);
    }
  }

  /** A shutdown leaves buffers, flags and clocks of every entry alone. */
  predicate Untouched(e: Entry, e': Entry) {
    && e'.child == e.child && e'.pid == e.pid && e'.buffer == e.buffer && e'.subscribed == e.subscribed
    && e'.lastStdin == e.lastStdin && e'.lastStdout == e.lastStdout
  }

  lemma ShutdownTouchesNone(w: World, plan: seq<(Name, Env)>, n: Name)
    requires n in w.server.procs
    ensures var s' := Step(w, ShutDown(plan)).server;
            n in s'.procs && Untouched(w.server.procs[n], s'.procs[n])
  {
    if Enabled(w, ShutDown(plan)) {
      var i := Place(plan, w.server.procs, n);
      ShutdownEntry(w, plan, i);
      KillTouchesNone(w.server.procs[n], plan[i].1);
    } else {
      DisabledStays(w, ShutDown(plan));
    }
  }

  lemma KillTouchesNone(e: Entry, env: Env)
    ensures Untouched(e, KillEntry(e, env).0)
  {
  }

  /**
   In every run, whatever the step, an entry that keeps its child has afterwards exactly what the label makes of
   it; in a shutdown, whose effect on what is known of the child is stated apart, the rest stays.
   */
  lemma {:induction false} EntryExactly(o: Oracle, run: seq<Label>, l: Label, n: Name)
    requires KeepsChild(Run(o, run).server, Step(Run(o, run), l).server, n)
    ensures var w, e' := Run(o, run), Step(Run(o, run), l).server.procs[n];
            if l.ShutDown? then Untouched(w.server.procs[n], e') else e' == StepEntry(w, l, n)
  {
    RunSettled(o, run);
    if l.ShutDown? {
      ShutdownTouchesNone(Run(o, run), l.plan, n);
    } else {
      StepLeavesEntry(Run(o, run), l, n);
    }
  }

  // ---- who is subscribed ----

  /**
   In every run an entry that keeps its child is subscribed after a step exactly when the step was a subscribe of its
   name; or it was subscribed before, and the step was no unsubscribe of its name, no connection was accepted or over, and
   no message for it met a closed channel.
   */
  lemma {:induction false} FlagsExactly(o: Oracle, run: seq<Label>, l: Label, n: Name)
    requires KeepsChild(Run(o, run).server, Step(Run(o, run), l).server, n)
    ensures var w := Run(o, run);
            Step(w, l).server.procs[n].subscribed <==>
            || Orders(w, l, Subscribe, n)
            || (&& w.server.procs[n].subscribed
                && !Orders(w, l, Unsubscribe, n)
                && !Turns(w, l)
                && !(Takes(w, l, n) && !ChannelOpen(w.server)))
  {
    EntryExactly(o, run, l, n);
  }

  // ---- clocks ----

  lemma StepClocks(w: World, l: Label, n: Name)
    requires n in w.server.procs && !l.ShutDown?
    ensures var e, e' := w.server.procs[n], StepEntry(w, l, n);
            && e'.lastStdin == (if FeedsSome(w, l, n) then l.env.t0 else e.lastStdin)
            && e'.lastStdout == (if Takes(w, l, n) && w.queue[0].body.OutLine? then l.env.t0 else e.lastStdout)
            && e'.pid == e.pid
  {
  }

  /** In every run a process's stdin clock moves exactly when it is written to, its stdout clock exactly when a line of its stdout is taken. */
  lemma {:induction false} ClocksExactly(o: Oracle, run: seq<Label>, l: Label, n: Name)
    requires KeepsChild(Run(o, run).server, Step(Run(o, run), l).server, n)
    ensures var w := Run(o, run);
            var e, e' := w.server.procs[n], Step(w, l).server.procs[n];
            && e'.lastStdin == (if FeedsSome(w, l, n) then l.env.t0 else e.lastStdin)
            && e'.lastStdout == (if Takes(w, l, n) && w.queue[0].body.OutLine? then l.env.t0 else e.lastStdout)
            && e'.pid == e.pid
  {
    EntryExactly(o, run, l, n);
    if !l.ShutDown? {
      StepClocks(Run(o, run), l, n);
    }
  }

  // ---- what is written to a child ----

  lemma NoStdin(s: Server, cmd: CmdMsg, env: Env)
    ensures forall e :: e in HandleCommand(s, cmd, env).events ==> !e.StdinWritten?
  {
    match cmd.verb {
      case Spawn =>
      case Kill => KillIsMute(s, cmd, env);
      case Subscribe =>
        if cmd.name in s.procs {
          var e := s.procs[cmd.name];
          ReplayShape(Put(s, cmd.name, e.(buffer := [], subscribed := true)), e.child, e.buffer);
        }
      case _ =>
    }
  }

  lemma KillIsMute(s: Server, cmd: CmdMsg, env: Env)
    ensures forall e :: e in CmdKill(s, cmd, env).events ==> !e.StdinWritten?
  {
  }

  lemma RelayIsMute(s: Server, item: Relay, env: Env)
    ensures forall e :: e in HandleRelay(s, item, env).events ==> !e.StdinWritten?
  {
  }

  lemma {:induction false} KillAllIsMute(s: Server, plan: seq<(Name, Env)>)
    ensures forall e :: e in KillAll(s, plan).events ==> !e.StdinWritten?
  {
    if plan != [] {
      var last := plan[|plan| - 1];
      KillAllIsMute(s, plan[..|plan| - 1]);
      ProcessIsMute(KillAll(s, plan[..|plan| - 1]).server, last.0, last.1);
    }
  }

  lemma ProcessIsMute(s: Server, n: Name, env: Env)
    ensures forall e :: e in KillProcess(s, n, env).events ==> !e.StdinWritten?
  {
  }

  lemma OthersFeedNothing(w: World, l: Label)
    requires !(l.TakeLine? && w.lines != [] && w.lines[0].Parsed? && w.lines[0].msg.Stdin?)
    ensures forall e :: e in NewEvents(w, l) ==> !e.StdinWritten?
  {
    match l {
      case TakeRelay(env) => if w.queue != [] { RelayIsMute(w.server, w.queue[0], env); }
      case TakeLine(env) =>
        if TakesCommand(w, l) {
          NoStdin(w.server, w.lines[0].msg.cmd, env);
        }
      case ShutDown(plan) => KillAllIsMute(w.server, plan);
      case _ =>
    }
  }

  /**
   In every run a step writes to the stdin of a child exactly when it takes a stdin line whose name is held by the
   running entry of that child and the pipe accepts it; what is written is what the line carries, once.
   */
  lemma {:induction false} StdinExactly(o: Oracle, run: seq<Label>, l: Label, x: nat, data: Json)
    ensures var w := Run(o, run);
            && w.trace <= Step(w, l).trace
            && (StdinWritten(x, data) in Step(w, l).trace[|w.trace|..]
                <==> exists n :: Feeds(w, l, n, data) && w.server.procs[n].child == x)
            && (forall n :: Feeds(w, l, n, data) ==>
                  Step(w, l).trace == w.trace + [StdinWritten(w.server.procs[n].child, data)])
  {
    var w := Run(o, run);
    StepTrace(w, l);
    assert Step(w, l).trace[|w.trace|..] == NewEvents(w, l);
    if l.TakeLine? && w.lines != [] && w.lines[0].Parsed? && w.lines[0].msg.Stdin? {
      var n := w.lines[0].msg.name;
      if StdinWritten(x, data) in NewEvents(w, l) {
        assert Feeds(w, l, n, data);
      }
    } else {
      OthersFeedNothing(w, l);
    }
  }

  // ---- what is delivered ----

  /** The wait that comes with an exit message, if it is the one that reaps the child. */
  function ReapNow(e: Entry, body: Body, env: Env): seq<Event> {
    if body.Ended? && e.reaped.None? && env.soon.Gone? then [Reaped(e.child, env.soon.code)] else []
  }

  /** The channel after one message. */
  function OneLess(ch: Channel): Channel {
    ch.(life := if ch.life.Some? && ch.life.value > 0 then Some(ch.life.value - 1) else ch.life)
  }

  /**
   A relay message for entry `e` is told to the client if and only if the entry was subscribed and the channel open: it goes to
   the current connection, once, and the entry stays subscribed with nothing buffered. If the channel was closed
   the entry ends up unsubscribed with that message alone in its buffer; if it was not subscribed its buffer grows by it.
   */
  ghost predicate Delivers(s: Server, s': Server, evs: seq<Event>, item: Relay, env: Env, msg: ServerMsg) {
    && item.name in s.procs && item.name in s'.procs
    && var e, e' := s.procs[item.name], s'.procs[item.name];
       var logged := ReapNow(e, item.body, env) + [Logged(e.child, item, msg)];
       && e'.child == e.child
       && (e.subscribed && ChannelOpen(s) ==>
             && s.client.value.conn + 1 == s.conns
             && evs == logged + [Sent(s.client.value.conn, e.child, msg)]
             && s'.client == Some(OneLess(s.client.value))
             && e'.subscribed && e'.buffer == [])
       && (!(e.subscribed && ChannelOpen(s)) ==> evs == logged && s'.client == s.client && !e'.subscribed)
       && (e.subscribed && !ChannelOpen(s) ==> e'.buffer == [msg])
       && (!e.subscribed ==> e'.buffer == e.buffer + [msg])
  }

  lemma RelayRecords(s: Server, item: Relay, env: Env)
    requires item.name in s.procs && (item.body.Ended? ==> item.body.code.None?)
    ensures var e, r := s.procs[item.name], HandleRelay(s, item, env);
            var msg := Told(item, Noted(e, item.body, env).exitCode);
            var sent := e.subscribed && ChannelOpen(s);
            && r.events == ReapNow(e, item.body, env) + [Logged(e.child, item, msg)]
                           + (if sent then [Sent(s.client.value.conn, e.child, msg)] else [])
            && r.server.client == if sent then Some(OneLess(s.client.value)) else s.client
  {
  }

  lemma RelayDelivers(s: Server, item: Relay, env: Env)
    requires Identities(s) && Subscriptions(s)
    requires item.name in s.procs && (item.body.Ended? ==> item.body.code.None?)
    ensures var r := HandleRelay(s, item, env);
            Delivers(s, r.server, r.events, item, env, Told(item, Noted(s.procs[item.name], item.body, env).exitCode))
  {
    RelayRecords(s, item, env);
    RelayLeaves(s, item, env, item.name);
  }

  /**
   In every run a relay message whose name is in the table is delivered in the step that takes it as `Delivers` says.
   What is told is what the relay message carries; an exit is told with the code of the child's one reap, or without one
   when the child has not been reaped by then.
   */
  lemma {:induction false} DeliveredExactly(o: Oracle, run: seq<Label>, env: Env)
    requires Enabled(Run(o, run), TakeRelay(env)) && Run(o, run).queue[0].name in Run(o, run).server.procs
    ensures var w, w' := Run(o, run), Step(Run(o, run), TakeRelay(env));
            var item := w.queue[0];
            && w.trace <= w'.trace
            && Delivers(w.server, w'.server, w'.trace[|w.trace|..], item, env,
                        Told(item, CodeOf(Reaps(w.server.procs[item.name].child, w'.trace))))
  {
    var w, l := Run(o, run), TakeRelay(env);
    var item := w.queue[0];
    RunSettled(o, run);
    assert Fits(w.children, item);
    RelayDelivers(w.server, item, env);
    RelayStep(w, env);
    RelayLeaves(w.server, item, env, item.name);
    CodeAfter(o, run, l, item.name);
  }

  /** What an entry shows after a step is the code of its child's one reap. */
  lemma CodeAfter(o: Oracle, run: seq<Label>, l: Label, n: Name)
    requires n in Step(Run(o, run), l).server.procs
    ensures var w' := Step(Run(o, run), l);
            w'.server.procs[n].exitCode == CodeOf(Reaps(w'.server.procs[n].child, w'.trace))
  {
    assert (run + [l])[..|run|] == run;
    RunSettled(o, run + [l]);
    var w' := Run(o, run + [l]);
    assert Known(w'.server.procs[n], Reaps(w'.server.procs[n].child, w'.trace));
  }

  /** In every run the code of an entry in the table is that of its child's one reap: none before it, none after a signal. */
  lemma {:induction false} CodesExactly(o: Oracle, run: seq<Label>, n: Name)
    requires n in Run(o, run).server.procs
    ensures var w := Run(o, run);
            var e := w.server.procs[n];
            && |Reaps(e.child, w.trace)| <= 1
            && e.exitCode == CodeOf(Reaps(e.child, w.trace))
            && (e.status == Running ==> Reaps(e.child, w.trace) == [])
  {
    RunSettled(o, run);
    assert Known(Run(o, run).server.procs[n], Reaps(Run(o, run).server.procs[n].child, Run(o, run).trace));
  }

  /** A message for a name that is not in the table changes nothing but the record. */
  lemma {:induction false} DiscardedExactly(o: Oracle, run: seq<Label>, env: Env)
    requires Enabled(Run(o, run), TakeRelay(env)) && Run(o, run).queue[0].name !in Run(o, run).server.procs
    ensures var w, w' := Run(o, run), Step(Run(o, run), TakeRelay(env));
            w'.server == w.server && w'.trace == w.trace + [Discarded(w.queue[0])]
  {
    StepTrace(Run(o, run), TakeRelay(env));
  }

  // ---- who is in the table ----

  /** A spawn finds its name free, or held by a process that has exited. */
  predicate SpawnsAnew(w: World, l: Label, n: Name) {
    && Orders(w, l, Spawn, n)
    && !(n in w.server.procs && w.server.procs[n].status == Running)
  }

  lemma SpawnTables(s: Server, cmd: CmdMsg, env: Env, n: Name)
    requires Identities(s)
    ensures var s' := CmdSpawn(s, cmd, env).server;
            var anew := cmd.name == n && !(n in s.procs && s.procs[n].status == Running);
            && (n in s'.procs <==> if anew then env.spawn.Started? else n in s.procs)
            && (n in s'.procs && anew ==> s'.procs[n] == Fresh(s.spawns, env))
            && (n in s'.procs && !anew ==> s'.procs[n].child == s.procs[n].child)
  {
    if !(cmd.name in s.procs && s.procs[cmd.name].status == Running) {
      FreshTables(Remove(s, cmd.name).server, cmd, env, n);
    }
  }

  lemma FreshTables(s: Server, cmd: CmdMsg, env: Env, n: Name)
    requires cmd.name !in s.procs
    ensures var s' := SpawnFresh(s, cmd, env).server;
            && (n in s'.procs <==> if n == cmd.name then env.spawn.Started? else n in s.procs)
            && (n in s'.procs && n == cmd.name ==> s'.procs[n] == Fresh(s.spawns, env))
            && (n in s'.procs && n != cmd.name ==> s'.procs[n] == s.procs[n])
  {
  }

  /** A process that has just been spawned: running, unread, unsubscribed. */
  function Fresh(child: nat, env: Env): Entry {
    Entry(child, if env.spawn.Started? then env.spawn.pid else 0, None, Running, None, [], false, env.t0, env.t1, true, true)
  }

  /** Other commands keep every name and child. */
  lemma OtherLineTables(s: Server, line: Line, env: Env, n: Name)
    requires !(line.Parsed? && line.msg.Cmd? && (line.msg.cmd.verb.Spawn? || line.msg.cmd.verb.Kill?))
    ensures n in HandleLine(s, line, env).server.procs <==> n in s.procs
    ensures n in s.procs ==> KeepsChild(s, HandleLine(s, line, env).server, n)
  {
    if line.Parsed? && line.msg.Cmd? && line.msg.cmd.verb.Subscribe? {
      SubscribeKeys(s, line.msg.cmd);
      if n in s.procs {
        SubscribeLeaves(s, line.msg.cmd, n);
      }
    }
  }

  lemma LineTables(w: World, env: Env, n: Name)
    requires Identities(w.server) && Enabled(w, TakeLine(env))
    ensures var l, s' := TakeLine(env), HandleLine(w.server, w.lines[0], env).server;
            && (n in s'.procs <==>
                  if SpawnsAnew(w, l, n) then env.spawn.Started?
                  else n in w.server.procs && !Orders(w, l, Kill, n))
            && (n in s'.procs ==>
                  if SpawnsAnew(w, l, n) then s'.procs[n] == Fresh(w.server.spawns, env) else KeepsChild(w.server, s', n))
  {
    var s, line := w.server, w.lines[0];
    if line.Parsed? && line.msg.Cmd? && line.msg.cmd.verb.Spawn? {
      SpawnTables(s, line.msg.cmd, env, n);
    } else if line.Parsed? && line.msg.Cmd? && line.msg.cmd.verb.Kill? {
      KillRemovesExactly(s, line.msg.cmd, env);
    } else {
      OtherLineTables(s, line, env, n);
    }
  }

  lemma SubscribeKeys(s: Server, cmd: CmdMsg)
    ensures CmdSubscribe(s, cmd).server.procs.Keys == s.procs.Keys
  {
    if cmd.name in s.procs {
      var e := s.procs[cmd.name];
      ReplayShape(Put(s, cmd.name, e.(buffer := [], subscribed := true)), e.child, e.buffer);
    }
  }

  lemma OthersTable(w: World, l: Label, n: Name)
    requires !l.TakeLine?
    ensures n in Step(w, l).server.procs <==> n in w.server.procs
    ensures n in w.server.procs ==> KeepsChild(w.server, Step(w, l).server, n)
  {
    match l {
      case TakeRelay(env) => if w.queue != [] { RelayLineage(w.server, w.queue[0], env); }
      case ShutDown(plan) => KillAllSpares(w.server, plan);
      case _ =>
    }
  }

  /**
   In every run a name leaves the table by a kill of it or a spawn over its exited process, and enters by a spawn that
   starts; a new entry is running, unsubscribed, with nothing buffered and the child and pid of that spawn. All others keep
   their child.
   */
  lemma {:induction false} TableExactly(o: Oracle, run: seq<Label>, l: Label, n: Name)
    ensures var w, s, s' := Run(o, run), Run(o, run).server, Step(Run(o, run), l).server;
            && (n in s'.procs <==>
                  if SpawnsAnew(w, l, n) then l.env.spawn.Started?
                  else n in s.procs && !Orders(w, l, Kill, n))
            && (n in s'.procs ==>
                  if SpawnsAnew(w, l, n) then s'.procs[n] == Fresh(s.spawns, l.env) else KeepsChild(s, s', n))
  {
    var w := Run(o, run);
    RunSettled(o, run);
    if l.TakeLine? {
      if Enabled(w, l) {
        LineStep(w, l.env);
        LineTables(w, l.env, n);
      } else {
        DisabledStays(w, l);
      }
    } else {
      OthersTable(w, l, n);
    }
  }
}
