/** Short runs that show where stronger statements about the Rust server are false. */
module RustWitnesses {
  import opened Protocol
  import opened Sequences
  import opened StreamRelay
  import opened RustServer
  import opened RustRecord
  import opened RustWorld
  import opened RustDepartures
  import opened RustTheorems
  import L = RelayLog

  /** No line is JSON, and trimming does nothing. */
  function PlainText(): Oracle {
    Oracle(s => s, s => None)
  }

  function Command(verb: Verb, name: Name): Line {
    Parsed(Cmd(CmdMsg(verb, name, ["run"])))
  }

  /** Everything the server asks for succeeds, and children go away at once or, if `stubborn`, not in time. */
  function Obliging(stubborn: bool): Env {
    Env(0, 0, Started(1), None, None, if stubborn then NotYet else Gone(Some(0)), NotYet, true, 0)
  }

  lemma RunSplit(o: Oracle, run: seq<Label>, l: Label)
    ensures Run(o, run + [l]) == Step(Run(o, run), l)
  {
    assert (run + [l])[..|run|] == run;
  }

  /** A client connects and spawns a process. */
  function Begin(life: Option<nat>): seq<Label> {
    [Accept(life), ClientWrites(Command(Spawn, "p")), TakeLine(Obliging(false))]
  }

  /** The connection is open with an empty line queue, and nothing else is under way. */
  ghost predicate Resting(w: World) {
    w.mode == Serving && w.lines == [] && !w.lineEof && w.queue == [] && w.now == 0 && w.oracle == PlainText()
  }

  lemma Accepted(life: Option<nat>)
    ensures var w := Step(Start(PlainText()), Accept(life));
            && Resting(w) && w.children == []
            && w.server == Server(map[], Some(Channel(0, life)), 1, 0)
  {
    assert Unsubscribed(map[]) == map[];
  }

  lemma SpawnHandled(s: Server)
    requires s.procs == map[] && s.spawns == 0
    ensures var r := HandleLine(s, Command(Spawn, "p"), Obliging(false));
            && r.server.procs == map["p" := NewEntry(0, 1, 0, 0)] && r.server.spawns == 1
            && |r.events| == 2 && r.events[0] == Spawned(0, "p") && r.events[1].Answered?
            && (s.client == Some(Channel(0, None)) || s.client == Some(Channel(0, Some(0))) ==> r.server.client == s.client)
            && (s.client == Some(Channel(0, Some(1))) ==> r.server.client == Some(Channel(0, Some(0))))
  {
  }

  lemma SpawnTaken(w: World)
    requires Resting(w) && w.children == [] && w.server.procs == map[] && w.server.spawns == 0
    ensures var w' := Step(Step(w, ClientWrites(Command(Spawn, "p"))), TakeLine(Obliging(false)));
            && Resting(w') && |w'.children| == 1 && w'.children[0].name == "p"
            && w'.children[0].out == Task(Active, []) && w'.children[0].err == Task(Active, [])
            && w'.server == HandleLine(w.server, Command(Spawn, "p"), Obliging(false)).server
  {
    SpawnHandled(w.server);
    assert Step(w, ClientWrites(Command(Spawn, "p"))).lines == [Command(Spawn, "p")];
  }

  lemma AfterBegin(life: Option<nat>)
    requires life.None? || life == Some(0) || life == Some(1)
    ensures var w := Run(PlainText(), Begin(life));
            && Resting(w)
            && |w.children| == 1 && w.children[0].name == "p"
            && w.children[0].out == Task(Active, []) && w.children[0].err == Task(Active, [])
            && w.server.procs == map["p" := NewEntry(0, 1, 0, 0)] && w.server.spawns == 1
            && w.server.client == Some(Channel(0, if life == Some(1) then Some(0) else life))
  {
    var o, r := PlainText(), Begin(life);
    RunSplit(o, r[..0], r[0]);
    RunSplit(o, r[..1], r[1]);
    RunSplit(o, r[..2], r[2]);
    assert r[..0] + [r[0]] == r[..1] && r[..1] + [r[1]] == r[..2] && r[..2] + [r[2]] == r;
    Accepted(life);
    SpawnTaken(Run(o, r[..1]));
    SpawnHandled(Run(o, r[..1]).server);
  }

  lemma ExitsUnreaped(s: Server)
    requires s.procs == map["p" := NewEntry(0, 1, 0, 0)]
    ensures var r := HandleRelay(s, Relay("p", 0, OutStream, Ended(None)), Obliging(true)).server;
            "p" in r.procs && r.procs["p"].status == Exited && r.procs["p"].reaped.None?
  {
  }

  /** Marked exited while the child has not been reaped: here it closed its stdout and lives on. */
  lemma ExitedIsNotGone()
    ensures exists o, run ::
              && "p" in Run(o, run).server.procs
              && Run(o, run).server.procs["p"].status == Exited
              && Run(o, run).server.procs["p"].reaped.None?
  {
    var o, run := PlainText(), Begin(None);
    AfterBegin(None);
    RunSplit(o, run, ChildWrites(0, OutStream, Eof));
    RunSplit(o, run + [ChildWrites(0, OutStream, Eof)], TakeRelay(Obliging(true)));
    ExitTaken(Run(o, run));
    var run' := run + [ChildWrites(0, OutStream, Eof)] + [TakeRelay(Obliging(true))];
    assert Run(o, run').server.procs["p"].status == Exited;
  }

  /** Its stdout ends, and the main task takes the message. */
  lemma ExitTaken(w: World)
    requires w.server.procs == map["p" := NewEntry(0, 1, 0, 0)] && w.mode == Serving && w.queue == [] && w.now == 0
    requires |w.children| == 1 && w.children[0].name == "p" && w.children[0].out == Task(Active, [])
    ensures var s := Step(Step(w, ChildWrites(0, OutStream, Eof)), TakeRelay(Obliging(true))).server;
            "p" in s.procs && s.procs["p"].status == Exited && s.procs["p"].reaped.None?
  {
    var mid := Step(w, ChildWrites(0, OutStream, Eof));
    assert mid.queue == [Relay("p", 0, OutStream, Ended(None))];
    ExitsUnreaped(mid.server);
  }

  /** The client's next line is written and handled. */
  lemma LineHandled(w: World, line: Line, env: Env)
    requires w.mode == Serving && w.lines == [] && !w.lineEof && Timely(w, env) && !Panics(w.server, line)
    ensures var w' := Step(Step(w, ClientWrites(line)), TakeLine(env));
            var r := HandleLine(w.server, line, env);
            && w'.server == r.server && w'.mode == Serving && w'.lines == [] && !w'.lineEof
            && w'.queue == w.queue && w'.now == env.t1
            && w'.trace == w.trace + [Arrived(Peer(w.server), line)] + r.events
  {
    var mid := Step(w, ClientWrites(line));
    assert mid.lines == [line];
  }

  lemma RunLine(o: Oracle, run: seq<Label>, line: Line, env: Env)
    ensures Run(o, run + [ClientWrites(line)] + [TakeLine(env)]) ==
            Step(Step(Run(o, run), ClientWrites(line)), TakeLine(env))
  {
    RunSplit(o, run, ClientWrites(line));
    RunSplit(o, run + [ClientWrites(line)], TakeLine(env));
  }

  const STRAY := Relay("p", 0, ErrStream, TextLine("x"))

  function Written(life: Option<nat>): seq<Label> {
    Begin(life) + [ChildWrites(0, ErrStream, Text("x"))]
  }

  lemma StderrQueued(w: World)
    requires Resting(w) && |w.children| == 1 && w.children[0].name == "p" && w.children[0].err == Task(Active, [])
    ensures var w' := Step(w, ChildWrites(0, ErrStream, Text("x")));
            && w'.mode == Serving && w'.lines == [] && !w'.lineEof && w'.now == 0
            && w'.queue == [STRAY] && w'.server == w.server && w'.trace == w.trace
  {
  }

  /** The process has written a line to stderr, which is queued. */
  lemma AfterWritten(life: Option<nat>)
    requires life.None? || life == Some(0) || life == Some(1)
    ensures var w, w0 := Run(PlainText(), Written(life)), Run(PlainText(), Begin(life));
            && w.mode == Serving && w.lines == [] && !w.lineEof && w.now == 0
            && w.queue == [STRAY] && w.server == w0.server && w.trace == w0.trace
  {
    AfterBegin(life);
    RunSplit(PlainText(), Begin(life), ChildWrites(0, ErrStream, Text("x")));
    StderrQueued(Run(PlainText(), Begin(life)));
  }

  function BufferedThen(): seq<Label> {
    Written(Some(1)) + [TakeRelay(Obliging(false))]
  }

  /** The line is buffered, and the channel, which took one result, has closed. */
  lemma AfterBuffered()
    ensures var w := Run(PlainText(), BufferedThen());
            && w.mode == Serving && w.lines == [] && !w.lineEof && w.now == 0
            && "p" in w.server.procs && w.server.procs["p"].child == 0
            && w.server.procs["p"].buffer == [Stderr("p", "x")]
            && w.server.client == Some(Channel(0, Some(0)))
  {
    AfterBegin(Some(1));
    AfterWritten(Some(1));
    RunSplit(PlainText(), Written(Some(1)), TakeRelay(Obliging(false)));
  }

  /** A buffer drained by a subscribe on a channel that has closed unnoticed is lost. */
  lemma SubscribeCanLose()
    ensures exists o, run :: LostBy(0, Run(o, run).trace) != []
  {
    var o, line, env := PlainText(), Command(Subscribe, "p"), Obliging(false);
    AfterBuffered();
    RunLine(o, BufferedThen(), line, env);
    LateSubscribe(Run(o, BufferedThen()), Stderr("p", "x"), env);
    assert LostBy(0, Run(o, BufferedThen() + [ClientWrites(line)] + [TakeLine(env)]).trace) != [];
  }

  lemma LateSubscribe(w: World, msg: ServerMsg, env: Env)
    requires w.mode == Serving && w.lines == [] && !w.lineEof && Timely(w, env)
    requires "p" in w.server.procs && w.server.procs["p"].child == 0 && w.server.procs["p"].buffer == [msg]
    requires w.server.client == Some(Channel(0, Some(0)))
    ensures LostBy(0, Step(Step(w, ClientWrites(Command(Subscribe, "p"))), TakeLine(env)).trace) != []
  {
    var line := Command(Subscribe, "p");
    LineHandled(w, line, env);
    ClosedReplay(w.server, msg, env);
    var tr, events := w.trace + [Arrived(Peer(w.server), line)], HandleLine(w.server, line, env).events;
    assert tr + events == tr + [events[0]] + [events[1]];
    LosesSome(tr, msg, events[1]);
  }

  lemma ClosedReplay(s: Server, msg: ServerMsg, env: Env)
    requires "p" in s.procs && s.procs["p"].child == 0 && s.procs["p"].buffer == [msg]
    requires s.client == Some(Channel(0, Some(0)))
    ensures var events := HandleLine(s, Command(Subscribe, "p"), env).events;
            |events| == 2 && events[0] == Lost(0, msg) && events[1].Answered?
  {
    var e := s.procs["p"];
    ReplayExact(Put(s, "p", e.(buffer := [], subscribed := true)), 0, [msg]);
    assert [msg][..0] == [] && [msg][0..] == [msg];
  }

  lemma LosesSome(tr: seq<Event>, msg: ServerMsg, last: Event)
    requires last.Answered?
    ensures LostBy(0, tr + [Lost(0, msg)] + [last]) != []
  {
    MarksLast(0, tr, Lost(0, msg));
    MarksLast(0, tr + [Lost(0, msg)], last);
    var marks := Marks(0, tr + [Lost(0, msg)] + [last]);
    assert marks[|marks| - 1] == L.Lose(msg);
  }

  function Respawned(): seq<Label> {
    Written(None)
    + [ClientWrites(Command(Kill, "p"))] + [TakeLine(Obliging(false))]
    + [ClientWrites(Command(Spawn, "p"))] + [TakeLine(Obliging(false))]
  }

  /** The process was killed and its name spawned again, with the old line still queued. */
  lemma AfterRespawned()
    ensures var w := Run(PlainText(), Respawned());
            && w.mode == Serving && w.now == 0 && w.queue == [STRAY]
            && w.server.procs == map["p" := NewEntry(1, 1, 0, 0)]
  {
    var o := PlainText();
    AfterBegin(None);
    AfterWritten(None);
    var w := Run(o, Written(None));
    RunLine(o, Written(None), Command(Kill, "p"), Obliging(false));
    LineHandled(w, Command(Kill, "p"), Obliging(false));
    var killed := Written(None) + [ClientWrites(Command(Kill, "p"))] + [TakeLine(Obliging(false))];
    var w' := Run(o, killed);
    KillsOnly(w.server);
    RunLine(o, killed, Command(Spawn, "p"), Obliging(false));
    LineHandled(w', Command(Spawn, "p"), Obliging(false));
  }

  lemma KillsOnly(s: Server)
    requires s.procs == map["p" := NewEntry(0, 1, 0, 0)]
    ensures var r := HandleLine(s, Command(Kill, "p"), Obliging(false)).server;
            r.procs == map[] && r.spawns == s.spawns
  {
  }

  /** A line queued before a kill and a respawn is logged for the new process. */
  lemma ForeignMessageHappens()
    ensures exists o, run, i ::
              0 <= i < |Run(o, run).trace| && Run(o, run).trace[i].Logged?
              && Run(o, run).trace[i].item.child < Run(o, run).trace[i].entry
  {
    var o := PlainText();
    AfterRespawned();
    var w := Run(o, Respawned());
    var run := Respawned() + [TakeRelay(Obliging(false))];
    RunSplit(o, Respawned(), TakeRelay(Obliging(false)));
    assert HandleRelay(w.server, STRAY, Obliging(false)).events == [Logged(1, STRAY, Stderr("p", "x"))];
    assert Run(o, run).trace[|w.trace|] == Logged(1, STRAY, Stderr("p", "x"));
  }

  // ---- what a respawn takes away ----

  const CODE := Some(0)

  lemma ExitBuffered(w: World)
    requires w.server.procs == map["p" := NewEntry(0, 1, 0, 0)] && Resting(w)
    requires |w.children| == 1 && w.children[0].name == "p" && w.children[0].out == Task(Active, [])
    ensures var w' := Step(Step(w, ChildWrites(0, OutStream, Eof)), TakeRelay(Obliging(false)));
            && w'.mode == Serving && w'.lines == [] && !w'.lineEof && w'.now == 0
            && "p" in w'.server.procs && w'.server.procs["p"].child == 0 && w'.server.procs["p"].status == Exited
            && w'.server.procs["p"].buffer == [Exit("p", CODE)]
  {
    var mid := Step(w, ChildWrites(0, OutStream, Eof));
    assert mid.queue == [Relay("p", 0, OutStream, Ended(None))];
  }

  lemma RespawnTakesOut(s: Server, env: Env)
    requires "p" in s.procs && s.procs["p"].status == Exited
    ensures var events := HandleLine(s, Command(Spawn, "p"), env).events;
            && |events| > 0 && events[0] == Forgotten(s.procs["p"].child, "p", s.procs["p"].buffer)
            && forall i :: 0 < i < |events| ==> !events[i].Forgotten?
  {
  }

  lemma ForgottenOnce(x: nat, tr: seq<Event>, first: Event, rest: seq<Event>)
    requires Forgets(x, tr) == [] && first.Forgotten? && first.entry == x
    requires forall i :: 0 <= i < |rest| ==> !rest[i].Forgotten?
    ensures Forgets(x, tr + [first] + rest) == [first.msgs]
  {
    TableLast(x, tr, first);
    ForgetsSkip(x, tr + [first], rest);
  }

  lemma {:induction false} ForgetsSkip(x: nat, tr: seq<Event>, evs: seq<Event>)
    requires forall i :: 0 <= i < |evs| ==> !evs[i].Forgotten?
    ensures Forgets(x, tr + evs) == Forgets(x, tr)
  {
    if evs == [] {
      assert tr + evs == tr;
    } else {
      var init, e := evs[..|evs| - 1], evs[|evs| - 1];
      ForgetsSkip(x, tr, init);
      TableLast(x, tr + init, e);
      LastApart(tr, evs);
    }
  }

  function Exited0(): seq<Label> {
    Begin(None) + [ChildWrites(0, OutStream, Eof)] + [TakeRelay(Obliging(false))]
  }

  /** The process has exited, its exit is buffered, and nothing has been forgotten. */
  lemma AfterExited0()
    ensures var w := Run(PlainText(), Exited0());
            && w.mode == Serving && w.lines == [] && !w.lineEof && w.now == 0
            && "p" in w.server.procs && w.server.procs["p"].child == 0 && w.server.procs["p"].status == Exited
            && w.server.procs["p"].buffer == [Exit("p", CODE)] && Forgets(0, w.trace) == []
  {
    var o, env := PlainText(), Obliging(false);
    AfterBegin(None);
    ExitBuffered(Run(o, Begin(None)));
    RunSplit(o, Begin(None), ChildWrites(0, OutStream, Eof));
    RunSplit(o, Begin(None) + [ChildWrites(0, OutStream, Eof)], TakeRelay(env));
    LogRefinement(o, Exited0(), 0, 0);
    assert InTable(Run(o, Exited0()).server, 0);
  }

  /** An exit nobody has been told of is forgotten when its name is spawned again. */
  lemma RespawnForgets()
    ensures exists o, run :: Forgets(0, Run(o, run).trace) == [[Exit("p", CODE)]]
  {
    var o, line, env := PlainText(), Command(Spawn, "p"), Obliging(false);
    AfterExited0();
    RunLine(o, Exited0(), line, env);
    RespawnedLate(Run(o, Exited0()));
    assert Forgets(0, Run(o, Exited0() + [ClientWrites(line)] + [TakeLine(env)]).trace) == [[Exit("p", CODE)]];
  }

  lemma RespawnedLate(w: World)
    requires w.mode == Serving && w.lines == [] && !w.lineEof && w.now == 0
    requires "p" in w.server.procs && w.server.procs["p"].child == 0 && w.server.procs["p"].status == Exited
    requires Forgets(0, w.trace) == []
    ensures Forgets(0, Step(Step(w, ClientWrites(Command(Spawn, "p"))), TakeLine(Obliging(false))).trace) ==
            [w.server.procs["p"].buffer]
  {
    var line, env := Command(Spawn, "p"), Obliging(false);
    LineHandled(w, line, env);
    RespawnTakesOut(w.server, env);
    var arrived, events := Arrived(Peer(w.server), line), HandleLine(w.server, line, env).events;
    TableLast(0, w.trace, arrived);
    ForgottenOnce(0, w.trace + [arrived], events[0], events[1..]);
    assert w.trace + [arrived] + events == w.trace + [arrived] + [events[0]] + events[1..];
  }

  // ---- an exit taken for a successor ----

  function Closed0(): seq<Label> {
    Begin(None) + [ChildWrites(0, OutStream, Eof)]
  }

  lemma EofQueued(w: World)
    requires Resting(w) && |w.children| == 1 && w.children[0].name == "p" && w.children[0].out == Task(Active, [])
    ensures var w' := Step(w, ChildWrites(0, OutStream, Eof));
            && w'.mode == Serving && w'.lines == [] && !w'.lineEof && w'.now == 0 && |w'.children| == 1
            && w'.queue == [Relay("p", 0, OutStream, Ended(None))] && w'.server == w.server
  {
  }

  /** A spawn adds a child whose stdout is open. */
  lemma SpawnOpens(w: World)
    requires w.mode == Serving && w.lines == [] && !w.lineEof && w.now == 0 && w.server.procs == map[]
    ensures var w' := Step(Step(w, ClientWrites(Command(Spawn, "p"))), TakeLine(Obliging(false)));
            && w'.mode == Serving && w'.now == 0 && w'.queue == w.queue
            && w'.server.procs == map["p" := NewEntry(w.server.spawns, 1, 0, 0)]
            && |w'.children| == |w.children| + 1 && w'.children[|w.children|].out == Task(Active, [])
  {
    var line := Command(Spawn, "p");
    LineHandled(w, line, Obliging(false));
    assert Step(w, ClientWrites(line)).lines == [line];
  }

  lemma KillEmpties(w: World)
    requires w.mode == Serving && w.lines == [] && !w.lineEof && w.now == 0
    requires w.server.procs == map["p" := NewEntry(0, 1, 0, 0)]
    ensures var w' := Step(Step(w, ClientWrites(Command(Kill, "p"))), TakeLine(Obliging(false)));
            && w'.mode == Serving && w'.lines == [] && !w'.lineEof && w'.now == 0 && w'.queue == w.queue
            && w'.server.procs == map[] && w'.server.spawns == w.server.spawns && |w'.children| == |w.children|
  {
    LineHandled(w, Command(Kill, "p"), Obliging(false));
    KillsOnly(w.server);
    assert Step(w, ClientWrites(Command(Kill, "p"))).lines == [Command(Kill, "p")];
  }

  lemma MarksSuccessor(w: World)
    requires w.mode == Serving && w.now == 0 && w.queue == [Relay("p", 0, OutStream, Ended(None))]
    requires w.server.procs == map["p" := NewEntry(1, 1, 0, 0)]
    ensures var w' := Step(w, TakeRelay(Obliging(true)));
            && "p" in w'.server.procs && w'.server.procs["p"].child == 1
            && w'.server.procs["p"].status == Exited && w'.server.procs["p"].reaped.None?
            && |w'.children| == |w.children|
            && forall c :: 0 <= c < |w.children| ==> w'.children[c].out == w.children[c].out
  {
  }

  function Succeeded(): seq<Label> {
    Closed0() + [ClientWrites(Command(Kill, "p"))] + [TakeLine(Obliging(false))]
    + [ClientWrites(Command(Spawn, "p"))] + [TakeLine(Obliging(false))]
  }

  /** The process was killed and its name spawned again, with its exit still queued. */
  lemma AfterSucceeded()
    ensures var w := Run(PlainText(), Succeeded());
            && w.mode == Serving && w.now == 0 && w.queue == [Relay("p", 0, OutStream, Ended(None))]
            && w.server.procs == map["p" := NewEntry(1, 1, 0, 0)]
            && |w.children| == 2 && w.children[1].out == Task(Active, [])
  {
    var o, kill, spawn, env := PlainText(), Command(Kill, "p"), Command(Spawn, "p"), Obliging(false);
    var killed := Closed0() + [ClientWrites(kill)] + [TakeLine(env)];
    AfterBegin(None);
    RunSplit(o, Begin(None), ChildWrites(0, OutStream, Eof));
    EofQueued(Run(o, Begin(None)));
    RunLine(o, Closed0(), kill, env);
    KillEmpties(Run(o, Closed0()));
    RunLine(o, killed, spawn, env);
    SpawnOpens(Run(o, killed));
  }

  /** The exit a killed process had queued marks its successor exited, whose own stdout is open. */
  lemma SuccessorMarkedExited()
    ensures exists o, run ::
              var w := Run(o, run);
              && "p" in w.server.procs && w.server.procs["p"].child == 1
              && w.server.procs["p"].status == Exited && w.server.procs["p"].reaped.None?
              && |w.children| == 2 && w.children[1].out == Task(Active, [])
  {
    var o, l := PlainText(), TakeRelay(Obliging(true));
    AfterSucceeded();
    RunSplit(o, Succeeded(), l);
    MarksSuccessor(Run(o, Succeeded()));
    assert Run(o, Succeeded() + [l]).server.procs["p"].child == 1;
  }
}
