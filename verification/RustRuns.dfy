/** What holds in every reachable state of the Rust server and its relay tasks. */
module RustRuns {
  import opened Protocol
  import opened StreamRelay
  import opened RustServer
  import opened RustRecord
  import opened RustMoves
  import opened RustHandlers
  import opened RustWorld

  // ---- where entries come from ----

  /** Every entry was there before with the same child, or belongs to a child spawned since. */
  ghost predicate Lineage(s: Server, s': Server) {
    && s'.spawns >= s.spawns
    && forall n :: n in s'.procs ==>
         || (n in s.procs && s'.procs[n].child == s.procs[n].child)
         || s'.procs[n].child >= s.spawns
  }

  lemma MoveLineage(s: Server, m: Move)
    requires Allowed(s, m)
    ensures Lineage(s, Do(s, m).server)
  {
    if m.Drain? {
      var e := s.procs[m.name];
      ReplayShape(Put(s, m.name, e.(buffer := [], subscribed := true)), e.child, e.buffer);
    }
  }

  lemma LineageTwice(s: Server, mid: Server, s': Server)
    requires Lineage(s, mid) && Lineage(mid, s')
    ensures Lineage(s, s')
  {
  }

  lemma {:induction false} ChainLineage(s: Server, moves: seq<Move>)
    requires Legal(s, moves)
    ensures Lineage(s, Chain(s, moves).server)
  {
    if moves != [] {
      var before, m := Chain(s, moves[..|moves| - 1]).server, moves[|moves| - 1];
      ChainLineage(s, moves[..|moves| - 1]);
      MoveLineage(before, m);
      LineageTwice(s, before, Do(before, m).server);
    }
  }

  // ---- modes ----

  /** Inside `handle_client` there is a client; outside it there is none, and nothing is subscribed. */
  ghost predicate Modes(w: World) {
    && (w.mode == Serving ==> w.server.client.Some?)
    && (w.mode == Outer || w.mode == Finished ==>
          w.server.client.None? && forall n :: n in w.server.procs ==> !w.server.procs[n].subscribed)
  }

  lemma LineKeepsClient(s: Server, line: Line, env: Env)
    ensures HandleLine(s, line, env).server.client.Some? <==> s.client.Some?
  {
    if line.Parsed? && line.msg.Cmd? && line.msg.cmd.verb.Subscribe? && line.msg.cmd.name in s.procs {
      var cmd := line.msg.cmd;
      var e := s.procs[cmd.name];
      ReplayShape(Put(s, cmd.name, e.(buffer := [], subscribed := true)), e.child, e.buffer);
    }
  }

  /** Nothing gets subscribed, and the client stays or stays away. */
  ghost predicate SubscribesNone(s: Server, s': Server) {
    && (s'.client.Some? <==> s.client.Some?)
    && forall n :: n in s'.procs && s'.procs[n].subscribed ==> n in s.procs && s.procs[n].subscribed
  }

  lemma PassSubscribesNone(s: Server, item: Relay, msg: ServerMsg)
    ensures SubscribesNone(s, RelayOrBuffer(s, item, msg).server)
  {
  }

  lemma PutSubscribesNone(s: Server, name: Name, e: Entry, item: Relay, msg: ServerMsg)
    requires name in s.procs && e.subscribed == s.procs[name].subscribed
    ensures SubscribesNone(s, RelayOrBuffer(Put(s, name, e), item, msg).server)
  {
    PassSubscribesNone(Put(s, name, e), item, msg);
  }

  lemma RelayKeepsClient(s: Server, item: Relay, env: Env)
    ensures SubscribesNone(s, HandleRelay(s, item, env).server)
  {
    if item.name in s.procs {
      var e := s.procs[item.name];
      match item.body {
        case OutLine(data) => PutSubscribesNone(s, item.name, e.(lastStdout := env.t0), item, Stdout(item.name, data));
        case TextLine(text) => PassSubscribesNone(s, item, Stderr(item.name, text));
        case Ended(code) =>
          var settled := Settle(e, code, env.soon).0;
          PutSubscribesNone(s, item.name, settled, item, Exit(item.name, settled.exitCode));
      }
    }
  }

  lemma StepKeepsModes(w: World, l: Label)
    requires Modes(w)
    ensures Modes(Step(w, l))
  {
    match l {
      case TakeRelay(env) =>
        if w.queue != [] {
          RelayKeepsClient(w.server, w.queue[0], env);
        }
      case TakeLine(env) =>
        if w.lines != [] {
          LineKeepsClient(w.server, w.lines[0], env);
        }
      case ShutDown(plan) =>
        KillAllSpares(w.server, plan);
      case _ =>
    }
  }

  // ---- children and the relay queue ----

  /** Entry `n` runs a child spawned under the name `n`. */
  ghost predicate Family(w: World) {
    && |w.children| == w.server.spawns
    && forall n :: n in w.server.procs ==>
         w.server.procs[n].child < |w.children| && w.children[w.server.procs[n].child].name == n
  }

  /** A relay message carries its child's name; an exit comes from stdout, and without a code. */
  ghost predicate Fits(children: seq<Child>, item: Relay) {
    && item.child < |children|
    && item.name == children[item.child].name
    && (item.body.Ended? ==> item.stream == OutStream && item.body.code.None?)
  }

  ghost predicate QueueFits(w: World) {
    forall i :: 0 <= i < |w.queue| ==> Fits(w.children, w.queue[i])
  }

  /** What only a read changes about a child; a stopped task never resumes. */
  ghost predicate Kin(c: Child, c': Child) {
    && c'.name == c.name && c'.inflight == c.inflight && c'.live == c.live
    && c'.out.read == c.out.read && c'.err.read == c.err.read
    && (c.out.phase == Stopped ==> c'.out.phase == Stopped)
    && (c.err.phase == Stopped ==> c'.err.phase == Stopped)
  }

  lemma CommitChildren(w: World, e: Effect)
    ensures var w' := Commit(w, e);
            && |w'.children| >= |w.children|
            && (forall c :: 0 <= c < |w.children| ==> Kin(w.children[c], w'.children[c]))
            && (if e.server.spawns == w.server.spawns then |w'.children| == |w.children|
                else |w'.children| == |w.children| + 1
                     && w'.children[|w.children|] ==
                        Child(SpawnedName(e.events), Task(Active, []), Task(Active, []), w.queue, LiveTasks(w.children)))
  {
  }

  lemma KillSpawnsNone(s: Server, cmd: CmdMsg, env: Env)
    ensures CmdKill(s, cmd, env).server.spawns == s.spawns
  {
  }

  lemma SpawnSpawns(s: Server, cmd: CmdMsg, env: Env)
    ensures var r := CmdSpawn(s, cmd, env);
            || r.server.spawns == s.spawns
            || (&& r.server.spawns == s.spawns + 1 && SpawnedName(r.events) == cmd.name
                && cmd.name in r.server.procs && r.server.procs[cmd.name].child == s.spawns
                && forall n :: n in r.server.procs && n != cmd.name ==>
                     n in s.procs && r.server.procs[n].child == s.procs[n].child)
  {
  }

  /** A line spawns at most one child, under the name its command gives. */
  lemma LineSpawns(s: Server, line: Line, env: Env)
    ensures var r := HandleLine(s, line, env);
            || r.server.spawns == s.spawns
            || (&& r.server.spawns == s.spawns + 1
                && line.Parsed? && line.msg.Cmd?
                && SpawnedName(r.events) == line.msg.cmd.name
                && line.msg.cmd.name in r.server.procs
                && r.server.procs[line.msg.cmd.name].child == s.spawns
                && forall n :: n in r.server.procs && n != line.msg.cmd.name ==>
                     n in s.procs && r.server.procs[n].child == s.procs[n].child)
  {
    if line.Parsed? && line.msg.Cmd? {
      var cmd := line.msg.cmd;
      match cmd.verb {
        case Spawn => SpawnSpawns(s, cmd, env);
        case Kill => KillSpawnsNone(s, cmd, env);
        case Subscribe =>
          if cmd.name in s.procs {
            var e := s.procs[cmd.name];
            ReplayShape(Put(s, cmd.name, e.(buffer := [], subscribed := true)), e.child, e.buffer);
          }
        case _ =>
      }
    }
  }

  ghost predicate ChildrenGrow(w: World, w': World) {
    && |w.children| <= |w'.children|
    && forall c :: 0 <= c < |w.children| ==>
         && w'.children[c].name == w.children[c].name
         && w'.children[c].inflight == w.children[c].inflight
         && w'.children[c].live == w.children[c].live
  }

  /** A step adds no entry for an older child, and children keep what they were born with. */
  ghost predicate Grows(w: World, w': World) {
    w.server.spawns <= w'.server.spawns && ChildrenGrow(w, w') && Lineage(w.server, w'.server)
  }

  ghost predicate SameChildren(s: Server, s': Server) {
    && s'.spawns == s.spawns && s'.procs.Keys == s.procs.Keys
    && forall n :: n in s'.procs ==> s'.procs[n].child == s.procs[n].child
  }

  lemma PassLineage(s: Server, item: Relay, msg: ServerMsg)
    ensures SameChildren(s, RelayOrBuffer(s, item, msg).server)
  {
  }

  lemma PutLineage(s: Server, name: Name, e: Entry, item: Relay, msg: ServerMsg)
    requires name in s.procs && e.child == s.procs[name].child
    ensures SameChildren(s, RelayOrBuffer(Put(s, name, e), item, msg).server)
  {
    PassLineage(Put(s, name, e), item, msg);
  }

  lemma RelayLineage(s: Server, item: Relay, env: Env)
    ensures SameChildren(s, HandleRelay(s, item, env).server)
  {
    if item.name in s.procs {
      var e := s.procs[item.name];
      match item.body {
        case OutLine(data) => PutLineage(s, item.name, e.(lastStdout := env.t0), item, Stdout(item.name, data));
        case TextLine(text) => PassLineage(s, item, Stderr(item.name, text));
        case Ended(code) =>
          var settled := Settle(e, code, env.soon).0;
          PutLineage(s, item.name, settled, item, Exit(item.name, settled.exitCode));
      }
    }
  }

  lemma LineLineage(s: Server, line: Line, env: Env)
    requires Identities(s) && Subscriptions(s) && s.client.Some?
    ensures Lineage(s, HandleLine(s, line, env).server)
  {
    var moves := LineMoves(s, line, env);
    ChainLineage(s, moves);
  }

  /** The part of the invariant that is about the server alone. */
  ghost predicate Settled(w: World) {
    Good(w.server, w.trace) && Modes(w) && Family(w) && QueueFits(w)
  }

  // ---- every step is a chain of moves ----

  lemma RelayStepMoves(w: World, env: Env) returns (moves: seq<Move>)
    requires Identities(w.server) && Subscriptions(w.server) && QueueFits(w) && w.queue != []
    ensures Legal(w.server, moves) && Chain(w.server, moves) == HandleRelay(w.server, w.queue[0], env)
  {
    assert Fits(w.children, w.queue[0]);
    moves := RelayMoves(w.server, w.queue[0], env);
  }

  /** The moves of one step of the world, as far as the server is concerned. */
  ghost predicate Moved(w: World, w': World, moves: seq<Move>) {
    && Legal(w.server, moves)
    && w'.server == Chain(w.server, moves).server
    && w'.trace == w.trace + Chain(w.server, moves).events
  }

  lemma CommitMoved(w: World, w0: World, e: Effect, moves: seq<Move>)
    requires w0.server == w.server && w0.trace == w.trace
    requires Legal(w.server, moves) && Chain(w.server, moves) == e
    ensures Moved(w, Commit(w0, e), moves)
  {
  }

  lemma NoMoves(w: World, w': World)
    requires w'.server == w.server && w'.trace == w.trace
    ensures Moved(w, w', [])
  {
    assert w.trace + [] == w.trace;
  }

  lemma StepMoves(w: World, l: Label) returns (moves: seq<Move>)
    requires Identities(w.server) && Subscriptions(w.server) && Modes(w) && QueueFits(w)
    ensures Moved(w, Step(w, l), moves)
  {
    moves := [];
    if !Enabled(w, l) {
      DisabledStays(w, l);
      NoMoves(w, Step(w, l));
      return;
    }
    match l {
      case Accept(life) =>
        moves := ConnectMoves(w.server, life);
        CommitMoved(w, w.(mode := Serving, lines := [], lineEof := false), Connect(w.server, life), moves);
      case TakeRelay(env) =>
        moves := RelayStepMoves(w, env);
        CommitMoved(w, w.(queue := w.queue[1..], now := env.t1), HandleRelay(w.server, w.queue[0], env), moves);
      case TakeLine(env) =>
        moves := LineMoves(w.server, w.lines[0], env);
        CommitMoved(w, w.(lines := w.lines[1..], now := env.t1), HandleLine(w.server, w.lines[0], env), moves);
      case TakeEof =>
        moves := DisconnectMoves(w.server);
        CommitMoved(w, w.(mode := Outer), Disconnect(w.server), moves);
      case ShutDown(plan) =>
        moves := ShutdownMoves(w.server, plan);
        CommitMoved(w, w.(mode := Finished), Shutdown(w.server, plan), moves);
      case ClientWrites(line) =>
        moves := QuietMoves(w.server, Effect(w.server, [Arrived(Peer(w.server), line)]));
      case _ => NoMoves(w, Step(w, l));
    }
  }

  /** The step runs a handler or records an arrival. */
  predicate Enabled(w: World, l: Label) {
    match l
    case Accept(_) => w.mode == Outer
    case TakeRelay(env) => (w.mode == Outer || w.mode == Serving) && w.queue != [] && Timely(w, env)
    case TakeLine(env) => w.mode == Serving && w.lines != [] && Timely(w, env) && !Panics(w.server, w.lines[0])
    case TakeEof => w.mode == Serving && w.lines == [] && w.lineEof
    case ShutDown(plan) => w.mode == Outer && Covers(plan, w.server.procs)
    case ClientWrites(_) => w.mode == Serving && !w.lineEof
    case _ => true
  }

  lemma DisabledStays(w: World, l: Label)
    requires !Enabled(w, l)
    ensures Step(w, l).server == w.server && Step(w, l).trace == w.trace
  {
  }

  // ---- children only grow ----

  lemma CommitGrows(w: World, w0: World, e: Effect)
    requires w0.children == w.children
    ensures ChildrenGrow(w, Commit(w0, e))
  {
    CommitChildren(w0, e);
  }

  lemma StepChildren(w: World, l: Label)
    ensures ChildrenGrow(w, Step(w, l))
  {
    match l {
      case Accept(life) => CommitGrows(w, w.(mode := Serving, lines := [], lineEof := false), Connect(w.server, life));
      case TakeRelay(env) =>
        if w.queue != [] {
          CommitGrows(w, w.(queue := w.queue[1..], now := env.t1), HandleRelay(w.server, w.queue[0], env));
        }
      case TakeLine(env) =>
        if w.lines != [] {
          CommitGrows(w, w.(lines := w.lines[1..], now := env.t1), HandleLine(w.server, w.lines[0], env));
        }
      case TakeEof => CommitGrows(w, w.(mode := Outer), Disconnect(w.server));
      case ShutDown(plan) => CommitGrows(w, w.(mode := Finished), Shutdown(w.server, plan));
      case _ =>
    }
  }

  lemma StepGrows(w: World, l: Label)
    requires Identities(w.server) && Subscriptions(w.server) && Modes(w) && QueueFits(w)
    ensures Grows(w, Step(w, l))
  {
    var moves := StepMoves(w, l);
    ChainLineage(w.server, moves);
    StepChildren(w, l);
  }

  /** A handler that spawns nothing keeps the family. */
  lemma SameFamily(w: World, w0: World, e: Effect)
    requires Family(w) && w0.children == w.children && w0.server == w.server
    requires e.server.spawns == w.server.spawns && Lineage(w.server, e.server)
    requires forall n :: n in e.server.procs ==> e.server.procs[n].child < e.server.spawns
    ensures Family(Commit(w0, e))
  {
    CommitChildren(w0, e);
  }

  lemma LineFamily(w: World, env: Env)
    requires Identities(w.server) && Subscriptions(w.server) && w.server.client.Some? && Family(w) && w.lines != []
    ensures Family(Commit(w.(lines := w.lines[1..], now := env.t1), HandleLine(w.server, w.lines[0], env)))
  {
    var w0 := w.(lines := w.lines[1..], now := env.t1);
    var r := HandleLine(w.server, w.lines[0], env);
    LineSpawns(w.server, w.lines[0], env);
    LineLineage(w.server, w.lines[0], env);
    CommitChildren(w0, r);
    if r.server.spawns == w.server.spawns {
      var moves := LineMoves(w.server, w.lines[0], env);
      MovesKeepShape(w.server, moves);
      SameFamily(w, w0, r);
    }
  }

  lemma RelayFamily(w: World, env: Env)
    requires Identities(w.server) && Family(w) && w.queue != []
    ensures Family(Commit(w.(queue := w.queue[1..], now := env.t1), HandleRelay(w.server, w.queue[0], env)))
  {
    RelayLineage(w.server, w.queue[0], env);
    SameFamily(w, w.(queue := w.queue[1..], now := env.t1), HandleRelay(w.server, w.queue[0], env));
  }

  lemma StepKeepsFamily(w: World, l: Label)
    requires Identities(w.server) && Subscriptions(w.server) && Modes(w) && Family(w)
    ensures Family(Step(w, l))
  {
    match l {
      case Accept(life) =>
        SameFamily(w, w.(mode := Serving, lines := [], lineEof := false), Connect(w.server, life));
      case TakeRelay(env) =>
        if w.queue != [] {
          RelayFamily(w, env);
        }
      case TakeLine(env) =>
        if w.mode == Serving && w.lines != [] {
          LineFamily(w, env);
        }
      case TakeEof =>
        SameFamily(w, w.(mode := Outer), Disconnect(w.server));
      case ShutDown(plan) =>
        KillAllSpares(w.server, plan);
        SameFamily(w, w.(mode := Finished), Shutdown(w.server, plan));
      case _ =>
    }
  }

  lemma QueueStays(w: World, w': World)
    requires Grows(w, w') && QueueFits(w)
    requires w'.queue == w.queue || (w.queue != [] && w'.queue == w.queue[1..])
    ensures QueueFits(w')
  {
    forall i | 0 <= i < |w'.queue| ensures Fits(w'.children, w'.queue[i]) {
      assert Fits(w.children, w'.queue[i]) by {
        assert w'.queue[i] == if w'.queue == w.queue then w.queue[i] else w.queue[i + 1];
      }
    }
  }

  lemma WrittenFits(w: World, c: nat, stream: Stream, ev: ReadEvent)
    requires QueueFits(w) && c < |w.children|
    ensures QueueFits(Step(w, ChildWrites(c, stream, ev)))
  {
  }

  lemma StepKeepsQueue(w: World, l: Label)
    requires Identities(w.server) && Subscriptions(w.server) && Modes(w) && QueueFits(w)
    ensures QueueFits(Step(w, l))
  {
    if l.ChildWrites? {
      if l.child < |w.children| {
        WrittenFits(w, l.child, l.stream, l.ev);
      }
    } else {
      StepGrows(w, l);
      QueueStays(w, Step(w, l));
    }
  }

  lemma StepKeepsGood(w: World, l: Label)
    requires Good(w.server, w.trace) && Modes(w) && QueueFits(w)
    ensures Good(Step(w, l).server, Step(w, l).trace)
  {
    var moves := StepMoves(w, l);
    ChainKeeps(w.server, w.trace, moves);
  }

  lemma StepKeepsSettled(w: World, l: Label)
    requires Settled(w)
    ensures Settled(Step(w, l))
  {
    StepKeepsModes(w, l);
    StepKeepsFamily(w, l);
    StepKeepsQueue(w, l);
    StepKeepsGood(w, l);
  }

  /** Every reachable state is settled. */
  lemma {:induction false} RunSettled(o: Oracle, run: seq<Label>)
    ensures Settled(Run(o, run))
  {
    if run == [] {
      assert forall x: nat :: Marks(x, []) == [];
    } else {
      RunSettled(o, run[..|run| - 1]);
      StepKeepsSettled(Run(o, run[..|run| - 1]), run[|run| - 1]);
    }
  }
}
