/** Which child's output an entry's log holds, and in which order. */
module RustStreams {
  import opened Protocol
  import opened Sequences
  import opened StreamRelay
  import opened RustServer
  import opened RustMoves
  import opened RustWorld
  import opened RustRuns

  // ---- messages taken from the relay queue ----

  /** The event records a message leaving the relay queue. */
  predicate IsTake(e: Event) {
    e.Logged? || e.Discarded?
  }

  /** The message the client sees is the relay message, up to the code of an exit. */
  predicate Carries(item: Relay, msg: ServerMsg) {
    match item.body
    case OutLine(data) => msg == Stdout(item.name, data)
    case TextLine(text) => msg == Stderr(item.name, text)
    case Ended(_) => msg.Exit? && msg.name == item.name
  }

  function TookOf(c: nat, stream: Stream, e: Event): seq<Body> {
    if IsTake(e) && e.item.child == c && e.item.stream == stream then [e.item.body] else []
  }

  /** What the main task took from one relay task, logged or discarded. */
  function Took(c: nat, stream: Stream, tr: seq<Event>): seq<Body> {
    Collect((e: Event) => TookOf(c, stream, e), tr)
  }

  function OwnOf(c: nat, stream: Stream, e: Event): seq<Body> {
    if e.Logged? && e.entry == c && e.item.child == c && e.item.stream == stream then [e.item.body] else []
  }

  /** What entry `c` logged of its own child's output on one stream. */
  function Own(c: nat, stream: Stream, tr: seq<Event>): seq<Body> {
    Collect((e: Event) => OwnOf(c, stream, e), tr)
  }

  function QueuedOf(c: nat, stream: Stream, item: Relay): seq<Body> {
    if item.child == c && item.stream == stream then [item.body] else []
  }

  function Queued(c: nat, stream: Stream, queue: seq<Relay>): seq<Body> {
    Collect((item: Relay) => QueuedOf(c, stream, item), queue)
  }

  lemma TookLast(c: nat, stream: Stream, tr: seq<Event>, e: Event)
    ensures Took(c, stream, tr + [e]) == Took(c, stream, tr) + TookOf(c, stream, e)
    ensures Own(c, stream, tr + [e]) == Own(c, stream, tr) + OwnOf(c, stream, e)
  {
    CollectLast((e: Event) => TookOf(c, stream, e), tr, e);
    CollectLast((e: Event) => OwnOf(c, stream, e), tr, e);
  }

  lemma {:induction false} NothingTaken(c: nat, stream: Stream, tr: seq<Event>, evs: seq<Event>)
    requires forall i :: 0 <= i < |evs| ==> !IsTake(evs[i])
    ensures Took(c, stream, tr + evs) == Took(c, stream, tr)
    ensures Own(c, stream, tr + evs) == Own(c, stream, tr)
  {
    if evs == [] {
      assert tr + evs == tr;
    } else {
      var init, last := evs[..|evs| - 1], evs[|evs| - 1];
      NothingTaken(c, stream, tr, init);
      TookLast(c, stream, tr + init, last);
      assert Took(c, stream, tr) + [] == Took(c, stream, tr);
      assert Own(c, stream, tr) + [] == Own(c, stream, tr);
      assert (tr + init) + [last] == tr + evs;
    }
  }

  /** Passing a message on records exactly one take, and it comes first. */
  lemma PassSplits(s: Server, item: Relay, msg: ServerMsg)
    ensures var events := RelayOrBuffer(s, item, msg).events;
            && events != [] && IsTake(events[0]) && events[0].item == item
            && (forall i :: 0 < i < |events| ==> !IsTake(events[i]))
            && if item.name in s.procs
               then events[0].Logged? && events[0].entry == s.procs[item.name].child && events[0].msg == msg
               else events[0].Discarded?
  {
  }

  lemma SettleTakes(e: Entry, code: Option<int>, wait: Wait)
    ensures forall i :: 0 <= i < |Settle(e, code, wait).1| ==> !IsTake(Settle(e, code, wait).1[i])
  {
  }

  /** Handling a relay message records exactly one take, that of the message. */
  lemma RelaySplits(s: Server, item: Relay, env: Env) returns (pre: seq<Event>, take: Event, post: seq<Event>)
    ensures HandleRelay(s, item, env).events == pre + [take] + post
    ensures forall i :: 0 <= i < |pre| ==> !IsTake(pre[i])
    ensures forall i :: 0 <= i < |post| ==> !IsTake(post[i])
    ensures IsTake(take) && take.item == item
    ensures if item.name in s.procs then take.Logged? && take.entry == s.procs[item.name].child && Carries(item, take.msg)
            else take.Discarded?
  {
    if item.name !in s.procs {
      pre, take, post := [], Discarded(item), [];
      return;
    }
    var e := s.procs[item.name];
    pre := [];
    var events: seq<Event>;
    match item.body {
      case OutLine(data) =>
        var touched := Put(s, item.name, e.(lastStdout := env.t0));
        PassSplits(touched, item, Stdout(item.name, data));
        events := RelayOrBuffer(touched, item, Stdout(item.name, data)).events;
      case TextLine(text) =>
        PassSplits(s, item, Stderr(item.name, text));
        events := RelayOrBuffer(s, item, Stderr(item.name, text)).events;
      case Ended(code) =>
        var settled := Settle(e, code, env.soon);
        SettleTakes(e, code, env.soon);
        var exited := Put(s, item.name, settled.0);
        PassSplits(exited, item, Exit(item.name, settled.0.exitCode));
        pre, events := settled.1, RelayOrBuffer(exited, item, Exit(item.name, settled.0.exitCode)).events;
    }
    take, post := events[0], events[1..];
    assert HandleRelay(s, item, env).events == pre + events;
    assert events == [take] + post;
  }

  lemma OneTaken(c: nat, stream: Stream, tr: seq<Event>, pre: seq<Event>, take: Event, post: seq<Event>)
    requires forall i :: 0 <= i < |pre| ==> !IsTake(pre[i])
    requires forall i :: 0 <= i < |post| ==> !IsTake(post[i])
    ensures Took(c, stream, tr + (pre + [take] + post)) == Took(c, stream, tr) + TookOf(c, stream, take)
    ensures Own(c, stream, tr + (pre + [take] + post)) == Own(c, stream, tr) + OwnOf(c, stream, take)
  {
    NothingTaken(c, stream, tr, pre);
    TookLast(c, stream, tr + pre, take);
    NothingTaken(c, stream, tr + pre + [take], post);
    assert tr + (pre + [take] + post) == tr + pre + [take] + post;
  }

  lemma RelayTakes(s: Server, item: Relay, env: Env, tr: seq<Event>, c: nat, stream: Stream)
    ensures var tr' := tr + HandleRelay(s, item, env).events;
            && Took(c, stream, tr') == Took(c, stream, tr) + QueuedOf(c, stream, item)
            && Own(c, stream, tr') == Own(c, stream, tr)
                 + if Present(s, item.name, c) then QueuedOf(c, stream, item) else []
  {
    var pre, take, post := RelaySplits(s, item, env);
    OneTaken(c, stream, tr, pre, take, post);
  }

  lemma SubscribeTakes(s: Server, cmd: CmdMsg)
    ensures forall i :: 0 <= i < |CmdSubscribe(s, cmd).events| ==> !IsTake(CmdSubscribe(s, cmd).events[i])
  {
    if cmd.name in s.procs {
      var e := s.procs[cmd.name];
      ReplayShape(Put(s, cmd.name, e.(buffer := [], subscribed := true)), e.child, e.buffer);
    }
  }

  lemma LineTakes(s: Server, line: Line, env: Env)
    ensures forall i :: 0 <= i < |HandleLine(s, line, env).events| ==> !IsTake(HandleLine(s, line, env).events[i])
  {
    if line.Parsed? && line.msg.Cmd? {
      match line.msg.cmd.verb {
        case Subscribe => SubscribeTakes(s, line.msg.cmd);
        case Spawn => SpawnTakes(s, line.msg.cmd, env);
        case Kill => KillTakes(s, line.msg.cmd, env);
        case _ =>
      }
    }
  }

  lemma SpawnTakes(s: Server, cmd: CmdMsg, env: Env)
    ensures forall i :: 0 <= i < |CmdSpawn(s, cmd, env).events| ==> !IsTake(CmdSpawn(s, cmd, env).events[i])
  {
  }

  lemma KillTakes(s: Server, cmd: CmdMsg, env: Env)
    ensures forall i :: 0 <= i < |CmdKill(s, cmd, env).events| ==> !IsTake(CmdKill(s, cmd, env).events[i])
  {
  }

  lemma {:induction false} KillAllTakes(s: Server, plan: seq<(Name, Env)>)
    ensures forall i :: 0 <= i < |KillAll(s, plan).events| ==> !IsTake(KillAll(s, plan).events[i])
  {
    if plan != [] {
      KillAllTakes(s, plan[..|plan| - 1]);
    }
  }

  lemma QueuedHead(c: nat, stream: Stream, queue: seq<Relay>)
    requires queue != []
    ensures Queued(c, stream, queue) == QueuedOf(c, stream, queue[0]) + Queued(c, stream, queue[1..])
  {
    assert queue == [queue[0]] + queue[1..];
    CollectAppend((item: Relay) => QueuedOf(c, stream, item), [queue[0]], queue[1..]);
    CollectLast((item: Relay) => QueuedOf(c, stream, item), [], queue[0]);
    assert [] + [queue[0]] == [queue[0]];
  }

  lemma LabelledLast(name: Name, d: nat, from: Stream, bodies: seq<Body>)
    requires bodies != []
    ensures Labelled(name, d, from, bodies)[..|bodies| - 1] == Labelled(name, d, from, bodies[..|bodies| - 1])
  {
  }

  lemma {:induction false} QueuedLabelled(c: nat, stream: Stream, queue: seq<Relay>, name: Name, d: nat, from: Stream, bodies: seq<Body>)
    ensures Queued(c, stream, queue + Labelled(name, d, from, bodies)) ==
            Queued(c, stream, queue) + if d == c && from == stream then bodies else []
  {
    if bodies == [] {
      assert queue + Labelled(name, d, from, bodies) == queue;
    } else {
      var init, last := bodies[..|bodies| - 1], bodies[|bodies| - 1];
      QueuedLabelled(c, stream, queue, name, d, from, init);
      LabelledLast(name, d, from, bodies);
      LastApart(queue, Labelled(name, d, from, bodies));
      LastApart(Queued(c, stream, queue), bodies);
      var before := queue + Labelled(name, d, from, init);
      CollectLast((item: Relay) => QueuedOf(c, stream, item), before, Relay(name, d, from, last));
    }
  }

  // ---- the invariant ----

  function Emitted(o: Oracle, c: Child, stream: Stream): seq<Body> {
    if stream == OutStream then StdoutReports(o, c.out.read, None) else StderrReports(o, c.err.read)
  }

  /** What a task has sent was taken or is still queued, in order; a task that can go on has only read lines. */
  ghost predicate Accounted(w: World, c: nat, stream: Stream)
    requires c < |w.children|
  {
    && Took(c, stream, w.trace) + Queued(c, stream, w.queue) == Emitted(w.oracle, w.children[c], stream)
    && (TaskOf(w.children[c], stream).phase != Stopped ==> AllText(TaskOf(w.children[c], stream).read))
  }

  ghost predicate Produced(w: World) {
    && (forall c, stream :: 0 <= c < |w.children| ==> Accounted(w, c, stream))
    && (forall c: nat, stream :: c >= |w.children| ==> Took(c, stream, w.trace) == [])
  }

  ghost predicate Present(s: Server, name: Name, c: nat) {
    name in s.procs && s.procs[name].child == c
  }

  /** An entry logs all that is taken from its own child, until it is removed. */
  ghost predicate OwnLeads(w: World, c: nat, stream: Stream)
    requires c < |w.children|
  {
    && Own(c, stream, w.trace) <= Took(c, stream, w.trace)
    && (Present(w.server, w.children[c].name, c) ==> Own(c, stream, w.trace) == Took(c, stream, w.trace))
  }

  ghost predicate OwnFirst(w: World) {
    && (forall c, stream :: 0 <= c < |w.children| ==> OwnLeads(w, c, stream))
    && (forall c: nat, stream :: c >= |w.children| ==> Own(c, stream, w.trace) == [])
  }

  /** A step that takes nothing from the relay queue and lets no task read. */
  ghost predicate Aside(w: World, w': World) {
    && w'.oracle == w.oracle && w'.queue == w.queue
    && |w'.children| >= |w.children|
    && (forall c :: 0 <= c < |w.children| ==> Kin(w.children[c], w'.children[c]))
    && (forall c :: |w.children| <= c < |w'.children| ==> w'.children[c].out.read == [] && w'.children[c].err.read == [])
    && |w'.trace| >= |w.trace| && w'.trace[..|w.trace|] == w.trace
    && (forall i :: |w.trace| <= i < |w'.trace| ==> !IsTake(w'.trace[i]))
  }

  lemma AsideTakes(w: World, w': World, c: nat, stream: Stream)
    requires Aside(w, w')
    ensures Took(c, stream, w'.trace) == Took(c, stream, w.trace)
    ensures Own(c, stream, w'.trace) == Own(c, stream, w.trace)
  {
    NothingTaken(c, stream, w.trace, w'.trace[|w.trace|..]);
    assert w.trace + w'.trace[|w.trace|..] == w'.trace;
  }

  lemma {:induction false} NoneQueued(c: nat, stream: Stream, queue: seq<Relay>)
    requires forall i :: 0 <= i < |queue| ==> queue[i].child != c
    ensures Queued(c, stream, queue) == []
  {
    if queue != [] {
      NoneQueued(c, stream, queue[..|queue| - 1]);
    }
  }

  lemma AsideKeepsProduced(w: World, w': World)
    requires Produced(w) && QueueFits(w) && Aside(w, w')
    ensures Produced(w')
  {
    forall c: nat, stream ensures Took(c, stream, w'.trace) == Took(c, stream, w.trace) {
      AsideTakes(w, w', c, stream);
    }
    forall c, stream | 0 <= c < |w'.children| ensures Accounted(w', c, stream) {
      if c < |w.children| {
        assert Accounted(w, c, stream);
      } else {
        NoneQueued(c, stream, w.queue);
      }
    }
  }

  lemma AsideKeepsOwn(w: World, w': World)
    requires OwnFirst(w) && Produced(w) && Aside(w, w')
    requires Lineage(w.server, w'.server) && |w.children| == w.server.spawns
    ensures OwnFirst(w')
  {
    forall c: nat, stream
      ensures Took(c, stream, w'.trace) == Took(c, stream, w.trace)
      ensures Own(c, stream, w'.trace) == Own(c, stream, w.trace)
    {
      AsideTakes(w, w', c, stream);
    }
    forall c, stream | 0 <= c < |w'.children| ensures OwnLeads(w', c, stream) {
      if c < |w.children| {
        assert OwnLeads(w, c, stream) && Kin(w.children[c], w'.children[c]);
      }
    }
  }

  lemma CommitAside(w: World, w0: World, e: Effect)
    requires w0.oracle == w.oracle && w0.queue == w.queue && w0.children == w.children && w0.server == w.server
    requires w0.trace == w.trace
    requires forall i :: 0 <= i < |e.events| ==> !IsTake(e.events[i])
    ensures Aside(w, Commit(w0, e))
  {
    CommitChildren(w0, e);
  }

  lemma LineAside(w: World, env: Env)
    ensures Aside(w, Step(w, TakeLine(env)))
  {
    if w.mode == Serving && w.lines != [] && Timely(w, env) && !Panics(w.server, w.lines[0]) {
      LineTakes(w.server, w.lines[0], env);
      CommitAside(w, w.(lines := w.lines[1..], now := env.t1), HandleLine(w.server, w.lines[0], env));
    }
  }

  lemma StepAside(w: World, l: Label)
    requires !l.TakeRelay? && !l.ChildWrites?
    ensures Aside(w, Step(w, l))
  {
    match l {
      case Accept(life) => CommitAside(w, w.(mode := Serving, lines := [], lineEof := false), Connect(w.server, life));
      case TakeLine(env) => LineAside(w, env);
      case TakeEof => CommitAside(w, w.(mode := Outer), Disconnect(w.server));
      case ShutDown(plan) =>
        KillAllTakes(w.server, plan);
        CommitAside(w, w.(mode := Finished), Shutdown(w.server, plan));
      case _ => BesideAside(w, l);
    }
  }

  lemma BesideAside(w: World, l: Label)
    requires l.ClientWrites? || l.ClientEnds? || l.TaskStops?
    ensures Aside(w, Step(w, l))
  {
  }

  function Taken(w: World, env: Env): World
    requires w.queue != []
  {
    Commit(w.(queue := w.queue[1..], now := env.t1), HandleRelay(w.server, w.queue[0], env))
  }

  lemma TakenChildren(w: World, env: Env)
    requires w.queue != []
    ensures |Taken(w, env).children| == |w.children|
    ensures forall c :: 0 <= c < |w.children| ==> Kin(w.children[c], Taken(w, env).children[c])
    ensures Taken(w, env).trace == w.trace + HandleRelay(w.server, w.queue[0], env).events
    ensures Taken(w, env).oracle == w.oracle && Taken(w, env).queue == w.queue[1..]
    ensures Taken(w, env).server == HandleRelay(w.server, w.queue[0], env).server
  {
    RelayLineage(w.server, w.queue[0], env);
    CommitChildren(w.(queue := w.queue[1..], now := env.t1), HandleRelay(w.server, w.queue[0], env));
  }

  lemma TakenStreams(w: World, env: Env, c: nat, stream: Stream)
    requires w.queue != []
    ensures var w', head := Taken(w, env), QueuedOf(c, stream, w.queue[0]);
            && Took(c, stream, w'.trace) == Took(c, stream, w.trace) + head
            && Took(c, stream, w'.trace) + Queued(c, stream, w'.queue) == Took(c, stream, w.trace) + Queued(c, stream, w.queue)
            && Own(c, stream, w'.trace) == Own(c, stream, w.trace) + if Present(w.server, w.queue[0].name, c) then head else []
  {
    TakenChildren(w, env);
    RelayTakes(w.server, w.queue[0], env, w.trace, c, stream);
    QueuedHead(c, stream, w.queue);
  }

  lemma TakenProduced(w: World, env: Env)
    requires Produced(w) && QueueFits(w) && w.queue != []
    ensures Produced(Taken(w, env))
  {
    var w' := Taken(w, env);
    TakenChildren(w, env);
    assert Fits(w.children, w.queue[0]);
    forall c, stream | 0 <= c < |w'.children| ensures Accounted(w', c, stream) {
      assert Accounted(w, c, stream) && Kin(w.children[c], w'.children[c]);
      TakenStreams(w, env, c, stream);
    }
    forall c: nat, stream | c >= |w'.children| ensures Took(c, stream, w'.trace) == [] {
      TakenStreams(w, env, c, stream);
    }
  }

  lemma TakenOwn(w: World, env: Env)
    requires OwnFirst(w) && Family(w) && QueueFits(w) && w.queue != []
    ensures OwnFirst(Taken(w, env))
  {
    var w' := Taken(w, env);
    TakenChildren(w, env);
    assert Fits(w.children, w.queue[0]);
    forall c, stream | 0 <= c < |w'.children| ensures OwnLeads(w', c, stream) {
      assert OwnLeads(w, c, stream) && Kin(w.children[c], w'.children[c]);
      TakenStreams(w, env, c, stream);
      RelayLineage(w.server, w.queue[0], env);
    }
    forall c: nat, stream | c >= |w'.children| ensures Own(c, stream, w'.trace) == [] {
      TakenStreams(w, env, c, stream);
    }
  }

  lemma WrittenQueued(w: World, c: nat, stream: Stream, ev: ReadEvent, d: nat, from: Stream)
    requires c < |w.children| && TaskOf(w.children[c], stream).phase != Stopped
    ensures Queued(d, from, Step(w, ChildWrites(c, stream, ev)).queue) ==
            Queued(d, from, w.queue) + if d == c && from == stream then StreamStep(w.oracle, stream, ev) else []
  {
    QueuedLabelled(d, from, w.queue, w.children[c].name, c, stream, StreamStep(w.oracle, stream, ev));
  }

  lemma WrittenEmitted(w: World, c: nat, stream: Stream, ev: ReadEvent, d: nat, from: Stream)
    requires c < |w.children| && TaskOf(w.children[c], stream).phase != Stopped
    requires d < |w.children| && Accounted(w, d, from)
    ensures var w' := Step(w, ChildWrites(c, stream, ev));
            && w'.trace == w.trace && w'.oracle == w.oracle && |w'.children| == |w.children|
            && Emitted(w.oracle, w'.children[d], from) ==
               Emitted(w.oracle, w.children[d], from) + (if d == c && from == stream then StreamStep(w.oracle, stream, ev) else [])
            && (TaskOf(w'.children[d], from).phase != Stopped ==> AllText(TaskOf(w'.children[d], from).read))
  {
    if d == c && from == stream {
      StepsAddUp(w.oracle, TaskOf(w.children[c], stream).read, ev);
    }
  }

  /** What one child's tasks have sent grows by what the read makes them send. */
  lemma WrittenAccounted(w: World, c: nat, stream: Stream, ev: ReadEvent, d: nat, from: Stream)
    requires c < |w.children| && TaskOf(w.children[c], stream).phase != Stopped
    requires d < |w.children| && Accounted(w, d, from)
    ensures d < |Step(w, ChildWrites(c, stream, ev)).children|
    ensures Accounted(Step(w, ChildWrites(c, stream, ev)), d, from)
  {
    WrittenQueued(w, c, stream, ev, d, from);
    WrittenEmitted(w, c, stream, ev, d, from);
    Reassociate(Took(d, from, w.trace), Queued(d, from, w.queue),
                if d == c && from == stream then StreamStep(w.oracle, stream, ev) else []);
  }

  lemma Reassociate(a: seq<Body>, b: seq<Body>, c: seq<Body>)
    ensures a + (b + c) == (a + b) + c
  {
  }

  lemma WrittenProduced(w: World, c: nat, stream: Stream, ev: ReadEvent)
    requires Produced(w)
    ensures Produced(Step(w, ChildWrites(c, stream, ev)))
  {
    var w' := Step(w, ChildWrites(c, stream, ev));
    if c < |w.children| && TaskOf(w.children[c], stream).phase != Stopped {
      forall d, from | 0 <= d < |w'.children| ensures Accounted(w', d, from) {
        assert Accounted(w, d, from);
        WrittenAccounted(w, c, stream, ev, d, from);
      }
    }
  }

  lemma WrittenOwn(w: World, c: nat, stream: Stream, ev: ReadEvent)
    requires OwnFirst(w)
    ensures OwnFirst(Step(w, ChildWrites(c, stream, ev)))
  {
    var w' := Step(w, ChildWrites(c, stream, ev));
    forall d, from | 0 <= d < |w'.children| ensures OwnLeads(w', d, from) {
      assert OwnLeads(w, d, from);
    }
  }

  lemma StepKeepsStreams(w: World, l: Label)
    requires Settled(w) && Produced(w) && OwnFirst(w)
    ensures Produced(Step(w, l)) && OwnFirst(Step(w, l))
  {
    match l {
      case TakeRelay(env) =>
        if (w.mode == Outer || w.mode == Serving) && w.queue != [] && Timely(w, env) {
          TakenProduced(w, env);
          TakenOwn(w, env);
        }
      case ChildWrites(c, stream, ev) =>
        WrittenProduced(w, c, stream, ev);
        WrittenOwn(w, c, stream, ev);
      case _ =>
        StepAside(w, l);
        StepGrows(w, l);
        AsideKeepsProduced(w, Step(w, l));
        AsideKeepsOwn(w, Step(w, l));
    }
  }

  lemma StepKeepsOracle(w: World, l: Label)
    ensures Step(w, l).oracle == w.oracle
  {
  }

  lemma {:induction false} RunOracle(o: Oracle, run: seq<Label>)
    ensures Run(o, run).oracle == o
  {
    if run != [] {
      RunOracle(o, run[..|run| - 1]);
      StepKeepsOracle(Run(o, run[..|run| - 1]), run[|run| - 1]);
    }
  }

  lemma StartStreams(o: Oracle)
    ensures Produced(Start(o)) && OwnFirst(Start(o))
  {
  }

  lemma {:induction false} RunStreams(o: Oracle, run: seq<Label>)
    ensures Settled(Run(o, run)) && Produced(Run(o, run)) && OwnFirst(Run(o, run))
  {
    RunSettled(o, run);
    if run == [] {
      StartStreams(o);
    } else {
      RunStreams(o, run[..|run| - 1]);
      StepKeepsStreams(Run(o, run[..|run| - 1]), run[|run| - 1]);
    }
  }

  // ---- what follows for every run ----

  lemma OwnPosition(c: nat, stream: Stream, tr: seq<Event>, i: nat)
    requires i < |tr| && OwnOf(c, stream, tr[i]) != []
    ensures |Own(c, stream, tr[..i])| < |Own(c, stream, tr)|
    ensures Own(c, stream, tr)[|Own(c, stream, tr[..i])|] == tr[i].item.body
    ensures forall j :: i < j <= |tr| ==> |Own(c, stream, tr[..j])| > |Own(c, stream, tr[..i])|
  {
    forall j | i < j <= |tr|
      ensures Own(c, stream, tr[..j]) == Own(c, stream, tr[..i]) + OwnOf(c, stream, tr[i]) + Own(c, stream, tr[i + 1..j])
    {
      assert tr[..j] == (tr[..i] + [tr[i]]) + tr[i + 1..j];
      CollectAppend((e: Event) => OwnOf(c, stream, e), tr[..i] + [tr[i]], tr[i + 1..j]);
      CollectLast((e: Event) => OwnOf(c, stream, e), tr[..i], tr[i]);
    }
    assert tr[..|tr|] == tr;
  }

  /**
   Of what its own child's stdout task sends, an entry logs a prefix: one report per nonblank
   line, in line order, and last an exit if the stream ended normally. The same holds for stderr. Once
   an exit of its own child is logged, only stderr lines of that child follow.
   */
  lemma {:induction false} StreamShape(o: Oracle, run: seq<Label>, c: nat)
    requires c < |Run(o, run).children|
    ensures var w := Run(o, run);
            var child := w.children[c];
            && Own(c, OutStream, w.trace) <= StdoutReports(o, child.out.read, None)
            && Own(c, ErrStream, w.trace) <= StderrReports(o, child.err.read)
            && (forall i, j | 0 <= i < j < |w.trace|
                  && OwnOf(c, OutStream, w.trace[i]) != [] && w.trace[i].item.body.Ended? ::
                  EndsNormally(child.out.read) && OwnOf(c, OutStream, w.trace[j]) == [])
  {
    RunStreams(o, run);
    RunOracle(o, run);
    var w := Run(o, run);
    var child, own := w.children[c], Own(c, OutStream, w.trace);
    assert Accounted(w, c, OutStream) && Accounted(w, c, ErrStream);
    assert OwnLeads(w, c, OutStream) && OwnLeads(w, c, ErrStream);
    assert own <= StdoutReports(o, child.out.read, None);
    StdoutShape(o, child.out.read, None);
    forall i, j | 0 <= i < j < |w.trace| && OwnOf(c, OutStream, w.trace[i]) != [] && w.trace[i].item.body.Ended?
      ensures EndsNormally(child.out.read) && OwnOf(c, OutStream, w.trace[j]) == []
    {
      OwnPosition(c, OutStream, w.trace, i);
      var k := |Own(c, OutStream, w.trace[..i])|;
      assert own[k] == StdoutReports(o, child.out.read, None)[k];
      if OwnOf(c, OutStream, w.trace[j]) != [] {
        OwnPosition(c, OutStream, w.trace, j);
      }
    }
  }

  /**
   In every run, what a relay task reports of the lines it has read is, in order, what the main task has taken of it and then what
   is still queued: nothing is lost, doubled or reordered between them. An entry still in the table has logged all that was taken of
   its own child, and a task that has not stopped has read nothing but lines.
   */
  lemma {:induction false} StreamsExactly(o: Oracle, run: seq<Label>, c: nat, stream: Stream)
    requires c < |Run(o, run).children|
    ensures var w := Run(o, run);
            && Took(c, stream, w.trace) + Queued(c, stream, w.queue) == Emitted(o, w.children[c], stream)
            && (Present(w.server, w.children[c].name, c) ==> Own(c, stream, w.trace) == Took(c, stream, w.trace))
            && (TaskOf(w.children[c], stream).phase != Stopped ==> AllText(TaskOf(w.children[c], stream).read))
  {
    RunStreams(o, run);
    RunOracle(o, run);
    assert Accounted(Run(o, run), c, stream) && OwnLeads(Run(o, run), c, stream);
  }
}
