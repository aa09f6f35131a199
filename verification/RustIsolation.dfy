/** Which messages of older children of the same name can reach an entry's log. */
module RustIsolation {
  import opened StreamRelay
  import opened RustServer
  import opened RustMoves
  import opened RustHandlers
  import opened RustWorld
  import opened RustRuns
  import opened RustStreams
  import opened RustTheorems

  /** The message was queued when the child was spawned, or comes from a task still going then. */
  ghost predicate InFlight(birth: Child, item: Relay) {
    item in birth.inflight || (item.child, item.stream) in birth.live
  }

  /** A task that can still send was going when any younger child was spawned. */
  ghost predicate TasksRemembered(w: World) {
    forall c, x, stream :: 0 <= c < x < |w.children| && TaskOf(w.children[c], stream).phase != Stopped ==>
      (c, stream) in w.children[x].live
  }

  /** A queued message of an older child was in flight when a younger one was spawned. */
  ghost predicate QueueRemembered(w: World) {
    forall i, x :: 0 <= i < |w.queue| && 0 <= x < |w.children| && w.queue[i].child < x ==>
      InFlight(w.children[x], w.queue[i])
  }

  /** The entry under a name runs the youngest child of that name. */
  ghost predicate Youngest(w: World) {
    forall n, c :: n in w.server.procs && w.server.procs[n].child < c < |w.children| ==> w.children[c].name != n
  }

  /** Every logged message is the entry's own, or of an older child of the same name and in flight at the entry's spawn. */
  ghost predicate Admissible(children: seq<Child>, e: Event)
    requires e.Logged?
  {
    && e.entry < |children|
    && e.item.child <= e.entry
    && e.item.name == children[e.entry].name
    && Fits(children, e.item)
    && Carries(e.item, e.msg)
    && (e.item.child != e.entry ==> InFlight(children[e.entry], e.item))
  }

  ghost predicate LogsAdmissible(w: World) {
    forall i :: 0 <= i < |w.trace| && w.trace[i].Logged? ==> Admissible(w.children, w.trace[i])
  }

  ghost predicate Remembered(w: World) {
    TasksRemembered(w) && QueueRemembered(w) && Youngest(w) && LogsAdmissible(w)
  }

  // ---- steps that take nothing from the queue ----

  lemma AdmissibleStays(w: World, w': World, e: Event)
    requires e.Logged? && Admissible(w.children, e) && Grows(w, w')
    ensures Admissible(w'.children, e)
  {
  }

  lemma GrownLogs(w: World, w': World)
    requires LogsAdmissible(w) && Grows(w, w') && Aside(w, w')
    ensures LogsAdmissible(w')
  {
    forall i | 0 <= i < |w'.trace| && w'.trace[i].Logged? ensures Admissible(w'.children, w'.trace[i]) {
      assert IsTake(w'.trace[i]);
      assert w'.trace[i] == w.trace[i];
      AdmissibleStays(w, w', w.trace[i]);
    }
  }

  /** A freshly spawned child remembers the queue and the tasks that have not stopped. */
  ghost predicate BornAware(w: World, w': World) {
    forall x :: |w.children| <= x < |w'.children| ==>
      && w'.children[x].inflight == w.queue
      && w'.children[x].live == LiveTasks(w.children)
  }

  lemma StepBornAware(w: World, l: Label)
    ensures BornAware(w, Step(w, l))
  {
    match l {
      case Accept(life) => CommitBornAware(w, w.(mode := Serving, lines := [], lineEof := false), Connect(w.server, life));
      case TakeRelay(env) =>
        if w.queue != [] {
          RelayLineage(w.server, w.queue[0], env);
          CommitChildren(w.(queue := w.queue[1..], now := env.t1), HandleRelay(w.server, w.queue[0], env));
        }
      case TakeLine(env) =>
        if w.lines != [] {
          CommitBornAware(w, w.(lines := w.lines[1..], now := env.t1), HandleLine(w.server, w.lines[0], env));
        }
      case TakeEof => CommitBornAware(w, w.(mode := Outer), Disconnect(w.server));
      case ShutDown(plan) => CommitBornAware(w, w.(mode := Finished), Shutdown(w.server, plan));
      case _ =>
    }
  }

  lemma CommitBornAware(w: World, w0: World, e: Effect)
    requires w0.queue == w.queue && w0.children == w.children
    ensures BornAware(w, Commit(w0, e))
  {
    CommitChildren(w0, e);
  }

  lemma LiveTasksHas(children: seq<Child>, c: nat, stream: Stream)
    requires c < |children| && TaskOf(children[c], stream).phase != Stopped
    ensures (c, stream) in LiveTasks(children)
  {
  }

  lemma GrownMemory(w: World, w': World)
    requires TasksRemembered(w) && QueueRemembered(w)
    requires Grows(w, w') && Aside(w, w') && BornAware(w, w') && |w'.children| <= |w.children| + 1
    ensures TasksRemembered(w') && QueueRemembered(w')
  {
    forall c, x, stream | 0 <= c < x < |w'.children| && TaskOf(w'.children[c], stream).phase != Stopped
      ensures (c, stream) in w'.children[x].live
    {
      assert Kin(w.children[c], w'.children[c]);
      if x == |w.children| {
        LiveTasksHas(w.children, c, stream);
      }
    }
  }

  /** A name's entry is replaced only by a younger child of that name. */
  ghost predicate NamesFollow(w: World, w': World) {
    forall n, c :: n in w'.server.procs && |w.children| <= c < |w'.children| && w'.children[c].name == n ==>
      w'.server.procs[n].child == c
  }

  lemma LineNamesFollow(w: World, env: Env)
    requires Family(w)
    ensures NamesFollow(w, Step(w, TakeLine(env))) && |Step(w, TakeLine(env)).children| <= |w.children| + 1
  {
    if w.mode == Serving && w.lines != [] {
      LineSpawns(w.server, w.lines[0], env);
      CommitChildren(w.(lines := w.lines[1..], now := env.t1), HandleLine(w.server, w.lines[0], env));
    }
  }

  lemma StepNamesFollow(w: World, l: Label)
    requires Family(w) && Identities(w.server) && Subscriptions(w.server) && Modes(w)
    ensures NamesFollow(w, Step(w, l)) && |Step(w, l).children| <= |w.children| + 1
  {
    match l {
      case TakeLine(env) => LineNamesFollow(w, env);
      case TakeRelay(env) =>
        if w.queue != [] {
          TakenChildren(w, env);
        }
      case ShutDown(plan) =>
        KillAllSpares(w.server, plan);
      case _ =>
    }
  }

  lemma GrownYoungest(w: World, w': World)
    requires Youngest(w) && Family(w) && Grows(w, w') && NamesFollow(w, w') && Family(w')
    ensures Youngest(w')
  {
    forall n, c | n in w'.server.procs && w'.server.procs[n].child < c < |w'.children|
      ensures w'.children[c].name != n
    {
    }
  }

  // ---- the two steps that move messages ----

  /** The message at the head of the queue may be logged. */
  lemma HeadAdmissible(w: World, e: Event)
    requires Family(w) && QueueFits(w) && QueueRemembered(w) && Youngest(w) && w.queue != []
    requires e.Logged? && e.item == w.queue[0] && Carries(e.item, e.msg)
    requires Present(w.server, e.item.name, e.entry)
    ensures Admissible(w.children, e)
  {
    assert Fits(w.children, w.queue[0]);
    assert e.item.child <= e.entry;
    assert e.item.child < e.entry ==> InFlight(w.children[e.entry], w.queue[0]);
  }

  lemma LogsRelayed(s: Server, item: Relay, env: Env, i: nat)
    requires i < |HandleRelay(s, item, env).events| && HandleRelay(s, item, env).events[i].Logged?
    ensures var e := HandleRelay(s, item, env).events[i];
            e.item == item && Carries(item, e.msg) && Present(s, item.name, e.entry)
  {
  }

  lemma TakenGrows(w: World, env: Env)
    requires w.queue != []
    ensures Grows(w, Taken(w, env))
  {
    TakenChildren(w, env);
    RelayLineage(w.server, w.queue[0], env);
    assert forall c :: 0 <= c < |w.children| ==> Kin(w.children[c], Taken(w, env).children[c]);
  }

  lemma LogsGrow(w: World, w': World, events: seq<Event>)
    requires LogsAdmissible(w) && Grows(w, w') && w'.trace == w.trace + events
    requires forall i :: 0 <= i < |events| && events[i].Logged? ==> Admissible(w.children, events[i])
    ensures LogsAdmissible(w')
  {
    forall i | 0 <= i < |w'.trace| && w'.trace[i].Logged? ensures Admissible(w'.children, w'.trace[i]) {
      if i < |w.trace| {
        AdmissibleStays(w, w', w.trace[i]);
      } else {
        AdmissibleStays(w, w', events[i - |w.trace|]);
      }
    }
  }

  lemma TakenLogs(w: World, env: Env)
    requires Family(w) && QueueFits(w) && QueueRemembered(w) && Youngest(w) && LogsAdmissible(w) && w.queue != []
    ensures LogsAdmissible(Taken(w, env))
  {
    var events := HandleRelay(w.server, w.queue[0], env).events;
    forall i | 0 <= i < |events| && events[i].Logged? ensures Admissible(w.children, events[i]) {
      LogsRelayed(w.server, w.queue[0], env, i);
      HeadAdmissible(w, events[i]);
    }
    TakenChildren(w, env);
    TakenGrows(w, env);
    LogsGrow(w, Taken(w, env), events);
  }

  lemma TakenRemembered(w: World, env: Env)
    requires Settled(w) && Remembered(w) && w.queue != []
    ensures Remembered(Taken(w, env))
  {
    var w' := Taken(w, env);
    TakenLogs(w, env);
    TakenChildren(w, env);
    RelayLineage(w.server, w.queue[0], env);
    forall c, x, stream | 0 <= c < x < |w'.children| && TaskOf(w'.children[c], stream).phase != Stopped
      ensures (c, stream) in w'.children[x].live
    {
      assert Kin(w.children[c], w'.children[c]) && Kin(w.children[x], w'.children[x]);
    }
    forall i, x | 0 <= i < |w'.queue| && 0 <= x < |w'.children| && w'.queue[i].child < x
      ensures InFlight(w'.children[x], w'.queue[i])
    {
      assert w'.queue[i] == w.queue[i + 1] && Kin(w.children[x], w'.children[x]);
      assert InFlight(w.children[x], w.queue[i + 1]);
    }
    forall n, c | n in w'.server.procs && w'.server.procs[n].child < c < |w'.children|
      ensures w'.children[c].name != n
    {
      assert Kin(w.children[c], w'.children[c]);
    }
  }

  lemma WrittenRemembered(w: World, c: nat, stream: Stream, ev: ReadEvent)
    requires Settled(w) && Remembered(w)
    ensures Remembered(Step(w, ChildWrites(c, stream, ev)))
  {
    var w' := Step(w, ChildWrites(c, stream, ev));
    if c < |w.children| && TaskOf(w.children[c], stream).phase != Stopped {
      forall i, x | 0 <= i < |w'.queue| && 0 <= x < |w'.children| && w'.queue[i].child < x
        ensures InFlight(w'.children[x], w'.queue[i])
      {
        if i < |w.queue| {
          assert w'.queue[i] == w.queue[i];
          assert InFlight(w.children[x], w.queue[i]);
        }
      }
      forall i | 0 <= i < |w'.trace| && w'.trace[i].Logged? ensures Admissible(w'.children, w'.trace[i]) {
        assert Admissible(w.children, w.trace[i]);
      }
    }
  }

  lemma StepKeepsRemembered(w: World, l: Label)
    requires Settled(w) && Remembered(w)
    ensures Remembered(Step(w, l))
  {
    match l {
      case TakeRelay(env) =>
        if (w.mode == Outer || w.mode == Serving) && w.queue != [] && Timely(w, env) {
          TakenRemembered(w, env);
        }
      case ChildWrites(c, stream, ev) =>
        WrittenRemembered(w, c, stream, ev);
      case _ =>
        StepAside(w, l);
        StepGrows(w, l);
        StepBornAware(w, l);
        StepNamesFollow(w, l);
        StepKeepsFamily(w, l);
        GrownRemembered(w, Step(w, l));
    }
  }

  lemma GrownRemembered(w: World, w': World)
    requires Remembered(w) && Family(w) && Family(w')
    requires Grows(w, w') && Aside(w, w') && BornAware(w, w') && NamesFollow(w, w') && |w'.children| <= |w.children| + 1
    ensures Remembered(w')
  {
    GrownLogs(w, w');
    GrownMemory(w, w');
    GrownYoungest(w, w');
  }

  lemma {:induction false} RunRemembered(o: Oracle, run: seq<Label>)
    ensures Settled(Run(o, run)) && Remembered(Run(o, run))
  {
    RunSettled(o, run);
    if run != [] {
      RunRemembered(o, run[..|run| - 1]);
      StepKeepsRemembered(Run(o, run[..|run| - 1]), run[|run| - 1]);
    }
  }

  // ---- when a message is logged for another child ----

  predicate Foreign(e: Event) {
    e.Logged? && e.item.child != e.entry
  }

  /** The next relay message comes from another child than the one that has its name now. */
  predicate TakesForeign(w: World, l: Label) {
    && Enabled(w, l) && l.TakeRelay?
    && w.queue[0].name in w.server.procs && w.server.procs[w.queue[0].name].child != w.queue[0].child
  }

  lemma RelayForeign(s: Server, item: Relay, env: Env)
    ensures (exists e :: e in HandleRelay(s, item, env).events && Foreign(e))
            <==> item.name in s.procs && s.procs[item.name].child != item.child
  {
    var pre, take, post := RelaySplits(s, item, env);
    assert take in HandleRelay(s, item, env).events;
    forall e | e in pre + post ensures !Foreign(e) {
      assert !IsTake(e);
    }
  }

  /** A step logs a message for another child's entry exactly when it takes one from the queue whose name has a new holder. */
  lemma {:induction false} ForeignExactly(w: World, l: Label)
    ensures w.trace <= Step(w, l).trace
    ensures (exists e :: e in Step(w, l).trace[|w.trace|..] && Foreign(e)) <==> TakesForeign(w, l)
  {
    StepTrace(w, l);
    assert Step(w, l).trace[|w.trace|..] == NewEvents(w, l);
    if l.TakeRelay? {
      if Enabled(w, l) {
        RelayForeign(w.server, w.queue[0], l.env);
      }
    } else {
      OthersLogNothing(w, l);
    }
  }

  lemma OthersLogNothing(w: World, l: Label)
    requires !l.TakeRelay?
    ensures forall e :: e in NewEvents(w, l) ==> !IsTake(e)
  {
    match l {
      case TakeLine(env) =>
        if Enabled(w, l) {
          LineTakes(w.server, w.lines[0], env);
        }
      case ShutDown(plan) => KillAllTakes(w.server, plan);
      case _ =>
    }
  }

  // ---- what follows for every run ----

  /**
   Whatever an entry logs comes from its own child or from an older child of the same name, and in
   the second case it was queued, or its task was still going, when the entry was spawned.
   */
  lemma {:induction false} IncarnationIsolation(o: Oracle, run: seq<Label>, i: nat)
    requires i < |Run(o, run).trace| && Run(o, run).trace[i].Logged?
    ensures var w := Run(o, run);
            var e := w.trace[i];
            && e.entry < |w.children|
            && e.item.child <= e.entry
            && w.children[e.item.child].name == w.children[e.entry].name == e.item.name
            && Carries(e.item, e.msg)
            && (e.item.child != e.entry ==> InFlight(w.children[e.entry], e.item))
  {
    RunRemembered(o, run);
    assert Admissible(Run(o, run).children, Run(o, run).trace[i]);
  }

  /** Nothing of an older child of the same name was in flight when the child was spawned. */
  ghost predicate CleanSpawn(children: seq<Child>, x: nat)
    requires x < |children|
  {
    && (forall i :: 0 <= i < |children[x].inflight| ==> children[x].inflight[i].name != children[x].name)
    && (forall c, stream :: 0 <= c < x && children[c].name == children[x].name ==> (c, stream) !in children[x].live)
  }

  /** A child spawned clean has its log to itself. */
  lemma {:induction false} CleanSpawnIsolates(o: Oracle, run: seq<Label>, i: nat)
    requires i < |Run(o, run).trace| && Run(o, run).trace[i].Logged?
    requires Run(o, run).trace[i].entry < |Run(o, run).children|
    requires CleanSpawn(Run(o, run).children, Run(o, run).trace[i].entry)
    ensures Run(o, run).trace[i].item.child == Run(o, run).trace[i].entry
  {
    IncarnationIsolation(o, run, i);
  }
}
