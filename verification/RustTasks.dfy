/** When the relay tasks of a child in the Rust server are told to stop, and how they end. */
module RustTasks {
  import opened Protocol
  import opened StreamRelay
  import opened RustServer
  import opened RustMoves
  import opened RustHandlers
  import opened RustWorld
  import opened RustRuns
  import opened RustTheorems
  import opened RustKill
  import opened RustExits
  import opened RustSteps
  import opened RustReaps

  /** The step kills the running process of a child: on command, or in a shutdown. */
  ghost predicate KillsChild(w: World, l: Label, x: nat) {
    exists n :: KillsNamed(w, l, n) && w.server.procs[n].child == x
  }

  predicate KillsNamed(w: World, l: Label, n: Name) {
    && n in w.server.procs && w.server.procs[n].status == Running
    && (Orders(w, l, Kill, n) || (Enabled(w, l) && l.ShutDown?))
  }

  /** A running entry has its child's pid and holds both relay tasks. */
  predicate Held(e: Entry) {
    e.status == Running ==> e.reaped.None? && e.outTask && e.errTask
  }

  ghost predicate AllHeld(s: Server) {
    forall n :: n in s.procs ==> Held(s.procs[n])
  }

  lemma KillEntryAborts(e: Entry, env: Env, x: nat, stream: Stream)
    requires Held(e)
    ensures Aborted(x, stream) in KillEntry(e, env).1 <==> e.child == x && e.status == Running
  {
    KillEnds(e, env);
  }

  lemma CmdKillAborts(s: Server, cmd: CmdMsg, env: Env, x: nat, stream: Stream)
    requires AllHeld(s)
    ensures Aborted(x, stream) in CmdKill(s, cmd, env).events
            <==> cmd.name in s.procs && s.procs[cmd.name].child == x && s.procs[cmd.name].status == Running
  {
    if cmd.name in s.procs {
      var killed := KillEntry(s.procs[cmd.name], env);
      KillEntryAborts(s.procs[cmd.name], env, x, stream);
      KillRecords(s, cmd, env);
    }
  }

  lemma CommandAbortsNone(s: Server, cmd: CmdMsg, env: Env)
    requires !cmd.verb.Kill?
    ensures forall e :: e in HandleCommand(s, cmd, env).events ==> !e.Aborted?
  {
    match cmd.verb {
      case Spawn => SpawnAbortsNone(s, cmd, env);
      case Subscribe => SubscribeAbortsNone(s, cmd);
      case _ =>
    }
  }

  lemma SpawnAbortsNone(s: Server, cmd: CmdMsg, env: Env)
    ensures forall e :: e in CmdSpawn(s, cmd, env).events ==> !e.Aborted?
  {
  }

  lemma SubscribeAbortsNone(s: Server, cmd: CmdMsg)
    ensures forall e :: e in CmdSubscribe(s, cmd).events ==> !e.Aborted?
  {
    if cmd.name in s.procs {
      var e := s.procs[cmd.name];
      ReplayShape(Put(s, cmd.name, e.(buffer := [], subscribed := true)), e.child, e.buffer);
    }
  }

  lemma RelayAbortsNone(s: Server, item: Relay, env: Env)
    ensures forall e :: e in HandleRelay(s, item, env).events ==> !e.Aborted?
  {
  }

  // ---- a shutdown ----

  predicate Doomed(s: Server, at: (Name, Env), x: nat) {
    at.0 in s.procs && s.procs[at.0].child == x && s.procs[at.0].status == Running
  }

  ghost predicate PlanDooms(s: Server, plan: seq<(Name, Env)>, x: nat)
  {
    plan != [] && (PlanDooms(s, plan[..|plan| - 1], x) || Doomed(s, plan[|plan| - 1], x))
  }

  lemma {:induction false} PlanMeets(s: Server, plan: seq<(Name, Env)>, x: nat)
    ensures PlanDooms(s, plan, x) <==> exists at :: at in plan && Doomed(s, at, x)
  {
    if plan != [] {
      assert plan == plan[..|plan| - 1] + [plan[|plan| - 1]];
      PlanMeets(s, plan[..|plan| - 1], x);
    }
  }

  lemma KillProcessAborts(s: Server, n: Name, env: Env, x: nat, stream: Stream)
    requires n in s.procs ==> Held(s.procs[n])
    ensures Aborted(x, stream) in KillProcess(s, n, env).events <==> Doomed(s, (n, env), x)
  {
    if n in s.procs {
      KillEntryAborts(s.procs[n], env, x, stream);
    }
  }

  lemma {:induction false} KillAllAborts(s: Server, plan: seq<(Name, Env)>, x: nat, stream: Stream)
    requires AllHeld(s) && forall i, j :: 0 <= i < j < |plan| ==> plan[i].0 != plan[j].0
    ensures Aborted(x, stream) in KillAll(s, plan).events <==> PlanDooms(s, plan, x)
  {
    if plan != [] {
      var init, last := plan[..|plan| - 1], plan[|plan| - 1];
      KillAllAborts(s, init, x, stream);
      NotKilledYet(s, plan);
      KillProcessAborts(KillAll(s, init).server, last.0, last.1, x, stream);
    }
  }

  lemma ShutdownAborts(w: World, plan: seq<(Name, Env)>, x: nat, stream: Stream)
    requires AllHeld(w.server) && Enabled(w, ShutDown(plan))
    ensures Aborted(x, stream) in NewEvents(w, ShutDown(plan)) <==> KillsChild(w, ShutDown(plan), x)
  {
    KillAllAborts(w.server, plan, x, stream);
    PlanMeets(w.server, plan, x);
    if at :| at in plan && Doomed(w.server, at, x) {
      assert KillsNamed(w, ShutDown(plan), at.0);
    }
    if n :| KillsNamed(w, ShutDown(plan), n) && w.server.procs[n].child == x {
      var i := Place(plan, w.server.procs, n);
      assert plan[i] in plan && Doomed(w.server, plan[i], x);
    }
  }

  // ---- every step ----

  lemma LineAborts(w: World, l: Label, x: nat, stream: Stream)
    requires AllHeld(w.server) && Enabled(w, l) && l.TakeLine?
    ensures Aborted(x, stream) in NewEvents(w, l) <==> KillsChild(w, l, x)
  {
    if TakesCommand(w, l) {
      var cmd := w.lines[0].msg.cmd;
      if cmd.verb.Kill? {
        CmdKillAborts(w.server, cmd, l.env, x, stream);
        if Aborted(x, stream) in NewEvents(w, l) {
          assert KillsNamed(w, l, cmd.name);
        }
      } else {
        CommandAbortsNone(w.server, cmd, l.env);
      }
    }
  }

  lemma StepAborts(w: World, l: Label, x: nat, stream: Stream)
    requires AllHeld(w.server)
    ensures Aborted(x, stream) in NewEvents(w, l) <==> KillsChild(w, l, x)
  {
    if !Enabled(w, l) {
    } else if l.TakeLine? {
      LineAborts(w, l, x, stream);
    } else if l.ShutDown? {
      ShutdownAborts(w, l.plan, x, stream);
    } else if l.TakeRelay? {
      RelayAbortsNone(w.server, w.queue[0], l.env);
    }
  }

  /** A relay task after the step. */
  function PhaseNext(w: World, l: Label, c: nat, stream: Stream, killed: bool): Phase
    requires c < |w.children|
  {
    var phase := TaskOf(w.children[c], stream).phase;
    if l.ChildWrites? && l.child == c && l.stream == stream then (if l.ev.Text? then phase else Stopped)
    else if l.TaskStops? && l.child == c && l.stream == stream then (if phase == Stopping then Stopped else phase)
    else if killed && phase == Active then Stopping
    else phase
  }

  lemma CommitPhase(w: World, e: Effect, c: nat, stream: Stream)
    requires c < |w.children|
    ensures c < |Commit(w, e).children|
    ensures var phase := TaskOf(w.children[c], stream).phase;
            TaskOf(Commit(w, e).children[c], stream).phase ==
            if Aborted(c, stream) in e.events && phase == Active then Stopping else phase
  {
  }

  lemma RelayPhase(w: World, env: Env, c: nat, stream: Stream)
    requires c < |w.children|
    ensures var l := TakeRelay(env);
            && c < |Step(w, l).children|
            && TaskOf(Step(w, l).children[c], stream).phase == PhaseNext(w, l, c, stream, Aborted(c, stream) in NewEvents(w, l))
  {
    if Enabled(w, TakeRelay(env)) {
      CommitPhase(w.(queue := w.queue[1..], now := env.t1), HandleRelay(w.server, w.queue[0], env), c, stream);
    }
  }

  lemma LinePhase(w: World, env: Env, c: nat, stream: Stream)
    requires c < |w.children|
    ensures var l := TakeLine(env);
            && c < |Step(w, l).children|
            && TaskOf(Step(w, l).children[c], stream).phase == PhaseNext(w, l, c, stream, Aborted(c, stream) in NewEvents(w, l))
  {
    if Enabled(w, TakeLine(env)) {
      CommitPhase(w.(lines := w.lines[1..], now := env.t1), HandleLine(w.server, w.lines[0], env), c, stream);
    }
  }

  lemma StepPhase(w: World, l: Label, c: nat, stream: Stream)
    requires c < |w.children|
    ensures c < |Step(w, l).children|
    ensures TaskOf(Step(w, l).children[c], stream).phase == PhaseNext(w, l, c, stream, Aborted(c, stream) in NewEvents(w, l))
  {
    if l.TakeRelay? {
      RelayPhase(w, l.env, c, stream);
    } else if l.TakeLine? {
      LinePhase(w, l.env, c, stream);
    } else if Enabled(w, l) {
      match l {
        case Accept(life) => CommitPhase(w.(mode := Serving, lines := [], lineEof := false), Connect(w.server, life), c, stream);
        case TakeEof => CommitPhase(w.(mode := Outer), Disconnect(w.server), c, stream);
        case ShutDown(plan) => CommitPhase(w.(mode := Finished), Shutdown(w.server, plan), c, stream);
        case _ =>
      }
    }
  }

  lemma RunAllHeld(o: Oracle, run: seq<Label>)
    requires Run(o, run).mode != Finished
    ensures AllHeld(Run(o, run).server)
  {
    RunHeld(o, run);
    forall n | n in Run(o, run).server.procs ensures Held(Run(o, run).server.procs[n]) {
      if Run(o, run).server.procs[n].status == Running {
        RunningIsUnreaped(o, run, n);
      }
    }
  }

  /**
   In every run a relay task is told to stop exactly by a kill of its child's running process, on command or in a
   shutdown: no other step touches it, and neither a respawn over an exited process nor a lost client does. Told so it may still read
   and report until it stops; and it ends by itself when its pipe does.
   */
  lemma {:induction false} TasksExactly(o: Oracle, run: seq<Label>, l: Label, c: nat, stream: Stream)
    requires c < |Run(o, run).children|
    ensures var w := Run(o, run);
            && c < |Step(w, l).children|
            && TaskOf(Step(w, l).children[c], stream).phase == PhaseNext(w, l, c, stream, KillsChild(w, l, c))
  {
    var w := Run(o, run);
    StepPhase(w, l, c, stream);
    if w.mode != Finished {
      RunAllHeld(o, run);
      StepAborts(w, l, c, stream);
    }
  }
}
