/** What killing one process, or all of them at shutdown, does and leaves alone. */
module RustKill {
  import opened Protocol
  import opened StreamRelay
  import opened RustServer
  import opened RustMoves
  import opened RustRecord
  import opened RustWorld
  import opened RustRuns
  import opened RustStreams
  import opened RustTheorems

  /** The event is about entry `x`, or answers a command. */
  predicate Concerns(x: nat, e: Event) {
    match e
    case Reaped(y, _) => y == x
    case Aborted(y, _) => y == x
    case Forgotten(y, _, _) => y == x
    case Answered(_, _, _, _) => true
    case _ => false
  }

  /** Killing an entry records only that its child was reaped and its tasks told to stop. */
  lemma KillEntryConcerns(e: Entry, env: Env)
    ensures var r := KillEntry(e, env);
            && r.0.child == e.child && r.0.buffer == e.buffer
            && forall i :: 0 <= i < |r.1| ==> (r.1[i].Reaped? || r.1[i].Aborted?) && Concerns(e.child, r.1[i])
  {
  }

  lemma KillProcessConcerns(s: Server, name: Name, env: Env)
    requires name in s.procs
    ensures var r := KillProcess(s, name, env);
            && r.server == s.(procs := r.server.procs) && r.server.procs.Keys == s.procs.Keys
            && (forall n :: n in s.procs && n != name ==> r.server.procs[n] == s.procs[n])
            && r.server.procs[name].child == s.procs[name].child && r.server.procs[name].buffer == s.procs[name].buffer
            && forall i :: 0 <= i < |r.events| ==>
                 && (r.events[i].Reaped? || r.events[i].Aborted?)
                 && Concerns(s.procs[name].child, r.events[i])
  {
    KillEntryConcerns(s.procs[name], env);
    KillsInPlace(s, name, env);
  }

  lemma KillsInPlace(s: Server, name: Name, env: Env)
    requires name in s.procs
    ensures KillProcess(s, name, env) == Effect(s.(procs := s.procs[name := KillEntry(s.procs[name], env).0]), KillEntry(s.procs[name], env).1)
  {
  }

  /** What killing a name in the table records: the kill, what is forgotten, and the answer. */
  lemma KillEvents(s: Server, cmd: CmdMsg, env: Env) returns (answered: Event)
    requires cmd.name in s.procs
    ensures CmdKill(s, cmd, env).events ==
            KillProcess(s, cmd.name, env).events
            + [Forgotten(s.procs[cmd.name].child, cmd.name, s.procs[cmd.name].buffer), answered]
    ensures answered.Answered? && answered.result.ok
  {
    KillProcessConcerns(s, cmd.name, env);
    var evs := CmdKill(s, cmd, env).events;
    answered := evs[|evs| - 1];
  }

  lemma KillServer(s: Server, cmd: CmdMsg, env: Env)
    ensures var r := CmdKill(s, cmd, env).server;
            r.procs == s.procs - {cmd.name} && r.spawns == s.spawns && r.conns == s.conns
  {
    if cmd.name in s.procs {
      KillProcessConcerns(s, cmd.name, env);
      assert KillProcess(s, cmd.name, env).server.procs - {cmd.name} == s.procs - {cmd.name};
    } else {
      assert s.procs - {cmd.name} == s.procs;
    }
  }

  /**
   For `KillSparesOthers`: a kill of a present name removes exactly that entry; every other entry keeps its buffer, flags, status
   and timestamps, and nothing is recorded about it.
   */
  lemma KillRemovesExactly(s: Server, cmd: CmdMsg, env: Env)
    ensures var r := CmdKill(s, cmd, env);
            && r.server.procs == s.procs - {cmd.name}
            && r.server.spawns == s.spawns && r.server.conns == s.conns
            && r.events != []
            && r.events[|r.events| - 1].Answered?
            && r.events[|r.events| - 1].result.ok == (cmd.name in s.procs)
            && (cmd.name in s.procs ==>
                  forall i :: 0 <= i < |r.events| ==> Concerns(s.procs[cmd.name].child, r.events[i]))
  {
    KillServer(s, cmd, env);
    if cmd.name in s.procs {
      KillProcessConcerns(s, cmd.name, env);
      var answered := KillEvents(s, cmd, env);
    }
  }

  /** The exit status the two waits after a kill end with. */
  function Verdict(env: Env): Wait {
    if env.soon.Gone? then env.soon else env.late
  }

  /**
   For `KillStopsTasks`: a running process whose group is found has exited after the kill: reaped in time or after SIGKILL with the
   code of that wait, or given up on without a code. Both its tasks are told to stop. When the group is not
   found it stays as it was but for its tasks; a process that is not running is not touched.
   */
  lemma KillEnds(e: Entry, env: Env)
    ensures var r := KillEntry(e, env);
            if e.status != Running || e.reaped.Some? then r == (e, [])
            else
              && !r.0.outTask && !r.0.errTask
              && (e.outTask ==> Aborted(e.child, OutStream) in r.1)
              && (e.errTask ==> Aborted(e.child, ErrStream) in r.1)
              && (env.pgid.Some? ==> r.0 == e.(outTask := false, errTask := false))
              && (env.pgid.None? ==>
                    && r.0.status == Exited
                    && match Verdict(env)
                       case Gone(c) => r.0.reaped == Some(c) && r.0.exitCode == c && Reaped(e.child, c) in r.1
                       case NotYet => r.0.reaped.None? && r.0.exitCode.None?)
  {
    var r := KillEntry(e, env);
    if e.status == Running && e.reaped.None? && env.pgid.None? && Verdict(env).Gone? {
      assert r.1[0] == Reaped(e.child, Verdict(env).code);
    }
  }

  // ---- tasks of running entries are held until the kill ----

  ghost predicate TasksHeld(s: Server) {
    forall n :: n in s.procs && s.procs[n].status == Running ==> s.procs[n].outTask && s.procs[n].errTask
  }

  lemma PassKeepsHeld(s: Server, item: Relay, msg: ServerMsg)
    requires TasksHeld(s)
    ensures TasksHeld(RelayOrBuffer(s, item, msg).server)
  {
  }

  lemma RelayKeepsHeld(s: Server, item: Relay, env: Env)
    requires TasksHeld(s)
    ensures TasksHeld(HandleRelay(s, item, env).server)
  {
    if item.name in s.procs {
      var e := s.procs[item.name];
      match item.body {
        case OutLine(data) => PassKeepsHeld(Put(s, item.name, e.(lastStdout := env.t0)), item, Stdout(item.name, data));
        case TextLine(text) => PassKeepsHeld(s, item, Stderr(item.name, text));
        case Ended(code) =>
          var settled := Settle(e, code, env.soon).0;
          PassKeepsHeld(Put(s, item.name, settled), item, Exit(item.name, settled.exitCode));
      }
    }
  }

  lemma SpawnKeepsHeld(s: Server, cmd: CmdMsg, env: Env)
    requires TasksHeld(s)
    ensures TasksHeld(CmdSpawn(s, cmd, env).server)
  {
  }

  lemma SubscribeKeepsHeld(s: Server, cmd: CmdMsg)
    requires TasksHeld(s)
    ensures TasksHeld(CmdSubscribe(s, cmd).server)
  {
    if cmd.name in s.procs {
      var e := s.procs[cmd.name];
      ReplayShape(Put(s, cmd.name, e.(buffer := [], subscribed := true)), e.child, e.buffer);
    }
  }

  lemma UnsubscribeKeepsHeld(s: Server, cmd: CmdMsg)
    requires TasksHeld(s)
    ensures TasksHeld(CmdUnsubscribe(s, cmd).server)
  {
  }

  lemma LineKeepsHeld(s: Server, line: Line, env: Env)
    requires TasksHeld(s)
    ensures TasksHeld(HandleLine(s, line, env).server)
  {
    if line.Parsed? && line.msg.Cmd? {
      var cmd := line.msg.cmd;
      match cmd.verb {
        case Kill => KillRemovesExactly(s, cmd, env);
        case Subscribe => SubscribeKeepsHeld(s, cmd);
        case Spawn => SpawnKeepsHeld(s, cmd, env);
        case Unsubscribe => UnsubscribeKeepsHeld(s, cmd);
        case _ =>
      }
    }
  }

  lemma StepKeepsHeld(w: World, l: Label)
    requires w.mode != Finished ==> TasksHeld(w.server)
    ensures Step(w, l).mode != Finished ==> TasksHeld(Step(w, l).server)
  {
    match l {
      case TakeRelay(env) =>
        if (w.mode == Outer || w.mode == Serving) && w.queue != [] {
          RelayKeepsHeld(w.server, w.queue[0], env);
        }
      case TakeLine(env) =>
        if w.mode == Serving && w.lines != [] {
          LineKeepsHeld(w.server, w.lines[0], env);
        }
      case _ =>
    }
  }

  lemma {:induction false} RunHeld(o: Oracle, run: seq<Label>)
    ensures var w := Run(o, run); w.mode != Finished ==> TasksHeld(w.server)
  {
    if run != [] {
      RunHeld(o, run[..|run| - 1]);
      StepKeepsHeld(Run(o, run[..|run| - 1]), run[|run| - 1]);
    }
  }

  lemma AbortedTasksStop(w: World, e: Effect, c: nat, stream: Stream)
    requires c < |w.children| && Aborted(c, stream) in e.events
    ensures TaskOf(Commit(w, e).children[c], stream).phase != Active
  {
  }

  predicate NextIsKill(w: World, env: Env, cmd: CmdMsg) {
    && w.mode == Serving && w.lines != [] && Timely(w, env)
    && w.lines[0] == Parsed(Cmd(cmd)) && cmd.verb == Kill
  }

  lemma KillAborts(s: Server, cmd: CmdMsg, env: Env, stream: Stream)
    requires cmd.name in s.procs
    requires var e := s.procs[cmd.name]; e.status == Running && e.reaped.None? && e.outTask && e.errTask
    ensures Aborted(s.procs[cmd.name].child, stream) in CmdKill(s, cmd, env).events
  {
    KillEnds(s.procs[cmd.name], env);
    assert Aborted(s.procs[cmd.name].child, stream) in KillEntry(s.procs[cmd.name], env).1;
  }

  /** In every run, killing a running process tells both its relay tasks to stop and takes its name out of the table. */
  lemma {:induction false} KillStopsTasks(o: Oracle, run: seq<Label>, env: Env, cmd: CmdMsg)
    requires NextIsKill(Run(o, run), env, cmd) && cmd.name in Run(o, run).server.procs
    requires Run(o, run).server.procs[cmd.name].status == Running
    ensures var w := Run(o, run);
            var w' := Step(w, TakeLine(env));
            var c := w.server.procs[cmd.name].child;
            && c < |w'.children|
            && w'.children[c].out.phase != Active && w'.children[c].err.phase != Active
            && w'.server.procs == w.server.procs - {cmd.name}
  {
    var w := Run(o, run);
    RunningIsUnreaped(o, run, cmd.name);
    RunHeld(o, run);
    RunFamily(o, run, cmd.name);
    KillCommitted(w, env, cmd);
  }

  lemma KillCommitted(w: World, env: Env, cmd: CmdMsg)
    requires NextIsKill(w, env, cmd) && cmd.name in w.server.procs
    requires var e := w.server.procs[cmd.name];
             e.status == Running && e.reaped.None? && e.outTask && e.errTask && e.child < |w.children|
    ensures var w' := Step(w, TakeLine(env));
            var c := w.server.procs[cmd.name].child;
            && c < |w'.children|
            && w'.children[c].out.phase != Active && w'.children[c].err.phase != Active
            && w'.server.procs == w.server.procs - {cmd.name}
  {
    var c, effect := w.server.procs[cmd.name].child, CmdKill(w.server, cmd, env);
    var w0 := w.(lines := w.lines[1..], now := env.t1);
    KillRemovesExactly(w.server, cmd, env);
    KillAborts(w.server, cmd, env, OutStream);
    KillAborts(w.server, cmd, env, ErrStream);
    AbortedTasksStop(w0, effect, c, OutStream);
    AbortedTasksStop(w0, effect, c, ErrStream);
  }

  lemma KillIsNeutral(s: Server, cmd: CmdMsg, env: Env)
    ensures forall i :: 0 <= i < |CmdKill(s, cmd, env).events| ==> Neutral(CmdKill(s, cmd, env).events[i])
  {
  }

  lemma KillAbortsOne(s: Server, cmd: CmdMsg, env: Env, c: nat, stream: Stream)
    requires cmd.name in s.procs ==> c != s.procs[cmd.name].child
    ensures Aborted(c, stream) !in CmdKill(s, cmd, env).events
  {
    if cmd.name in s.procs {
      KillProcessConcerns(s, cmd.name, env);
      var answered := KillEvents(s, cmd, env);
    }
  }

  lemma OtherChildrenStay(w: World, env: Env, cmd: CmdMsg, c: nat)
    requires NextIsKill(w, env, cmd) && c < |w.children|
    requires cmd.name in w.server.procs ==> c != w.server.procs[cmd.name].child
    ensures var w' := Step(w, TakeLine(env));
            |w'.children| == |w.children| && w'.children[c] == w.children[c]
  {
    KillRemovesExactly(w.server, cmd, env);
    KillAbortsOne(w.server, cmd, env, c, OutStream);
    KillAbortsOne(w.server, cmd, env, c, ErrStream);
  }

  /** What a kill adds to the record of what was forgotten. */
  lemma KillForgetsOf(s: Server, cmd: CmdMsg, env: Env, tr: seq<Event>, x: nat)
    ensures Forgets(x, tr + CmdKill(s, cmd, env).events) ==
            Forgets(x, tr)
            + if cmd.name in s.procs && s.procs[cmd.name].child == x then [s.procs[cmd.name].buffer] else []
  {
    var evs := CmdKill(s, cmd, env).events;
    if cmd.name !in s.procs {
      TableSame(x, tr, evs);
    } else {
      var killed := KillProcess(s, cmd.name, env).events;
      var answered := KillEvents(s, cmd, env);
      var forgotten := Forgotten(s.procs[cmd.name].child, cmd.name, s.procs[cmd.name].buffer);
      KillProcessConcerns(s, cmd.name, env);
      assert tr + evs == ((tr + killed) + [forgotten]) + [answered];
      TableSame(x, tr, killed);
      TableLast(x, tr + killed, forgotten);
      TableLast(x, (tr + killed) + [forgotten], answered);
    }
  }

  /**
   In every run a kill takes out one name and nothing else: all other entries are the same, no log and no
   cursor of any entry ever spawned moves, nothing leaves the relay queue, and no other child's tasks notice.
   What the killed process still had buffered is forgotten, and nothing of any other.
   */
  lemma {:induction false} KillSparesOthers(o: Oracle, run: seq<Label>, env: Env, cmd: CmdMsg)
    requires NextIsKill(Run(o, run), env, cmd)
    ensures var w, w' := Run(o, run), Step(Run(o, run), TakeLine(env));
            && w'.server.procs == w.server.procs - {cmd.name} && w'.queue == w.queue
            && (forall x: nat :: Marks(x, w'.trace) == Marks(x, w.trace))
            && (forall x: nat :: Forgets(x, w'.trace) ==
                  Forgets(x, w.trace)
                  + if Present(w.server, cmd.name, x) then [w.server.procs[cmd.name].buffer] else [])
            && |w'.children| == |w.children|
            && (forall c :: 0 <= c < |w.children| && !Present(w.server, cmd.name, c) ==> w'.children[c] == w.children[c])
  {
    var w := Run(o, run);
    var w' := Step(w, TakeLine(env));
    KillRemovesExactly(w.server, cmd, env);
    KillIsNeutral(w.server, cmd, env);
    forall x: nat ensures Marks(x, w'.trace) == Marks(x, w.trace) {
      NeutralMarks(x, w.trace, CmdKill(w.server, cmd, env).events);
    }
    forall x: nat
      ensures Forgets(x, w'.trace) ==
              Forgets(x, w.trace) + if Present(w.server, cmd.name, x) then [w.server.procs[cmd.name].buffer] else []
    {
      KillForgetsOf(w.server, cmd, env, w.trace, x);
    }
    forall c | 0 <= c < |w.children| && !Present(w.server, cmd.name, c) ensures w'.children[c] == w.children[c] {
      OtherChildrenStay(w, env, cmd, c);
    }
  }

  lemma RunFamily(o: Oracle, run: seq<Label>, n: Name)
    requires n in Run(o, run).server.procs
    ensures Run(o, run).server.procs[n].child < |Run(o, run).children|
  {
    RunSettled(o, run);
  }

  // ---- shutdown ----

  lemma KillProcessOutcome(s: Server, name: Name, env: Env)
    ensures var r := KillProcess(s, name, env).server.procs;
            && r.Keys == s.procs.Keys
            && forall n :: n in s.procs ==> r[n] == if n == name then KillEntry(s.procs[n], env).0 else s.procs[n]
  {
  }

  /** Each named process is killed once; the others are left alone. */
  ghost predicate Killed(before: map<Name, Entry>, after: map<Name, Entry>, plan: seq<(Name, Env)>) {
    && after.Keys == before.Keys
    && (forall i :: 0 <= i < |plan| && plan[i].0 in before ==> after[plan[i].0] == KillEntry(before[plan[i].0], plan[i].1).0)
    && (forall n :: n in before && (forall i :: 0 <= i < |plan| ==> plan[i].0 != n) ==> after[n] == before[n])
  }

  lemma KilledOneMore(before: map<Name, Entry>, mid: map<Name, Entry>, after: map<Name, Entry>, plan: seq<(Name, Env)>)
    requires plan != [] && forall i, j :: 0 <= i < j < |plan| ==> plan[i].0 != plan[j].0
    requires Killed(before, mid, plan[..|plan| - 1])
    requires var last := plan[|plan| - 1];
             && after.Keys == mid.Keys
             && forall n :: n in mid ==> after[n] == if n == last.0 then KillEntry(mid[n], last.1).0 else mid[n]
    ensures Killed(before, after, plan)
  {
    var init, last := plan[..|plan| - 1], plan[|plan| - 1];
    forall i | 0 <= i < |plan| && plan[i].0 in before
      ensures after[plan[i].0] == KillEntry(before[plan[i].0], plan[i].1).0
    {
      if i < |init| {
        assert init[i] == plan[i] && plan[i].0 != last.0;
      } else {
        assert mid[last.0] == before[last.0];
      }
    }
    forall n | n in before && forall i :: 0 <= i < |plan| ==> plan[i].0 != n ensures after[n] == before[n] {
      assert plan[|plan| - 1].0 != n;
      assert forall i :: 0 <= i < |init| ==> init[i].0 == plan[i].0;
    }
  }

  lemma {:induction false} KillAllOutcome(s: Server, plan: seq<(Name, Env)>)
    requires forall i, j :: 0 <= i < j < |plan| ==> plan[i].0 != plan[j].0
    ensures Killed(s.procs, KillAll(s, plan).server.procs, plan)
  {
    if plan != [] {
      var init, last := plan[..|plan| - 1], plan[|plan| - 1];
      KillAllOutcome(s, init);
      KillProcessOutcome(KillAll(s, init).server, last.0, last.1);
      KilledOneMore(s.procs, KillAll(s, init).server.procs, KillAll(s, plan).server.procs, plan);
    }
  }

  lemma ShutdownEntry(w: World, plan: seq<(Name, Env)>, i: nat)
    requires w.mode == Outer && Covers(plan, w.server.procs) && i < |plan|
    ensures var s' := Step(w, ShutDown(plan)).server;
            && s'.client.None? && s'.procs.Keys == w.server.procs.Keys
            && s'.procs[plan[i].0] == KillEntry(w.server.procs[plan[i].0], plan[i].1).0
  {
    KillAllOutcome(w.server, plan);
  }

  /** What a kill leaves of an entry whose child is still there. */
  ghost predicate Outcome(e: Entry, e': Entry, env: Env) {
    && e'.buffer == e.buffer && e'.subscribed == e.subscribed
    && if e.status == Running && env.pgid.None?
       then
         && e'.status == Exited
         && match Verdict(env)
            case Gone(c) => e'.reaped == Some(c) && e'.exitCode == c
            case NotYet => e'.reaped == e.reaped && e'.exitCode.None?
       else e'.status == e.status && e'.reaped == e.reaped && e'.exitCode == e.exitCode
  }

  lemma KillOutcome(e: Entry, env: Env)
    requires e.status == Running ==> e.reaped.None?
    ensures Outcome(e, KillEntry(e, env).0, env)
  {
  }

  /**
   A shutdown in any reachable state: a process that was running and whose group was found is exited, with
   the code of the wait that returned or without one; every other process is as it was. So a process is
   still marked running exactly when it was and its group was not found.
   */
  lemma {:induction false} ShutdownLeaves(o: Oracle, run: seq<Label>, plan: seq<(Name, Env)>, i: nat)
    requires Run(o, run).mode == Outer && Covers(plan, Run(o, run).server.procs) && i < |plan|
    ensures var s, s' := Run(o, run).server, Step(Run(o, run), ShutDown(plan)).server;
            var n, env := plan[i].0, plan[i].1;
            && s'.client.None? && s'.procs.Keys == s.procs.Keys
            && Outcome(s.procs[n], s'.procs[n], env)
            && (s'.procs[n].status == Running <==> s.procs[n].status == Running && env.pgid.Some?)
  {
    ShutdownEntry(Run(o, run), plan, i);
    RunningIsUnreaped(o, run, plan[i].0);
    KillOutcome(Run(o, run).server.procs[plan[i].0], plan[i].1);
  }

  lemma {:induction false} ShutdownEndsAll(o: Oracle, run: seq<Label>, plan: seq<(Name, Env)>)
    requires Run(o, run).mode == Outer && Covers(plan, Run(o, run).server.procs)
    requires forall i :: 0 <= i < |plan| ==> plan[i].1.pgid.None?
    ensures var s' := Step(Run(o, run), ShutDown(plan)).server;
            forall n :: n in s'.procs ==> s'.procs[n].status == Exited
  {
    var s, s' := Run(o, run).server, Step(Run(o, run), ShutDown(plan)).server;
    forall n | n in s'.procs ensures s'.procs[n].status == Exited {
      ShutdownNames(o, run, plan, n);
      var i := Place(plan, s.procs, n);
      ShutdownLeaves(o, run, plan, i);
    }
  }

  lemma ShutdownNames(o: Oracle, run: seq<Label>, plan: seq<(Name, Env)>, n: Name)
    requires Run(o, run).mode == Outer && Covers(plan, Run(o, run).server.procs)
    ensures n in Step(Run(o, run), ShutDown(plan)).server.procs ==> n in Run(o, run).server.procs
  {
    KillAllOutcome(Run(o, run).server, plan);
  }

  lemma Place(plan: seq<(Name, Env)>, procs: map<Name, Entry>, n: Name) returns (i: nat)
    requires Covers(plan, procs) && n in procs
    ensures i < |plan| && plan[i].0 == n
  {
    i :| 0 <= i < |plan| && plan[i].0 == n;
  }
}
