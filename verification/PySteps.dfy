/**
 What one step of the Python server does to each process, its relay tasks and its clocks, told from the state before
 the step and the label alone.
 */
module PySteps {
  import opened Protocol
  import opened StreamRelay
  import opened PyServer
  import opened PyRuns
  import opened PyTheorems
  import opened PyExits
  import opened PyReplay

  // ---- what a label does to a process ----

  /** A process is known to have exited, with this return code. */
  datatype End = End(proc: nat, code: Option<int>)

  /** The kill that the step completes: at once, after the wait of a handler, or in a shutdown. */
  function KillNow(s: Server, l: Label): Option<End>
  {
    match l
    case Line(_, _, env) =>
      if CommandRead(s, l, Kill) && RunsAs(s, l.line.msg.cmd.name) && env.signal.Some?
      then Some(End(s.procs[l.line.msg.cmd.name], env.code)) else None
    case Resume(c, _, env) =>
      if c < |s.handlers| && s.handlers[c].Killing? && s.handlers[c].proc < |s.all|
      then Some(End(s.handlers[c].proc, env.code)) else None
    case ShutdownNext(p, env) =>
      if Turned(s, p) && s.all[p].status == Running && env.signal.Some? then Some(End(p, env.code)) else None
    case ShutdownGone(code) =>
      if s.shutdown.Stopping? && s.shutdown.now.Some? && s.shutdown.now.value < |s.all|
      then Some(End(s.shutdown.now.value, code)) else None
    case _ => None
  }

  /** A running process has the name. */
  predicate RunsAs(s: Server, n: Name) {
    Find(s, n).Some? && s.all[s.procs[n]].status == Running
  }

  /** The shutdown, waiting for nothing, turns to `p`. */
  predicate Turned(s: Server, p: nat) {
    s.shutdown.Stopping? && s.shutdown.now.None? && p in s.shutdown.left && p < |s.all|
  }

  /** The exit that a stdout task reports in the step, having waited for the child. */
  function GoneNow(s: Server, l: Label): Option<End> {
    if l.ChildGone? && Free(s, l.proc) && s.all[l.proc].out.Reaping? then Some(End(l.proc, l.code)) else None
  }

  function EndNow(s: Server, l: Label): Option<End> {
    if KillNow(s, l).Some? then KillNow(s, l) else GoneNow(s, l)
  }

  /** The child's pipe has drained. */
  predicate Fed(s: Server, l: Label, p: nat) {
    l.Resume? && l.conn < |s.handlers| && s.handlers[l.conn] == Feeding(p) && l.ok
  }

  /** The stdout task takes a line that is JSON. */
  predicate Printed(s: Server, o: Oracle, l: Label, p: nat) {
    l.ReadOut? && l.proc == p && Free(s, p) && s.all[p].out.Listening? && l.ev.Text? && o.parse(o.trim(l.ev.line)).Some?
  }

  predicate Ends(end: Option<End>, p: nat) {
    end.Some? && end.value.proc == p
  }

  /** What is known of the child, the cancellation and the clocks follow the label; name and pid stay. */
  ghost predicate Follows(s: Server, s': Server, o: Oracle, l: Label, p: nat) {
    && p < |s.all| && p < |s'.all|
    && var e, e' := s.all[p], s'.all[p];
       && e'.name == e.name && e'.pid == e.pid
       && e'.status == (if Ends(EndNow(s, l), p) then Exited else e.status)
       && e'.exitCode == (if Ends(EndNow(s, l), p) then EndNow(s, l).value.code else e.exitCode)
       && e'.cancelled == (e.cancelled || Ends(KillNow(s, l), p))
       && e'.lastStdin == (if Fed(s, l, p) then l.env.now else e.lastStdin)
       && e'.lastStdout == (if Printed(s, o, l, p) then l.now else e.lastStdout)
  }

  // ---- handlers that change nothing of this ----

  predicate Kept(e: Process, e': Process) {
    && e'.name == e.name && e'.pid == e.pid && e'.status == e.status && e'.exitCode == e.exitCode
    && e'.cancelled == e.cancelled && e'.lastStdin == e.lastStdin && e'.lastStdout == e.lastStdout
  }

  ghost predicate AllKept(s: Server, s': Server) {
    |s.all| <= |s'.all| && forall p :: 0 <= p < |s.all| ==> Kept(s.all[p], s'.all[p])
  }

  /** One process changes to `e`. */
  ghost predicate OneBecomes(s: Server, s': Server, q: nat, e: Process) {
    && q < |s.all| && |s.all| <= |s'.all| && Kept(e, s'.all[q])
    && forall p :: 0 <= p < |s.all| && p != q ==> Kept(s.all[p], s'.all[p])
  }

  function Killed(e: Process, code: Option<int>): Process {
    e.(status := Exited, exitCode := code, cancelled := true)
  }

  lemma RetireKept(s: Server, w: nat)
    ensures AllKept(s, Retire(s, w))
  {
  }

  lemma SubscribeKept(s: Server, c: nat, cmd: CmdMsg, env: Env)
    requires c < |s.handlers| && cmd.verb.Subscribe?
    ensures AllKept(s, HandleCommand(s, c, cmd, env))
  {
    if Find(s, cmd.name).Some? {
      HandlesSubscribe(s, c, cmd, env);
    }
  }

  lemma UnsubscribeKept(s: Server, c: nat, name: Name)
    requires c < |s.handlers|
    ensures AllKept(s, CmdUnsubscribe(s, c, name))
  {
  }

  lemma KillKept(s: Server, c: nat, name: Name, env: Env)
    requires c < |s.handlers|
    ensures if RunsAs(s, name) && env.signal.Some?
            then OneBecomes(s, CmdKill(s, c, name, env), s.procs[name], Killed(s.all[s.procs[name]], env.code))
            else AllKept(s, CmdKill(s, c, name, env))
  {
  }

  lemma SpawnKept(s: Server, c: nat, name: Name)
    requires c < |s.handlers|
    ensures AllKept(s, CmdSpawn(s, c, name))
  {
  }

  lemma CommandKept(s: Server, c: nat, cmd: CmdMsg, env: Env)
    requires c < |s.handlers| && !cmd.verb.Kill?
    ensures AllKept(s, HandleCommand(s, c, cmd, env))
  {
    match cmd.verb {
      case Spawn => SpawnKept(s, c, cmd.name);
      case Subscribe => SubscribeKept(s, c, cmd, env);
      case Unsubscribe => UnsubscribeKept(s, c, cmd.name);
      case _ =>
    }
  }

  lemma FinishKillBecomes(s: Server, c: nat, p: nat, name: Name, code: Option<int>)
    requires c < |s.handlers|
    ensures if p < |s.all| then OneBecomes(s, FinishCmdKill(s, c, p, name, code), p, Killed(s.all[p], code))
            else AllKept(s, FinishCmdKill(s, c, p, name, code))
  {
  }

  lemma FinishSpawnKept(s: Server, c: nat, name: Name, outcome: SpawnOutcome)
    requires c < |s.handlers|
    ensures AllKept(s, FinishSpawn(s, c, name, outcome))
  {
  }

  lemma FinishSubscribeKept(s: Server, c: nat, h: Handler, ok: bool)
    requires c < |s.handlers| && h.Replaying?
    ensures AllKept(s, FinishSubscribe(s, c, h, ok))
  {
    RetireKept(s, h.writer);
  }

  lemma AnswerDrainedKept(s: Server, c: nat, w: nat, ok: bool)
    requires c < |s.handlers|
    ensures AllKept(s, AnswerDrained(s, c, w, ok))
  {
    RetireKept(s, w);
  }

  lemma NothingFollows(s: Server, s': Server, o: Oracle, l: Label, p: nat)
    requires AllKept(s, s') && p < |s.all|
    requires !Ends(EndNow(s, l), p) && !Fed(s, l, p) && !Printed(s, o, l, p)
    ensures Follows(s, s', o, l, p)
  {
  }

  lemma KillFollows(s: Server, s': Server, o: Oracle, l: Label, q: nat, code: Option<int>, p: nat)
    requires q < |s.all| && p < |s.all| && OneBecomes(s, s', q, Killed(s.all[q], code))
    requires KillNow(s, l) == Some(End(q, code)) && !Fed(s, l, p) && !Printed(s, o, l, p)
    ensures Follows(s, s', o, l, p)
  {
  }

  lemma LineEnds(s: Server, o: Oracle, l: Label, p: nat)
    requires l.Line? && l.conn < |s.handlers| && s.handlers[l.conn].Reading? && p < |s.all|
    ensures Follows(s, Step(s, o, l), o, l, p)
  {
    if l.line.Parsed? && l.line.msg.Cmd? {
      var cmd := l.line.msg.cmd;
      if cmd.verb.Kill? {
        KillKept(s, l.conn, cmd.name, l.env);
        if RunsAs(s, cmd.name) && l.env.signal.Some? {
          KillFollows(s, Step(s, o, l), o, l, s.procs[cmd.name], l.env.code, p);
        } else {
          NothingFollows(s, Step(s, o, l), o, l, p);
        }
      } else {
        CommandKept(s, l.conn, cmd, l.env);
        NothingFollows(s, Step(s, o, l), o, l, p);
      }
    } else {
      NothingFollows(s, Step(s, o, l), o, l, p);
    }
  }

  lemma FeedEnds(s: Server, o: Oracle, l: Label, p: nat)
    requires l.Resume? && l.conn < |s.handlers| && s.handlers[l.conn].Feeding? && p < |s.all|
    ensures Follows(s, Step(s, o, l), o, l, p)
  {
  }

  lemma ResumeEnds(s: Server, o: Oracle, l: Label, p: nat)
    requires l.Resume? && l.conn < |s.handlers| && p < |s.all|
    ensures Follows(s, Step(s, o, l), o, l, p)
  {
    var s', c := Step(s, o, l), l.conn;
    match s.handlers[c] {
      case Answering(w) => AnswerDrainedKept(s, c, w, l.ok); NothingFollows(s, s', o, l, p);
      case Replaying(_, _, _, _) => FinishSubscribeKept(s, c, s.handlers[c], l.ok); NothingFollows(s, s', o, l, p);
      case Spawning(name) => FinishSpawnKept(s, c, name, l.env.spawn); NothingFollows(s, s', o, l, p);
      case Killing(q, name) =>
        FinishKillBecomes(s, c, q, name, l.env.code);
        if q < |s.all| {
          KillFollows(s, s', o, l, q, l.env.code, p);
        } else {
          NothingFollows(s, s', o, l, p);
        }
      case Feeding(_) => FeedEnds(s, o, l, p);
      case _ => NothingFollows(s, s', o, l, p);
    }
  }

  // ---- relay tasks ----

  lemma EmitOutBecomes(s: Server, q: nat, body: Body, now: nat)
    requires q < |s.all|
    ensures OneBecomes(s, EmitOut(s, q, body, now), q, if body.OutLine? then s.all[q].(lastStdout := now) else s.all[q])
  {
  }

  lemma ReadOutEnds(s: Server, o: Oracle, l: Label, p: nat)
    requires l.ReadOut? && Free(s, l.proc) && s.all[l.proc].out.Listening? && p < |s.all|
    ensures Follows(s, Step(s, o, l), o, l, p)
  {
    if l.ev.Text? {
      var line := o.trim(l.ev.line);
      match o.parse(line) {
        case Some(v) => EmitOutBecomes(s, l.proc, OutLine(Wrap(v)), l.now);
        case None => EmitOutBecomes(s, l.proc, TextLine(line), l.now);
      }
    }
  }

  lemma ReadErrKept(s: Server, o: Oracle, q: nat, ev: ReadEvent)
    requires q < |s.all|
    ensures AllKept(s, TakeStderr(s, o, q, ev))
  {
  }

  lemma ReapBecomes(s: Server, q: nat, code: Option<int>)
    requires q < |s.all|
    ensures OneBecomes(s, Reap(s, q, code), q, s.all[q].(status := Exited, exitCode := code))
  {
  }

  lemma DrainKept(s: Server, q: nat, out: bool, ok: bool)
    requires q < |s.all|
    ensures AllKept(s, Drained(s, q, out, ok))
  {
    var task := if out then s.all[q].out else s.all[q].err;
    if task.Draining? || task.Parting? {
      RetireKept(s, task.writer);
    }
  }

  lemma TaskEnds(s: Server, o: Oracle, l: Label, p: nat)
    requires (l.ReadOut? || l.ReadErr? || l.ChildGone? || l.DrainEnds?) && Free(s, l.proc) && p < |s.all|
    ensures Follows(s, Step(s, o, l), o, l, p)
  {
    match l {
      case ReadOut(q, _, _) => if s.all[q].out.Listening? { ReadOutEnds(s, o, l, p); }
      case ReadErr(q, ev) => ReadErrKept(s, o, q, ev); NothingFollows(s, Step(s, o, l), o, l, p);
      case ChildGone(q, code) => if s.all[q].out.Reaping? { ReapBecomes(s, q, code); }
      case DrainEnds(q, out, ok) => DrainKept(s, q, out, ok); NothingFollows(s, Step(s, o, l), o, l, p);
    }
  }

  // ---- the shutdown and connections ----

  lemma ShutdownEnds(s: Server, o: Oracle, l: Label, p: nat)
    requires (l.BeginShutdown? || l.ShutdownNext? || l.ShutdownGone? || l.EndShutdown?) && p < |s.all|
    ensures Follows(s, Step(s, o, l), o, l, p)
  {
  }

  lemma ConnectionEnds(s: Server, o: Oracle, l: Label, p: nat)
    requires (l.Accept? || l.Greeted? || l.Vanish? || l.Depart? || l.Cancel?) && p < |s.all|
    ensures Follows(s, Step(s, o, l), o, l, p)
  {
    if l.Depart? {
      RetireKept(s, l.conn);
    }
  }

  lemma StepFollows(s: Server, o: Oracle, l: Label, p: nat)
    requires p < |s.all|
    ensures Follows(s, Step(s, o, l), o, l, p)
  {
    match l {
      case Line(c, _, _) =>
        if c < |s.handlers| && s.handlers[c].Reading? { LineEnds(s, o, l, p); }
      case Resume(c, _, _) => if c < |s.handlers| { ResumeEnds(s, o, l, p); }
      case ReadOut(q, _, _) => if Free(s, q) { TaskEnds(s, o, l, p); }
      case ReadErr(q, _) => if Free(s, q) { TaskEnds(s, o, l, p); }
      case ChildGone(q, _) => if Free(s, q) { TaskEnds(s, o, l, p); }
      case DrainEnds(q, _, _) => if Free(s, q) { TaskEnds(s, o, l, p); }
      case BeginShutdown => ShutdownEnds(s, o, l, p);
      case ShutdownNext(_, _) => ShutdownEnds(s, o, l, p);
      case ShutdownGone(_) => ShutdownEnds(s, o, l, p);
      case EndShutdown => ShutdownEnds(s, o, l, p);
      case _ => ConnectionEnds(s, o, l, p);
    }
  }

  /**
   In every step a process becomes known to have exited exactly when a kill of it is completed or its stdout task has waited for the
   child, with the return code of that moment; its tasks are told to stop exactly by a completed kill, so those of a
   process found exited go on; and its clocks move exactly when its pipe has drained and when a line of JSON is taken.
   */
  lemma {:induction false} ProcessExactly(s: Server, o: Oracle, l: Label, p: nat)
    requires p < |s.all|
    ensures p < |Step(s, o, l).all|
    ensures var e, e' := s.all[p], Step(s, o, l).all[p];
            && e'.name == e.name && e'.pid == e.pid
            && (e'.status == Exited <==> e.status == Exited || Ends(KillNow(s, l), p) || Ends(GoneNow(s, l), p))
            && e'.exitCode == (if Ends(KillNow(s, l), p) then KillNow(s, l).value.code
                               else if Ends(GoneNow(s, l), p) then GoneNow(s, l).value.code
                               else e.exitCode)
            && (e'.cancelled <==> e.cancelled || Ends(KillNow(s, l), p))
            && e'.lastStdin == (if Fed(s, l, p) then l.env.now else e.lastStdin)
            && e'.lastStdout == (if Printed(s, o, l, p) then l.now else e.lastStdout)
  {
    StepFollows(s, o, l, p);
  }

  // ---- new processes ----

  /** The child that a spawn waited for has started. */
  predicate Starts(s: Server, l: Label) {
    l.Resume? && l.conn < |s.handlers| && s.handlers[l.conn].Spawning? && l.env.spawn.Started?
  }

  lemma StartAdds(s: Server, o: Oracle, l: Label)
    requires Starts(s, l)
    ensures |Step(s, o, l).all| == |s.all| + 1
    ensures Step(s, o, l).all[|s.all|] ==
            Process(s.handlers[l.conn].name, l.env.spawn.pid, Running, None, [], false, 0, 0, Listening, Listening, false)
  {
  }

  lemma ResumeAddsNone(s: Server, o: Oracle, l: Label)
    requires l.Resume? && l.conn < |s.handlers| && !Starts(s, l)
    ensures |Step(s, o, l).all| == |s.all|
  {
    ResumeQuiet(s, l.conn, l.ok, l.env);
  }

  lemma LineAddsNone(s: Server, o: Oracle, l: Label)
    requires l.Line?
    ensures |Step(s, o, l).all| == |s.all|
  {
    if SubscribedNow(s, l).Some? {
      HandlesSubscribe(s, l.conn, l.line.msg.cmd, l.env);
    } else if l.conn < |s.handlers| && s.handlers[l.conn].Reading? {
      LineQuiet(s, o, l);
    }
  }

  lemma TaskAddsNone(s: Server, o: Oracle, l: Label)
    requires (l.ReadOut? || l.ReadErr? || l.ChildGone?) && Free(s, l.proc)
    ensures |Step(s, o, l).all| == |s.all|
  {
    RelayWidens(s, o, l);
  }

  /** Processes are added one by one, each when its child has started: running, known under its pid, with nothing behind it. */
  lemma {:induction false} NewcomersExactly(s: Server, o: Oracle, l: Label)
    ensures |Step(s, o, l).all| == |s.all| + if Starts(s, l) then 1 else 0
    ensures Starts(s, l) ==>
              Step(s, o, l).all[|s.all|] ==
              Process(s.handlers[l.conn].name, l.env.spawn.pid, Running, None, [], false, 0, 0, Listening, Listening, false)
  {
    match l {
      case Resume(c, _, _) => if Starts(s, l) { StartAdds(s, o, l); } else if c < |s.handlers| { ResumeAddsNone(s, o, l); }
      case Line(_, _, _) => LineAddsNone(s, o, l);
      case ReadOut(q, _, _) => if Free(s, q) { TaskAddsNone(s, o, l); }
      case ReadErr(q, _) => if Free(s, q) { TaskAddsNone(s, o, l); }
      case ChildGone(q, _) => if Free(s, q) { TaskAddsNone(s, o, l); }
      case Accept =>
      case _ => SimpleQuiet(s, o, l);
    }
  }
}
