/** What becomes of Python processes that leave the table: what they still have buffered is never written. */
module PyDepartures {
  import opened Protocol
  import opened Sequences
  import opened StreamRelay
  import opened PyServer
  import opened PyRuns
  import opened PyTheorems
  import L = RelayLog

  predicate InTable(s: Server, p: nat) {
    p < |s.all| && s.all[p].name in s.procs && s.procs[s.all[p].name] == p
  }

  // ---- who leaves the table ----

  /** The step takes the process under a name out of the table, or puts another in its place. */
  predicate TakesOut(s: Server, l: Label, n: Name)
  {
    match l
    case Line(c, Parsed(Cmd(cmd)), env) =>
      && c < |s.handlers| && s.handlers[c].Reading? && cmd.name == n && Find(s, n).Some?
      && var running := s.all[Find(s, n).value].status == Running;
         (cmd.verb.Spawn? && !running) || (cmd.verb.Kill? && (running ==> env.signal.Some?))
    case Resume(c, _, env) =>
      && c < |s.handlers|
      && ((s.handlers[c] == Spawning(n) && env.spawn.Started?) || (s.handlers[c].Killing? && s.handlers[c].name == n))
    case _ => false
  }

  /** Names keep their processes. */
  ghost predicate SameTable(s: Server, s': Server) {
    && s'.procs == s.procs && |s'.all| == |s.all|
    && forall p :: 0 <= p < |s.all| ==> s'.all[p].name == s.all[p].name
  }

  /** The process under one name is out of the table. */
  ghost predicate Without(s: Server, s': Server, n: Name) {
    && s'.procs == s.procs - {n} && |s'.all| == |s.all|
    && forall p :: 0 <= p < |s.all| ==> s'.all[p].name == s.all[p].name
  }

  /** What the step makes of the place of `p` in the table. */
  ghost predicate PlaceFollows(s: Server, s': Server, l: Label, p: nat) {
    && (InTable(s, p) ==> (InTable(s', p) <==> !TakesOut(s, l, s.all[p].name)))
    && (!InTable(s, p) && InTable(s', p) ==> p == |s.all|)
  }

  /** A new process has a name, whoever had it. */
  ghost predicate Entered(s: Server, s': Server, n: Name, pid: nat) {
    s'.procs == s.procs[n := |s.all|] && s'.all == s.all + [NewProcess(n, pid)]
  }

  lemma Keeps(s: Server, s': Server, l: Label, p: nat)
    requires SameTable(s, s') && (InTable(s, p) ==> !TakesOut(s, l, s.all[p].name))
    ensures PlaceFollows(s, s', l, p)
  {
  }

  lemma KeepsOthers(s: Server, s': Server, l: Label, n: Name, p: nat)
    requires Without(s, s', n) && (InTable(s, p) ==> (TakesOut(s, l, s.all[p].name) <==> s.all[p].name == n))
    ensures PlaceFollows(s, s', l, p)
  {
  }

  lemma Replaced(s: Server, s': Server, l: Label, n: Name, pid: nat, p: nat)
    requires Entered(s, s', n, pid) && (InTable(s, p) ==> (TakesOut(s, l, s.all[p].name) <==> s.all[p].name == n))
    ensures PlaceFollows(s, s', l, p)
  {
  }

  lemma SpawnPlace(s: Server, l: Label, p: nat)
    requires Named(s) && CommandRead(s, l, Spawn)
    ensures PlaceFollows(s, CmdSpawn(s, l.conn, l.line.msg.cmd.name), l, p)
  {
    var n := l.line.msg.cmd.name;
    var s' := CmdSpawn(s, l.conn, n);
    if Find(s, n).Some? && s.all[Find(s, n).value].status == Running {
      Keeps(s, s', l, p);
    } else {
      KeepsOthers(s, s', l, n, p);
    }
  }

  lemma KillPlace(s: Server, l: Label, p: nat)
    requires Named(s) && CommandRead(s, l, Kill)
    ensures PlaceFollows(s, CmdKill(s, l.conn, l.line.msg.cmd.name, l.env), l, p)
  {
    var n := l.line.msg.cmd.name;
    var s' := CmdKill(s, l.conn, n, l.env);
    if Find(s, n).Some? && (s.all[Find(s, n).value].status == Running ==> l.env.signal.Some?) {
      KeepsOthers(s, s', l, n, p);
    } else {
      Keeps(s, s', l, p);
    }
  }

  /** Other commands leave the table alone. */
  lemma CommandKeepsTable(s: Server, c: nat, cmd: CmdMsg, env: Env)
    requires c < |s.handlers| && !cmd.verb.Spawn? && !cmd.verb.Kill?
    ensures SameTable(s, HandleCommand(s, c, cmd, env))
  {
    if cmd.verb.Subscribe? && Find(s, cmd.name).Some? {
      HandlesSubscribe(s, c, cmd, env);
    }
  }

  lemma LinePlace(s: Server, o: Oracle, l: Label, p: nat)
    requires Named(s) && l.Line? && l.conn < |s.handlers| && s.handlers[l.conn].Reading?
    ensures PlaceFollows(s, Step(s, o, l), l, p)
  {
    match l.line {
      case Parsed(Cmd(cmd)) =>
        if cmd.verb.Spawn? {
          SpawnPlace(s, l, p);
        } else if cmd.verb.Kill? {
          KillPlace(s, l, p);
        } else {
          CommandKeepsTable(s, l.conn, cmd, l.env);
          Keeps(s, Step(s, o, l), l, p);
        }
      case _ => Keeps(s, Step(s, o, l), l, p);
    }
  }

  lemma FinishSpawnEnters(s: Server, c: nat, n: Name, pid: nat)
    requires c < |s.handlers|
    ensures Entered(s, FinishSpawn(s, c, n, Started(pid)), n, pid)
  {
  }

  lemma FinishKillRemoves(s: Server, c: nat, q: nat, n: Name, code: Option<int>)
    requires c < |s.handlers|
    ensures Without(s, FinishCmdKill(s, c, q, n, code), n)
  {
  }

  lemma ResumeKeepsTable(s: Server, c: nat, ok: bool, env: Env)
    requires c < |s.handlers| && !s.handlers[c].Killing? && !(s.handlers[c].Spawning? && env.spawn.Started?)
    ensures SameTable(s, ResumeHandler(s, c, ok, env))
  {
  }

  lemma ResumePlace(s: Server, o: Oracle, l: Label, p: nat)
    requires Named(s) && l.Resume? && l.conn < |s.handlers|
    ensures PlaceFollows(s, Step(s, o, l), l, p)
  {
    var s', h := Step(s, o, l), s.handlers[l.conn];
    if h.Spawning? && l.env.spawn.Started? {
      FinishSpawnEnters(s, l.conn, h.name, l.env.spawn.pid);
      Replaced(s, s', l, h.name, l.env.spawn.pid, p);
    } else if h.Killing? {
      FinishKillRemoves(s, l.conn, h.proc, h.name, l.env.code);
      KeepsOthers(s, s', l, h.name, p);
    } else {
      ResumeKeepsTable(s, l.conn, l.ok, l.env);
      Keeps(s, s', l, p);
    }
  }

  lemma StdoutKeepsTable(s: Server, o: Oracle, q: nat, ev: ReadEvent, now: nat)
    requires q < |s.all|
    ensures SameTable(s, TakeStdout(s, o, q, ev, now))
  {
  }

  lemma StderrKeepsTable(s: Server, o: Oracle, q: nat, ev: ReadEvent)
    requires q < |s.all|
    ensures SameTable(s, TakeStderr(s, o, q, ev))
  {
  }

  lemma ReapKeepsTable(s: Server, q: nat, code: Option<int>)
    requires q < |s.all|
    ensures SameTable(s, Reap(s, q, code))
  {
  }

  lemma TasksKeepTable(s: Server, o: Oracle, l: Label)
    requires l.ReadOut? || l.ReadErr? || l.ChildGone? || l.DrainEnds? || l.Cancel?
    ensures SameTable(s, Step(s, o, l))
  {
    match l {
      case ReadOut(q, ev, now) => if Free(s, q) { StdoutKeepsTable(s, o, q, ev, now); }
      case ReadErr(q, ev) => if Free(s, q) { StderrKeepsTable(s, o, q, ev); }
      case ChildGone(q, code) => if Free(s, q) { ReapKeepsTable(s, q, code); }
      case DrainEnds(q, out, ok) => if Free(s, q) { DrainKeepsTable(s, q, out, ok); }
      case Cancel(_, _) =>
    }
  }

  lemma DrainKeepsTable(s: Server, q: nat, out: bool, ok: bool)
    requires q < |s.all|
    ensures SameTable(s, Drained(s, q, out, ok))
  {
    var task := if out then s.all[q].out else s.all[q].err;
    if task.Draining? || task.Parting? {
      RetireKeepsTable(s, task.writer);
    }
  }

  lemma RetireKeepsTable(s: Server, w: nat)
    ensures SameTable(s, Retire(s, w))
  {
  }

  lemma ControlKeepsTable(s: Server, o: Oracle, l: Label)
    requires !l.Line? && !l.Resume? && !l.ReadOut? && !l.ReadErr? && !l.ChildGone? && !l.DrainEnds? && !l.Cancel?
    ensures SameTable(s, Step(s, o, l))
  {
  }

  lemma StepPlace(s: Server, o: Oracle, l: Label, p: nat)
    requires Named(s)
    ensures PlaceFollows(s, Step(s, o, l), l, p)
  {
    if l.Line? || l.Resume? {
      if l.conn >= |s.handlers| || (l.Line? && !s.handlers[l.conn].Reading?) {
        Keeps(s, s, l, p);
      } else if l.Line? {
        LinePlace(s, o, l, p);
      } else {
        ResumePlace(s, o, l, p);
      }
    } else {
      if l.ReadOut? || l.ReadErr? || l.ChildGone? || l.DrainEnds? || l.Cancel? {
        TasksKeepTable(s, o, l);
      } else {
        ControlKeepsTable(s, o, l);
      }
      Keeps(s, Step(s, o, l), l, p);
    }
  }

  /**
   In every run a process leaves the table exactly when its name is taken out: by a spawn over a process that has
   exited, whatever becomes of the spawn; by a kill, at once or once the child is gone, whichever process has the name by
   then; or by the end of a spawn that was under way. No process comes back, and only a new one enters.
   */
  lemma {:induction false} TableExactly(o: Oracle, run: seq<Label>, l: Label, p: nat)
    ensures var s, s' := Run(o, run), Step(Run(o, run), o, l);
            && (InTable(s, p) ==> (InTable(s', p) <==> !TakesOut(s, l, s.all[p].name)))
            && (!InTable(s, p) && InTable(s', p) ==> p == |s.all|)
  {
    RunSettled(o, run);
    StepPlace(Run(o, run), o, l, p);
  }

  // ---- what is left in the buffer then ----

  /** A message of `p` leaves the server, written or dropped. */
  predicate Departs(p: nat, e: Event) {
    (e.Wrote? || e.Dropped?) && e.proc == p
  }

  /** Out of the table, unsubscribed. */
  predicate Gone(s: Server, p: nat) {
    p < |s.all| && !InTable(s, p) && !s.all[p].subscribed
  }

  /** `p` stays gone, nothing of it leaves, and its buffer only grows. */
  ghost predicate Spares(s: Server, s': Server, p: nat) {
    && Gone(s, p) && Gone(s', p)
    && s.all[p].buffer <= s'.all[p].buffer
    && s.trace <= s'.trace && forall i :: |s.trace| <= i < |s'.trace| ==> !Departs(p, s'.trace[i])
  }

  lemma SparesTwice(s: Server, mid: Server, s': Server, p: nat)
    requires Spares(s, mid, p) && Spares(mid, s', p)
    ensures Spares(s, s', p)
  {
  }

  lemma QuietSpares(s: Server, s': Server, p: nat)
    requires Gone(s, p) && Quiet(s, s')
    ensures Spares(s, s', p)
  {
  }

  lemma EmissionSpares(s: Server, q: nat, msg: ServerMsg, p: nat)
    requires Gone(s, p) && q < |s.all|
    ensures Spares(s, RelayOrBuffer(s, q, msg), p)
  {
  }

  lemma EmitSpares(s: Server, q: nat, before: Process, msg: ServerMsg, after: Process, p: nat)
    requires Gone(s, p) && q < |s.all|
    requires before.buffer == s.all[q].buffer && before.name == s.all[q].name && before.subscribed == s.all[q].subscribed
    requires var sent := RelayOrBuffer(Set(s, q, before), q, msg);
             after.buffer == sent.all[q].buffer && after.name == sent.all[q].name && after.subscribed == sent.all[q].subscribed
    ensures Spares(s, Set(RelayOrBuffer(Set(s, q, before), q, msg), q, after), p)
  {
    SetQuiet(s, q, before);
    QuietSpares(s, Set(s, q, before), p);
    EmissionSpares(Set(s, q, before), q, msg, p);
    var sent := RelayOrBuffer(Set(s, q, before), q, msg);
    SetQuiet(sent, q, after);
    QuietSpares(sent, Set(sent, q, after), p);
    SparesTwice(s, Set(s, q, before), sent, p);
    SparesTwice(s, sent, Set(sent, q, after), p);
  }

  lemma EmitOutSpares(s: Server, q: nat, body: Body, now: nat, p: nat)
    requires Gone(s, p) && q < |s.all|
    ensures Spares(s, EmitOut(s, q, body, now), p)
  {
    var before := if body.OutLine? then s.all[q].(lastStdout := now) else s.all[q];
    assert Set(s, q, s.all[q]) == s;
    EmitSpares(s, q, before, Message(s.all[q].name, body), EmitOut(s, q, body, now).all[q], p);
  }

  lemma StdoutSpares(s: Server, o: Oracle, q: nat, ev: ReadEvent, now: nat, p: nat)
    requires Gone(s, p) && q < |s.all|
    ensures Spares(s, TakeStdout(s, o, q, ev, now), p)
  {
    if ev.Text? {
      var line := o.trim(ev.line);
      match o.parse(line) {
        case Some(v) => EmitOutSpares(s, q, OutLine(Wrap(v)), now, p);
        case None =>
          if line != "" {
            EmitOutSpares(s, q, TextLine(line), now, p);
          }
      }
    } else {
      QuietSpares(s, TakeStdout(s, o, q, ev, now), p);
    }
  }

  lemma StderrSpares(s: Server, o: Oracle, q: nat, ev: ReadEvent, p: nat)
    requires Gone(s, p) && q < |s.all|
    ensures Spares(s, TakeStderr(s, o, q, ev), p)
  {
    if ev.Text? && o.trim(ev.line) != "" {
      assert Set(s, q, s.all[q]) == s;
      EmitSpares(s, q, s.all[q], Stderr(s.all[q].name, o.trim(ev.line)), TakeStderr(s, o, q, ev).all[q], p);
    } else {
      QuietSpares(s, TakeStderr(s, o, q, ev), p);
    }
  }

  lemma ReapSpares(s: Server, q: nat, code: Option<int>, p: nat)
    requires Gone(s, p) && q < |s.all|
    ensures Spares(s, Reap(s, q, code), p)
  {
    var before := s.all[q].(status := Exited, exitCode := code);
    EmitSpares(s, q, before, Exit(s.all[q].name, code), Reap(s, q, code).all[q], p);
  }

  lemma FlushSpares(s: Server, q: nat, p: nat)
    requires Gone(s, p) && q < |s.all| && q != p
    ensures Spares(s, Flush(s, q), p)
  {
    FlushTouches(s, q);
    var s' := Flush(s, q);
    forall i | |s.trace| <= i < |s'.trace| ensures !Departs(p, s'.trace[i]) {
      assert MarkOf(p, s'.trace[i]) == [];
    }
  }

  lemma SubscribeSpares(s: Server, o: Oracle, l: Label, p: nat)
    requires Named(s) && Gone(s, p) && SubscribedNow(s, l).Some?
    ensures Spares(s, Step(s, o, l), p)
  {
    var q := SubscribedNow(s, l).value;
    var flushed, name, count := Flush(s, q), l.line.msg.cmd.name, |s.all[q].buffer|;
    HandlesSubscribe(s, l.conn, l.line.msg.cmd, l.env);
    FlushSpares(s, q, p);
    if s.writer.Some? {
      AtQuiet(flushed, l.conn, Replaying(q, s.writer.value, name, count));
    } else {
      AnswerQuiet(flushed, l.conn, SubscribeResult(name, s.all[q], count));
    }
    QuietSpares(flushed, Step(s, o, l), p);
    SparesTwice(s, flushed, Step(s, o, l), p);
  }

  lemma CreateSpares(s: Server, s': Server, n: Name, pid: nat, p: nat)
    requires Gone(s, p) && Entered(s, s', n, pid) && s'.trace == s.trace
    ensures Spares(s, s', p)
  {
  }

  lemma ResumeSpares(s: Server, c: nat, ok: bool, env: Env, p: nat)
    requires Gone(s, p) && c < |s.handlers|
    ensures Spares(s, ResumeHandler(s, c, ok, env), p)
  {
    var s', h := ResumeHandler(s, c, ok, env), s.handlers[c];
    if h.Spawning? && env.spawn.Started? {
      var grown := s.(all := s.all + [NewProcess(h.name, env.spawn.pid)], procs := s.procs[h.name := |s.all|]);
      CreateSpares(s, grown, h.name, env.spawn.pid, p);
      QuietSpares(grown, s', p);
      SparesTwice(s, grown, s', p);
    } else {
      ResumeQuiet(s, c, ok, env);
      QuietSpares(s, s', p);
    }
  }

  lemma ConnectSpares(s: Server, p: nat)
    requires Gone(s, p)
    ensures Spares(s, Connect(s), p)
  {
  }

  lemma StepSpares(s: Server, o: Oracle, l: Label, p: nat)
    requires Named(s) && Gone(s, p)
    ensures Spares(s, Step(s, o, l), p)
  {
    match l {
      case Accept => ConnectSpares(s, p);
      case Line(c, _, _) =>
        if SubscribedNow(s, l).Some? {
          SubscribeSpares(s, o, l, p);
        } else if c < |s.handlers| && s.handlers[c].Reading? {
          LineQuiet(s, o, l);
          QuietSpares(s, Step(s, o, l), p);
        }
      case Resume(c, ok, env) => if c < |s.handlers| { ResumeSpares(s, c, ok, env, p); }
      case ReadOut(q, ev, now) => if Free(s, q) { StdoutSpares(s, o, q, ev, now, p); }
      case ReadErr(q, ev) => if Free(s, q) { StderrSpares(s, o, q, ev, p); }
      case ChildGone(q, code) => if Free(s, q) { ReapSpares(s, q, code, p); }
      case _ =>
        SimpleQuiet(s, o, l);
        QuietSpares(s, Step(s, o, l), p);
    }
  }

  lemma SparesOn(s: Server, mid: Server, o: Oracle, l: Label, p: nat)
    requires Spares(s, mid, p) && Named(mid)
    ensures Spares(s, Step(mid, o, l), p)
  {
    StepSpares(mid, o, l, p);
    SparesTwice(s, mid, Step(mid, o, l), p);
  }

  lemma RunOn(o: Oracle, run: seq<Label>, init: seq<Label>, l: Label)
    ensures Run(o, run + init + [l]) == Step(Run(o, run + init), o, l)
  {
    assert (run + init + [l])[..|run + init|] == run + init;
  }

  lemma {:induction false} RunSpares(o: Oracle, run: seq<Label>, more: seq<Label>, p: nat)
    requires Gone(Run(o, run), p)
    ensures Spares(Run(o, run), Run(o, run + more), p)
  {
    if more == [] {
      assert run + more == run;
    } else {
      var init, l := more[..|more| - 1], more[|more| - 1];
      RunSpares(o, run, init, p);
      RunSettled(o, run + init);
      RunOn(o, run, init, l);
      LastApart(run, more);
      SparesOn(Run(o, run), Run(o, run + init), o, l, p);
    }
  }

  /** What was written or dropped of `p`, told from the record, when nothing of it leaves. */
  lemma {:induction false} NothingLeaves(p: nat, tr: seq<Event>, evs: seq<Event>)
    requires forall i :: 0 <= i < |evs| ==> !Departs(p, evs[i])
    ensures WrittenBy(p, tr + evs) == WrittenBy(p, tr)
    ensures L.Losses(Marks(p, tr + evs)) == L.Losses(Marks(p, tr))
  {
    if evs == [] {
      assert tr + evs == tr;
    } else {
      var init, e := evs[..|evs| - 1], evs[|evs| - 1];
      NothingLeaves(p, tr, init);
      LastApart(tr, evs);
      StaysBehind(p, tr + init, e);
    }
  }

  lemma StaysBehind(p: nat, tr: seq<Event>, e: Event)
    requires !Departs(p, e)
    ensures WrittenBy(p, tr + [e]) == WrittenBy(p, tr)
    ensures L.Losses(Marks(p, tr + [e])) == L.Losses(Marks(p, tr))
  {
    MarksLast(p, tr, e);
    if MarkOf(p, e) != [] {
      var k := MarkOf(p, e)[0];
      CollectLast((k: L.Mark<ServerMsg>) => if k.Deliver? then [k.msg] else [], Marks(p, tr), k);
      CollectLast((k: L.Mark<ServerMsg>) => if k.Lose? then [k.msg] else [], Marks(p, tr), k);
    }
  }

  /**
   Messages that a process has buffered when it is out of the table are never written to anyone, nor dropped: however
   the run goes on, they stay where no subscribe finds them, and later output of the process joins them.
   */
  lemma {:induction false} PendingIsStranded(o: Oracle, run: seq<Label>, more: seq<Label>, p: nat)
    requires p < |Run(o, run).all| && !InTable(Run(o, run), p) && Run(o, run).all[p].buffer != []
    ensures var s, s' := Run(o, run), Run(o, run + more);
            && p < |s'.all| && !InTable(s', p)
            && s.all[p].buffer <= s'.all[p].buffer
            && WrittenBy(p, s'.trace) == WrittenBy(p, s.trace)
            && MissingIn(o, run + more, p) == MissingIn(o, run, p)
  {
    var s, s' := Run(o, run), Run(o, run + more);
    RunSettled(o, run);
    assert Tracked(p, s.all[p], s.trace, s.writer, |s.handlers|);
    RunSpares(o, run, more, p);
    assert s'.trace == s.trace + s'.trace[|s.trace|..];
    NothingLeaves(p, s.trace, s'.trace[|s.trace|..]);
    RunAccounts(o, run, p);
    RunAccounts(o, run + more, p);
  }
}
