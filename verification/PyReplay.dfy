/** Replays of the Python server: what a subscribe puts on the wire, and what its answer refers to. */
module PyReplay {
  import opened Protocol
  import opened StreamRelay
  import opened PyServer
  import opened PyRuns
  import opened PyTheorems
  import L = RelayLog

  // ---- a replay is one block ----

  lemma SubscribeWrites(s: Server, o: Oracle, l: Label)
    requires SubscribedNow(s, l).Some? && s.writer.Some?
    ensures var s', p, w := Step(s, o, l), SubscribedNow(s, l).value, s.writer.value;
            && p < |s.all| && s'.trace == s.trace + Wrotes(p, w, s.all[p].buffer)
            && s'.handlers == s.handlers[l.conn := Replaying(p, w, l.line.msg.cmd.name, |s.all[p].buffer|)]
  {
    HandlesSubscribe(s, l.conn, l.line.msg.cmd, l.env);
  }

  /**
   A subscribe with a writer puts everything not yet written of the log on it, and nothing else
   comes between: the record grows by exactly that block.
   */
  lemma {:induction false} ReplayIsPending(o: Oracle, run: seq<Label>, l: Label)
    requires SubscribedNow(Run(o, run), l).Some? && Run(o, run).writer.Some?
    ensures var s, s' := Run(o, run), Step(Run(o, run), o, l);
            var p, w := SubscribedNow(s, l).value, s.writer.value;
            && p < |s.all| && L.Play(Marks(p, s.trace)).Some?
            && var log := L.Play(Marks(p, s.trace)).value;
               && s'.trace == s.trace + Wrotes(p, w, log.items[|log.fates|..])
               && s'.handlers == s.handlers[l.conn := Replaying(p, w, s.all[p].name, |log.items| - |log.fates|)]
  {
    RunSettled(o, run);
    var s := Run(o, run);
    SubscribeWrites(s, o, l);
    assert Tracked(SubscribedNow(s, l).value, s.all[SubscribedNow(s, l).value], s.trace, s.writer, |s.handlers|);
  }

  // ---- the answer counts the block of the subscribe it answers ----

  /** Step `k` of the run is the subscribe that handler `c` has been waiting on ever since, as `h` says. */
  ghost predicate Waits(o: Oracle, run: seq<Label>, k: nat, c: nat, h: Handler) {
    k < |run| && AskedAs(Run(o, run[..k]), o, run[k], c, h) && Still(o, run, k, c, h)
  }

  /** Client `c` subscribes to the process under a name while there is a writer, which is written the whole buffer. */
  ghost predicate AskedAs(s: Server, o: Oracle, l: Label, c: nat, h: Handler) {
    && h.Replaying?
    && SubscribedNow(s, l) == Some(h.proc) && l.conn == c && l.line.msg.cmd.name == h.name
    && s.writer == Some(h.writer) && h.writer < |s.handlers|
    && h.proc < |s.all| && |s.all[h.proc].buffer| == h.count
    && Step(s, o, l).trace == s.trace + Wrotes(h.proc, h.writer, s.all[h.proc].buffer)
  }

  ghost predicate Still(o: Oracle, run: seq<Label>, k: nat, c: nat, h: Handler) {
    forall i :: k < i <= |run| ==> HandlerAt(Run(o, run[..i]), c) == Some(h)
  }

  function HandlerAt(s: Server, c: nat): Option<Handler> {
    if c < |s.handlers| then Some(s.handlers[c]) else None
  }

  lemma AsksFor(s: Server, o: Oracle, l: Label)
    requires Settled(s) && SubscribedNow(s, l).Some? && s.writer.Some?
    ensures HandlerAt(Step(s, o, l), l.conn).Some?
    ensures AskedAs(s, o, l, l.conn, Step(s, o, l).handlers[l.conn])
  {
    SubscribeWrites(s, o, l);
  }

  lemma StillNow(o: Oracle, run: seq<Label>, c: nat, h: Handler)
    requires run != [] && HandlerAt(Run(o, run), c) == Some(h)
    ensures Still(o, run, |run| - 1, c, h)
  {
    assert run[..|run|] == run;
  }

  lemma WaitBegins(o: Oracle, run: seq<Label>, l: Label, c: nat, h: Handler)
    requires AskedAs(Run(o, run), o, l, c, h) && HandlerAt(Run(o, run + [l]), c) == Some(h)
    ensures Waits(o, run + [l], |run|, c, h)
  {
    StillNow(o, run + [l], c, h);
    assert (run + [l])[..|run|] == run;
  }

  lemma StillOn(o: Oracle, run: seq<Label>, l: Label, k: nat, c: nat, h: Handler)
    requires k < |run| && Still(o, run, k, c, h) && HandlerAt(Run(o, run + [l]), c) == Some(h)
    ensures Still(o, run + [l], k, c, h)
  {
    var run' := run + [l];
    forall i | k < i <= |run'| ensures HandlerAt(Run(o, run'[..i]), c) == Some(h) {
      if i <= |run| {
        assert run'[..i] == run[..i];
      } else {
        assert run'[..i] == run';
      }
    }
  }

  lemma WaitGoesOn(o: Oracle, run: seq<Label>, l: Label, k: nat, c: nat, h: Handler)
    requires Waits(o, run, k, c, h) && HandlerAt(Run(o, run + [l]), c) == Some(h)
    ensures Waits(o, run + [l], k, c, h)
  {
    StillOn(o, run, l, k, c, h);
    assert (run + [l])[..k] == run[..k];
  }

  /** A waiting handler waits on a definite subscribe of its own. */
  lemma {:induction false} RunWaits(o: Oracle, run: seq<Label>, c: nat, h: Handler)
    requires HandlerAt(Run(o, run), c) == Some(h) && h.Replaying?
    ensures exists k: nat :: Waits(o, run, k, c, h)
  {
    var init, l := run[..|run| - 1], run[|run| - 1];
    var s := Run(o, init);
    assert init + [l] == run;
    if HandlerAt(s, c) == Some(h) {
      RunWaits(o, init, c, h);
      var k: nat :| Waits(o, init, k, c, h);
      WaitGoesOn(o, init, l, k, c, h);
    } else {
      NewWaits(s, o, l, c);
      RunSettled(o, init);
      AsksFor(s, o, l);
      WaitBegins(o, init, l, c, h);
    }
  }

  /** Only a subscribe of its own, with a writer, makes a handler wait for a replay. */
  lemma NewWaits(s: Server, o: Oracle, l: Label, c: nat)
    requires HandlerAt(Step(s, o, l), c).Some? && Step(s, o, l).handlers[c].Replaying?
    requires HandlerAt(Step(s, o, l), c) != HandlerAt(s, c)
    ensures SubscribedNow(s, l).Some? && s.writer.Some? && l.conn == c
  {
    if SubscribedNow(s, l).Some? {
      HandlesSubscribe(s, l.conn, l.line.msg.cmd, l.env);
    } else if Finishes(s, l) {
      if s.handlers[l.conn].proc < |s.all| {
        FinishesOnce(s, l.conn, l.ok);
      }
    } else {
      StepPlain(s, o, l);
    }
  }

  /** A handler that waits for the drain of its replay goes on. */
  predicate Finishes(s: Server, l: Label) {
    l.Resume? && l.conn < |s.handlers| && s.handlers[l.conn].Replaying?
  }

  lemma FinishesOnce(s: Server, c: nat, ok: bool)
    requires c < |s.handlers| && s.handlers[c].Replaying? && s.handlers[c].proc < |s.all|
    ensures var h, s' := s.handlers[c], FinishSubscribe(s, c, s.handlers[c], ok);
            && |s'.handlers| == |s.handlers| && !s'.handlers[c].Replaying?
            && (forall d :: 0 <= d < |s.handlers| && d != c ==> s'.handlers[d] == s.handlers[d])
            && s'.trace == s.trace
                + if !ok then []
                  else if s.writer.Some? then [Answered(s.writer.value, SubscribeResult(h.name, s.all[h.proc], h.count))]
                  else [Unanswered(SubscribeResult(h.name, s.all[h.proc], h.count))]
  {
  }

  /** A step that starts no replay and reports none. */
  ghost predicate Plain(s: Server, s': Server) {
    && s.trace <= s'.trace
    && (forall c :: 0 <= c < |s'.handlers| && s'.handlers[c].Replaying? ==> c < |s.handlers| && s'.handlers[c] == s.handlers[c])
    && (forall i :: |s.trace| <= i < |s'.trace| && s'.trace[i].Answered? ==> s'.trace[i].result.replayed.None?)
  }

  lemma CommandPlain(s: Server, c: nat, cmd: CmdMsg, env: Env)
    requires c < |s.handlers| && !(cmd.verb.Subscribe? && Find(s, cmd.name).Some?) && s.handlers[c].Reading?
    ensures Plain(s, HandleCommand(s, c, cmd, env))
  {
    CommandQuiet(s, c, cmd, env);
    CommandAnswers(s, c, cmd, env);
    QuietPlain(s, HandleCommand(s, c, cmd, env), c);
  }

  ghost predicate OneHandler(s: Server, s': Server, c: nat) {
    && |s'.handlers| == |s.handlers| && (c < |s.handlers| ==> !s'.handlers[c].Replaying?)
    && (forall d :: 0 <= d < |s.handlers| && d != c ==> s'.handlers[d] == s.handlers[d])
    && |s.trace| <= |s'.trace| <= |s.trace| + 1
    && (|s'.trace| > |s.trace| && s'.trace[|s.trace|].Answered? ==> s'.trace[|s.trace|].result.replayed.None?)
  }

  lemma QuietPlain(s: Server, s': Server, c: nat)
    requires Quiet(s, s') && OneHandler(s, s', c)
    ensures Plain(s, s')
  {
  }

  lemma AnswerOnce(s: Server, mid: Server, c: nat, r: ResultMsg)
    requires mid.handlers == s.handlers && mid.trace == s.trace && c < |s.handlers| && r.replayed.None?
    ensures OneHandler(s, Answer(mid, c, r), c)
  {
  }

  lemma KillOnce(s: Server, c: nat, name: Name, env: Env)
    requires c < |s.handlers| && s.handlers[c].Reading?
    ensures OneHandler(s, CmdKill(s, c, name, env), c)
  {
  }

  lemma SpawnOnce(s: Server, c: nat, name: Name)
    requires c < |s.handlers| && s.handlers[c].Reading?
    ensures OneHandler(s, CmdSpawn(s, c, name), c)
  {
  }

  /** What a command other than a subscribe does to the handlers and the record. */
  lemma CommandAnswers(s: Server, c: nat, cmd: CmdMsg, env: Env)
    requires c < |s.handlers| && !(cmd.verb.Subscribe? && Find(s, cmd.name).Some?) && s.handlers[c].Reading?
    ensures OneHandler(s, HandleCommand(s, c, cmd, env), c)
  {
    match cmd.verb {
      case Kill => KillOnce(s, c, cmd.name, env);
      case Spawn => SpawnOnce(s, c, cmd.name);
      case Interrupt =>
      case Unsubscribe =>
      case Subscribe => AnswerOnce(s, s, c, Err(cmd.name, "not found"));
      case List => AnswerOnce(s, s, c, Ok("").(processes := Some(Listing(s))));
      case Uptime => AnswerOnce(s, s, c, Ok("").(uptime := Some(env.uptime)));
      case Unknown(text) => AnswerOnce(s, s, c, Err("", "unknown command: " + text));
    }
  }

  lemma ResumePlain(s: Server, c: nat, ok: bool, env: Env)
    requires c < |s.handlers| && !s.handlers[c].Replaying?
    ensures Plain(s, ResumeHandler(s, c, ok, env))
  {
    match s.handlers[c] {
      case Spawning(name) => FinishSpawnPlain(s, c, name, env.spawn);
      case Killing(p, name) => FinishCmdKillPlain(s, c, p, name, env.code);
      case _ =>
    }
  }

  lemma FinishSpawnPlain(s: Server, c: nat, name: Name, outcome: SpawnOutcome)
    requires c < |s.handlers|
    ensures Plain(s, FinishSpawn(s, c, name, outcome))
  {
  }

  lemma FinishCmdKillPlain(s: Server, c: nat, p: nat, name: Name, code: Option<int>)
    requires c < |s.handlers|
    ensures Plain(s, FinishCmdKill(s, c, p, name, code))
  {
  }

  /** A relay task's step adds nothing but what it emits. */
  lemma EmitPlain(s: Server, p: nat, before: Process, msg: ServerMsg, after: Process)
    requires p < |s.all| && before.name == s.all[p].name && after.name == s.all[p].name
    ensures Plain(s, Set(RelayOrBuffer(Set(s, p, before), p, msg), p, after))
  {
  }

  lemma EmitOutPlain(s: Server, p: nat, body: Body, now: nat)
    requires p < |s.all|
    ensures Plain(s, EmitOut(s, p, body, now))
  {
    var before := if body.OutLine? then s.all[p].(lastStdout := now) else s.all[p];
    assert Set(s, p, s.all[p]) == s;
    EmitPlain(s, p, before, Message(s.all[p].name, body), EmitOut(s, p, body, now).all[p]);
  }

  lemma ReadOutPlain(s: Server, o: Oracle, p: nat, ev: ReadEvent, now: nat)
    requires p < |s.all|
    ensures Plain(s, TakeStdout(s, o, p, ev, now))
  {
    if ev.Text? {
      var line := o.trim(ev.line);
      if o.parse(line).Some? {
        EmitOutPlain(s, p, OutLine(Wrap(o.parse(line).value)), now);
      } else {
        EmitOutPlain(s, p, TextLine(line), now);
      }
    }
  }

  lemma ReadErrPlain(s: Server, o: Oracle, p: nat, ev: ReadEvent)
    requires p < |s.all|
    ensures Plain(s, TakeStderr(s, o, p, ev))
  {
    if ev.Text? {
      assert Set(s, p, s.all[p]) == s;
      EmitPlain(s, p, s.all[p], Stderr(s.all[p].name, o.trim(ev.line)), TakeStderr(s, o, p, ev).all[p]);
    }
  }

  lemma ReapPlain(s: Server, p: nat, code: Option<int>)
    requires p < |s.all|
    ensures Plain(s, Reap(s, p, code))
  {
    var before := s.all[p].(status := Exited, exitCode := code);
    EmitPlain(s, p, before, Exit(s.all[p].name, code), Reap(s, p, code).all[p]);
  }

  lemma OthersPlain(s: Server, o: Oracle, l: Label)
    requires !l.Line? && !l.Resume?
    ensures Plain(s, Step(s, o, l))
  {
    match l {
      case ReadOut(p, ev, now) => if Free(s, p) { ReadOutPlain(s, o, p, ev, now); }
      case ReadErr(p, ev) => if Free(s, p) { ReadErrPlain(s, o, p, ev); }
      case ChildGone(p, code) => if Free(s, p) { ReapPlain(s, p, code); }
      case DrainEnds(p, out, ok) => if Free(s, p) { DrainedPlain(s, p, out, ok); }
      case _ => ControlPlain(s, o, l);
    }
  }

  lemma DrainedPlain(s: Server, p: nat, out: bool, ok: bool)
    requires p < |s.all|
    ensures Plain(s, Drained(s, p, out, ok))
  {
    DrainedQuiet(s, p, out, ok);
  }

  lemma ControlPlain(s: Server, o: Oracle, l: Label)
    requires !l.Line? && !l.Resume? && !l.ReadOut? && !l.ReadErr? && !l.ChildGone? && !l.DrainEnds?
    ensures Plain(s, Step(s, o, l))
  {
  }

  lemma StepPlain(s: Server, o: Oracle, l: Label)
    requires SubscribedNow(s, l).None? && !Finishes(s, l)
    ensures Plain(s, Step(s, o, l))
  {
    match l {
      case Line(c, line, env) =>
        if c < |s.handlers| && s.handlers[c].Reading? && line.Parsed? && line.msg.Cmd? {
          CommandPlain(s, c, line.msg.cmd, env);
        }
      case Resume(c, ok, env) =>
        if c < |s.handlers| {
          ResumePlain(s, c, ok, env);
        }
      case _ => OthersPlain(s, o, l);
    }
  }

  /** Only a handler that waited for a replay answers with a count. */
  lemma AnswersReplay(s: Server, o: Oracle, l: Label, i: nat)
    requires |s.trace| <= i < |Step(s, o, l).trace|
    requires Step(s, o, l).trace[i].Answered? && Step(s, o, l).trace[i].result.replayed.Some?
    ensures Finishes(s, l) && l.ok
  {
    if SubscribedNow(s, l).Some? {
      HandlesSubscribe(s, l.conn, l.line.msg.cmd, l.env);
    } else if !Finishes(s, l) {
      StepPlain(s, o, l);
    }
  }

  /** Processes and connections are only added. */
  lemma {:induction false} RunWidens(o: Oracle, run: seq<Label>, k: nat)
    requires k <= |run|
    ensures |Run(o, run[..k]).all| <= |Run(o, run).all| && |Run(o, run[..k]).handlers| <= |Run(o, run).handlers|
  {
    if k == |run| {
      assert run[..k] == run;
    } else {
      var init := run[..|run| - 1];
      RunWidens(o, init, k);
      assert init[..k] == run[..k];
      StepWidens(Run(o, init), o, run[|run| - 1]);
    }
  }

  lemma StepWidens(s: Server, o: Oracle, l: Label)
    ensures |s.all| <= |Step(s, o, l).all| && |s.handlers| <= |Step(s, o, l).handlers|
  {
    match l {
      case Line(_, _, _) => LineWidens(s, o, l);
      case Resume(c, ok, env) =>
        if c < |s.handlers| && !(s.handlers[c].Spawning? && env.spawn.Started?) {
          ResumeQuiet(s, c, ok, env);
        }
      case _ => OthersWiden(s, o, l);
    }
  }

  lemma LineWidens(s: Server, o: Oracle, l: Label)
    requires l.Line?
    ensures |s.all| <= |Step(s, o, l).all| && |s.handlers| <= |Step(s, o, l).handlers|
  {
    if SubscribedNow(s, l).Some? {
      HandlesSubscribe(s, l.conn, l.line.msg.cmd, l.env);
    } else if l.conn < |s.handlers| && s.handlers[l.conn].Reading? {
      LineQuiet(s, o, l);
    }
  }

  lemma OthersWiden(s: Server, o: Oracle, l: Label)
    requires !l.Line? && !l.Resume?
    ensures |s.all| <= |Step(s, o, l).all| && |s.handlers| <= |Step(s, o, l).handlers|
  {
    if Simple(l) {
      SimpleQuiet(s, o, l);
    } else if !l.Accept? && Free(s, l.proc) {
      RelayWidens(s, o, l);
    }
  }

  lemma RelayWidens(s: Server, o: Oracle, l: Label)
    requires (l.ReadOut? || l.ReadErr? || l.ChildGone?) && Free(s, l.proc)
    ensures |Step(s, o, l).all| == |s.all| && Step(s, o, l).handlers == s.handlers
  {
    match l {
      case ReadOut(p, ev, now) => TakesOut(s, o, p, ev, now);
      case ReadErr(p, ev) =>
      case ChildGone(p, code) =>
    }
  }

  lemma TakesOut(s: Server, o: Oracle, p: nat, ev: ReadEvent, now: nat)
    requires p < |s.all|
    ensures |TakeStdout(s, o, p, ev, now).all| == |s.all| && TakeStdout(s, o, p, ev, now).handlers == s.handlers
  {
  }

  lemma WaitsWell(o: Oracle, run: seq<Label>, c: nat)
    requires c < |Run(o, run).handlers| && Run(o, run).handlers[c].Replaying?
    ensures var s, h := Run(o, run), Run(o, run).handlers[c];
            && h.proc < |s.all| && h.writer < |s.handlers|
            && exists k: nat :: Waits(o, run, k, c, h)
  {
    var h := Run(o, run).handlers[c];
    RunWaits(o, run, c, h);
    var k: nat :| Waits(o, run, k, c, h);
    RunWidens(o, run, k);
  }

  /**
   Whenever a client is told `replayed: k` for a name, the handler that answers has been waiting since a subscribe
   of its own client for that name: that very subscribe wrote `k` messages of the process it found, as one block, to the
   connection answered now or to one that it has since replaced.
   */
  lemma {:induction false} ReplayedWereWritten(o: Oracle, run: seq<Label>, l: Label, i: nat)
    requires |Run(o, run).trace| <= i < |Run(o, run + [l]).trace|
    requires var e := Run(o, run + [l]).trace[i];
             e.Answered? && e.result.replayed.Some?
    ensures var s, e := Run(o, run), Run(o, run + [l]).trace[i];
            && Finishes(s, l)
            && var h := s.handlers[l.conn];
               && h.proc < |s.all| && e.result == SubscribeResult(h.name, s.all[h.proc], h.count)
               && s.writer == Some(e.writer) && h.writer <= e.writer
               && exists k: nat :: Waits(o, run, k, l.conn, h)
  {
    var s := Run(o, run);
    assert (run + [l])[..|run|] == run;
    AnswersReplay(s, o, l, i);
    RunSettled(o, run);
    WaitsWell(o, run, l.conn);
    FinishesOnce(s, l.conn, l.ok);
  }
}
