/** When the Rust server marks a process exited whose child it has not reaped, and how long that lasts. */
module RustExits {
  import opened Protocol
  import opened Sequences
  import opened StreamRelay
  import opened RustServer
  import opened RustRecord
  import opened RustMoves
  import opened RustWorld
  import opened RustRuns
  import opened RustKill
  import opened RustTheorems
  import opened RustReplay

  /** The entry under a name is the same child's before and after. */
  predicate KeepsChild(s: Server, s': Server, n: Name) {
    n in s.procs && n in s'.procs && s'.procs[n].child == s.procs[n].child
  }

  /** The main task takes an exit message for a name; it waits for the child then. */
  predicate TakesExit(w: World, l: Label, n: Name) {
    Enabled(w, l) && l.TakeRelay? && w.queue[0].name == n && w.queue[0].body.Ended?
  }

  /** A shutdown finds the process group under a name. */
  ghost predicate ShutsDown(w: World, l: Label, n: Name, env: Env) {
    Enabled(w, l) && l.ShutDown? && exists i :: 0 <= i < |l.plan| && l.plan[i] == (n, env) && env.pgid.None?
  }

  /** What is known of a child stays as it is. */
  predicate SameKnown(e: Entry, e': Entry) {
    e'.status == e.status && e'.reaped == e.reaped
  }

  /** What an exit message makes known. */
  predicate Noticed(e: Entry, e': Entry, wait: Wait) {
    && e'.status == Exited
    && e'.reaped == if e.reaped.None? && wait.Gone? then Some(wait.code) else e.reaped
  }

  // ---- each step ----

  lemma RelayKnows(s: Server, item: Relay, env: Env, n: Name)
    requires n in s.procs && (item.body.Ended? ==> item.body.code.None?)
    ensures n in HandleRelay(s, item, env).server.procs
    ensures var e, e' := s.procs[n], HandleRelay(s, item, env).server.procs[n];
            if item.name == n && item.body.Ended? then Noticed(e, e', env.soon) else SameKnown(e, e')
  {
  }

  lemma SpawnKnows(s: Server, cmd: CmdMsg, env: Env, n: Name)
    requires Identities(s) && KeepsChild(s, CmdSpawn(s, cmd, env).server, n)
    ensures SameKnown(s.procs[n], CmdSpawn(s, cmd, env).server.procs[n])
  {
    if !(cmd.name in s.procs && s.procs[cmd.name].status == Running) {
      FreshKnows(Remove(s, cmd.name).server, cmd, env, n);
    }
  }

  /** The new entry under the name spawned is another child's. */
  lemma FreshKnows(s: Server, cmd: CmdMsg, env: Env, n: Name)
    requires Identities(s) && n in SpawnFresh(s, cmd, env).server.procs
    ensures var e' := SpawnFresh(s, cmd, env).server.procs[n];
            e'.child == s.spawns || (n in s.procs && e' == s.procs[n])
  {
  }

  lemma KillKnows(s: Server, cmd: CmdMsg, env: Env, n: Name)
    requires KeepsChild(s, CmdKill(s, cmd, env).server, n)
    ensures SameKnown(s.procs[n], CmdKill(s, cmd, env).server.procs[n])
  {
    KillRemovesExactly(s, cmd, env);
  }

  lemma SubscribeKnows(s: Server, cmd: CmdMsg, n: Name)
    requires KeepsChild(s, CmdSubscribe(s, cmd).server, n)
    ensures SameKnown(s.procs[n], CmdSubscribe(s, cmd).server.procs[n])
  {
    if cmd.name in s.procs {
      var e := s.procs[cmd.name];
      ReplayShape(Put(s, cmd.name, e.(buffer := [], subscribed := true)), e.child, e.buffer);
    }
  }

  lemma LineKnows(s: Server, line: Line, env: Env, n: Name)
    requires Identities(s) && KeepsChild(s, HandleLine(s, line, env).server, n)
    ensures SameKnown(s.procs[n], HandleLine(s, line, env).server.procs[n])
  {
    if line.Parsed? && line.msg.Cmd? {
      match line.msg.cmd.verb {
        case Spawn => SpawnKnows(s, line.msg.cmd, env, n);
        case Kill => KillKnows(s, line.msg.cmd, env, n);
        case Subscribe => SubscribeKnows(s, line.msg.cmd, n);
        case _ =>
      }
    }
  }

  lemma ShutdownKnows(w: World, plan: seq<(Name, Env)>, i: nat)
    requires Enabled(w, ShutDown(plan)) && i < |plan|
    requires w.server.procs[plan[i].0].status == Running ==> w.server.procs[plan[i].0].reaped.None?
    ensures plan[i].0 in Step(w, ShutDown(plan)).server.procs
    ensures Outcome(w.server.procs[plan[i].0], Step(w, ShutDown(plan)).server.procs[plan[i].0], plan[i].1)
  {
    ShutdownEntry(w, plan, i);
    KillOutcome(w.server.procs[plan[i].0], plan[i].1);
  }

  lemma OthersKnow(w: World, l: Label, n: Name)
    requires !l.TakeRelay? && !l.TakeLine? && !l.ShutDown? && KeepsChild(w.server, Step(w, l).server, n)
    ensures SameKnown(w.server.procs[n], Step(w, l).server.procs[n])
  {
  }

  /** A plan names each process once. */
  lemma OnePlace(w: World, l: Label, n: Name, i: nat, env: Env)
    requires Enabled(w, l) && l.ShutDown? && i < |l.plan| && l.plan[i].0 == n && ShutsDown(w, l, n, env)
    ensures l.plan[i].1 == env && env.pgid.None?
  {
    var j :| 0 <= j < |l.plan| && l.plan[j] == (n, env) && env.pgid.None?;
    assert j == i;
  }

  /** The step leaves the process under a name exited with its child not reaped. */
  ghost predicate Abandons(w: World, l: Label, n: Name) {
    || (TakesExit(w, l, n) && l.env.soon.NotYet?)
    || (exists env :: ShutsDown(w, l, n, env) && Verdict(env).NotYet?)
  }

  predicate Unreaped(e: Entry) {
    e.status == Exited && e.reaped.None?
  }

  lemma ShutdownAbandons(w: World, l: Label, n: Name)
    requires Enabled(w, l) && l.ShutDown? && n in w.server.procs && n in Step(w, l).server.procs
    requires w.server.procs[n].status == Running ==> w.server.procs[n].reaped.None?
    ensures w.server.procs[n].status == Running ==> (Unreaped(Step(w, l).server.procs[n]) <==> Abandons(w, l, n))
    ensures w.server.procs[n].status == Exited ==> SameKnown(w.server.procs[n], Step(w, l).server.procs[n])
  {
    var i := Place(l.plan, w.server.procs, n);
    var env := l.plan[i].1;
    ShutdownKnows(w, l.plan, i);
    if env.pgid.None? {
      assert l.plan[i] == (n, env) && ShutsDown(w, l, n, env);
    }
    forall other | ShutsDown(w, l, n, other) ensures other == env && env.pgid.None? {
      OnePlace(w, l, n, i, other);
    }
  }

  /** A step of the main task has its handler's effect. */
  lemma RelayStep(w: World, env: Env)
    requires Enabled(w, TakeRelay(env))
    ensures var w', r := Step(w, TakeRelay(env)), HandleRelay(w.server, w.queue[0], env);
            w'.server == r.server && w.trace <= w'.trace && w'.trace[|w.trace|..] == r.events
  {
    StepTrace(w, TakeRelay(env));
  }

  lemma LineStep(w: World, env: Env)
    requires Enabled(w, TakeLine(env))
    ensures var w', r := Step(w, TakeLine(env)), HandleLine(w.server, w.lines[0], env);
            w'.server == r.server && w.trace <= w'.trace && w'.trace[|w.trace|..] == r.events
  {
    StepTrace(w, TakeLine(env));
  }

  lemma TakeKnows(w: World, env: Env, n: Name)
    requires Settled(w) && KeepsChild(w.server, Step(w, TakeRelay(env)).server, n)
    ensures var e, e' := w.server.procs[n], Step(w, TakeRelay(env)).server.procs[n];
            if TakesExit(w, TakeRelay(env), n) then Noticed(e, e', env.soon) else SameKnown(e, e')
  {
    if Enabled(w, TakeRelay(env)) {
      assert Fits(w.children, w.queue[0]);
      RelayStep(w, env);
      RelayKnows(w.server, w.queue[0], env, n);
    }
  }

  lemma TakeLineKnows(w: World, env: Env, n: Name)
    requires Settled(w) && KeepsChild(w.server, Step(w, TakeLine(env)).server, n)
    ensures SameKnown(w.server.procs[n], Step(w, TakeLine(env)).server.procs[n])
  {
    if Enabled(w, TakeLine(env)) {
      LineStep(w, env);
      LineKnows(w.server, w.lines[0], env, n);
    } else {
      DisabledStays(w, TakeLine(env));
    }
  }

  // ---- every run ----

  /**
   In every run, after any step, a process that was running and keeps its entry is marked exited without having been
   reaped if and only if the step took an exit message under its name, its own or one a predecessor of that
   name had left on the queue, while the child did not end within the wait; or it was a shutdown that found its
   group but saw the child end in neither wait.
   */
  lemma {:induction false} UnreapedExactly(o: Oracle, run: seq<Label>, l: Label, n: Name)
    requires KeepsChild(Run(o, run).server, Step(Run(o, run), l).server, n)
    requires Run(o, run).server.procs[n].status == Running
    ensures Unreaped(Step(Run(o, run), l).server.procs[n]) <==> Abandons(Run(o, run), l, n)
  {
    var w := Run(o, run);
    RunSettled(o, run);
    RunningIsUnreaped(o, run, n);
    match l {
      case TakeRelay(env) => TakeAbandons(w, env, n);
      case ShutDown(plan) =>
        if Enabled(w, l) {
          ShutdownAbandons(w, l, n);
        }
      case _ => OthersAbandonNone(w, l, n);
    }
  }

  lemma TakeAbandons(w: World, env: Env, n: Name)
    requires Settled(w) && KeepsChild(w.server, Step(w, TakeRelay(env)).server, n)
    requires w.server.procs[n].status == Running && w.server.procs[n].reaped.None?
    ensures Unreaped(Step(w, TakeRelay(env)).server.procs[n]) <==> Abandons(w, TakeRelay(env), n)
  {
    TakeKnows(w, env, n);
  }

  lemma OthersAbandonNone(w: World, l: Label, n: Name)
    requires Settled(w) && KeepsChild(w.server, Step(w, l).server, n) && !l.TakeRelay? && !l.ShutDown?
    requires w.server.procs[n].status == Running
    ensures !Unreaped(Step(w, l).server.procs[n]) && !Abandons(w, l, n)
  {
    NoWaitAbandonsNone(w, l, n);
    if l.TakeLine? {
      TakeLineKnows(w, l.env, n);
    } else {
      OthersKnow(w, l, n);
    }
  }

  lemma NoWaitAbandonsNone(w: World, l: Label, n: Name)
    requires !l.TakeRelay? && !l.ShutDown?
    ensures !Abandons(w, l, n)
  {
  }

  /** The step takes an exit message under the name, and the child ends within the wait. */
  predicate ReapsLate(w: World, l: Label, n: Name) {
    TakesExit(w, l, n) && l.env.soon.Gone?
  }

  /** One step on from an unreaped process. */
  lemma UnreapedStep(o: Oracle, run: seq<Label>, l: Label, n: Name)
    requires KeepsChild(Run(o, run).server, Step(Run(o, run), l).server, n)
    requires Run(o, run).server.procs[n].status == Exited
    ensures var e, e' := Run(o, run).server.procs[n], Step(Run(o, run), l).server.procs[n];
            && e'.status == Exited
            && (e'.reaped.Some? <==> e.reaped.Some? || ReapsLate(Run(o, run), l, n))
  {
    var w := Run(o, run);
    RunSettled(o, run);
    RunningIsUnreaped(o, run, n);
    match l {
      case TakeRelay(env) => TakeKnows(w, env, n);
      case TakeLine(env) => TakeLineKnows(w, env, n);
      case ShutDown(plan) =>
        if Enabled(w, l) {
          ShutdownAbandons(w, l, n);
        }
      case _ => OthersKnow(w, l, n);
    }
  }

  /** Some step of the continuation reaps the process under the name late. */
  ghost predicate ReapedSince(o: Oracle, run: seq<Label>, more: seq<Label>, n: Name)
    decreases |more|
  {
    more != []
    && var init := more[..|more| - 1];
       ReapedSince(o, run, init, n) || ReapsLate(Run(o, run + init), more[|more| - 1], n)
  }

  /** An entry that is there at the end was there all along. */
  lemma KeptBefore(s: Server, mid: Server, s': Server, n: Name)
    requires KeepsChild(s, s', n) && Lineage(mid, s') && Lineage(s, mid)
    requires s.procs[n].child < s.spawns
    ensures KeepsChild(s, mid, n) && KeepsChild(mid, s', n)
  {
  }

  /**
   However the run goes on, a process that is exited without having been reaped stays exited as long as it has its entry,
   and is reaped if and only if some later step takes an exit message under its name and the child ends within the
   wait. No kill, shutdown or command does it.
   */
  lemma {:induction false} UnreapedUntil(o: Oracle, run: seq<Label>, more: seq<Label>, n: Name)
    requires KeepsChild(Run(o, run).server, Run(o, run + more).server, n) && Unreaped(Run(o, run).server.procs[n])
    ensures Run(o, run + more).server.procs[n].status == Exited
    ensures Run(o, run + more).server.procs[n].reaped.Some? <==> ReapedSince(o, run, more, n)
  {
    if more == [] {
      assert run + more == run;
    } else {
      var init, l := more[..|more| - 1], more[|more| - 1];
      RunOneMore(o, run, init, l);
      assert init + [l] == more;
      KeptSoFar(o, run, init, l, n);
      UnreapedUntil(o, run, init, n);
      UnreapedStep(o, run + init, l, n);
    }
  }

  lemma RunOneMore(o: Oracle, run: seq<Label>, init: seq<Label>, l: Label)
    ensures Run(o, run + (init + [l])) == Step(Run(o, run + init), l)
  {
    var all := run + (init + [l]);
    LastApart(run, init + [l]);
    assert (init + [l])[..|init|] == init;
    assert all[..|all| - 1] == run + init;
  }

  lemma KeptSoFar(o: Oracle, run: seq<Label>, init: seq<Label>, l: Label, n: Name)
    requires KeepsChild(Run(o, run).server, Step(Run(o, run + init), l).server, n)
    ensures KeepsChild(Run(o, run).server, Run(o, run + init).server, n)
    ensures KeepsChild(Run(o, run + init).server, Step(Run(o, run + init), l).server, n)
  {
    RunSettled(o, run);
    RunSettled(o, run + init);
    RunLineage(o, run, init);
    StepGrows(Run(o, run + init), l);
    KeptBefore(Run(o, run).server, Run(o, run + init).server, Step(Run(o, run + init), l).server, n);
  }

  lemma {:induction false} RunLineage(o: Oracle, run: seq<Label>, more: seq<Label>)
    ensures Lineage(Run(o, run).server, Run(o, run + more).server)
  {
    if more == [] {
      assert run + more == run;
    } else {
      var init, l := more[..|more| - 1], more[|more| - 1];
      RunLineage(o, run, init);
      RunSettled(o, run + init);
      StepGrows(Run(o, run + init), l);
      RunOneMore(o, run, init, l);
      assert init + [l] == more;
    }
  }
}
