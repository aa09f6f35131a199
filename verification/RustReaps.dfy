/** When the Rust server learns how a child ended. */
module RustReaps {
  import opened Protocol
  import opened StreamRelay
  import opened RustServer
  import opened RustRecord
  import opened RustMoves
  import opened RustWorld
  import opened RustRuns
  import opened RustTheorems
  import opened RustKill
  import opened RustExits
  import opened RustSteps

  /** The step waits for the child under a name, not reaped yet, and the wait returns this status. */
  ghost predicate ReapsBy(w: World, l: Label, n: Name, code: Option<int>) {
    && n in w.server.procs && w.server.procs[n].reaped.None?
    && var running := w.server.procs[n].status == Running;
       || (Takes(w, l, n) && w.queue[0].body.Ended? && l.env.soon == Gone(code))
       || (Orders(w, l, Kill, n) && running && l.env.pgid.None? && Verdict(l.env) == Gone(code))
       || (exists env :: ShutsDown(w, l, n, env) && running && Verdict(env) == Gone(code))
  }

  ghost predicate ReapsSome(w: World, l: Label, x: nat, code: Option<int>) {
    exists n :: n in w.server.procs && w.server.procs[n].child == x && ReapsBy(w, l, n, code)
  }

  predicate KillReaps(e: Entry, env: Env, code: Option<int>) {
    e.status == Running && e.reaped.None? && env.pgid.None? && Verdict(env) == Gone(code)
  }

  lemma KillEntryReaps(e: Entry, env: Env, x: nat, code: Option<int>)
    ensures Reaped(x, code) in KillEntry(e, env).1 <==> e.child == x && KillReaps(e, env, code)
  {
    var r := KillEntry(e, env);
    if KillReaps(e, env, code) {
      assert r.1[0] == Reaped(e.child, code);
    }
  }

  lemma CmdKillReaps(s: Server, cmd: CmdMsg, env: Env, x: nat, code: Option<int>)
    ensures Reaped(x, code) in CmdKill(s, cmd, env).events
            <==> cmd.name in s.procs && s.procs[cmd.name].child == x && KillReaps(s.procs[cmd.name], env, code)
  {
    if cmd.name in s.procs {
      var killed := KillEntry(s.procs[cmd.name], env);
      KillEntryReaps(s.procs[cmd.name], env, x, code);
      KillRecords(s, cmd, env);
    }
  }

  lemma KillRecords(s: Server, cmd: CmdMsg, env: Env)
    requires cmd.name in s.procs
    ensures var evs, waits := CmdKill(s, cmd, env).events, KillEntry(s.procs[cmd.name], env).1;
            && |evs| == |waits| + 2 && evs[..|waits|] == waits
            && evs[|waits|].Forgotten? && evs[|waits| + 1].Answered?
  {
  }

  predicate PlanReaps(s: Server, at: (Name, Env), x: nat, code: Option<int>) {
    at.0 in s.procs && s.procs[at.0].child == x && KillReaps(s.procs[at.0], at.1, code)
  }

  ghost predicate PlanReapsSome(s: Server, plan: seq<(Name, Env)>, x: nat, code: Option<int>)
  {
    plan != [] && (PlanReapsSome(s, plan[..|plan| - 1], x, code) || PlanReaps(s, plan[|plan| - 1], x, code))
  }

  lemma {:induction false} PlanFinds(s: Server, plan: seq<(Name, Env)>, x: nat, code: Option<int>)
    ensures PlanReapsSome(s, plan, x, code) <==> exists at :: at in plan && PlanReaps(s, at, x, code)
  {
    if plan != [] {
      assert plan == plan[..|plan| - 1] + [plan[|plan| - 1]];
      PlanFinds(s, plan[..|plan| - 1], x, code);
    }
  }

  /** A process not killed yet is as it was. */
  lemma NotKilledYet(s: Server, plan: seq<(Name, Env)>)
    requires plan != [] && forall i, j :: 0 <= i < j < |plan| ==> plan[i].0 != plan[j].0
    ensures var mid, n := KillAll(s, plan[..|plan| - 1]).server.procs, plan[|plan| - 1].0;
            (n in mid <==> n in s.procs) && (n in mid ==> mid[n] == s.procs[n])
  {
    var init := plan[..|plan| - 1];
    KillAllOutcome(s, init);
    assert forall i :: 0 <= i < |init| ==> init[i].0 == plan[i].0 != plan[|plan| - 1].0;
  }

  lemma KillProcessReaps(s: Server, n: Name, env: Env, x: nat, code: Option<int>)
    ensures Reaped(x, code) in KillProcess(s, n, env).events <==> PlanReaps(s, (n, env), x, code)
  {
    if n in s.procs {
      KillEntryReaps(s.procs[n], env, x, code);
    }
  }

  lemma {:induction false} KillAllReaps(s: Server, plan: seq<(Name, Env)>, x: nat, code: Option<int>)
    requires forall i, j :: 0 <= i < j < |plan| ==> plan[i].0 != plan[j].0
    ensures Reaped(x, code) in KillAll(s, plan).events <==> PlanReapsSome(s, plan, x, code)
  {
    if plan != [] {
      var init, last := plan[..|plan| - 1], plan[|plan| - 1];
      KillAllReaps(s, init, x, code);
      NotKilledYet(s, plan);
      KillProcessReaps(KillAll(s, init).server, last.0, last.1, x, code);
    }
  }

  lemma QuietReaps(w: World, l: Label)
    requires !l.TakeRelay? && !l.ShutDown? && !(TakesCommand(w, l) && w.lines[0].msg.cmd.verb.Kill?)
    ensures forall e :: e in NewEvents(w, l) ==> !e.Reaped?
  {
    if TakesCommand(w, l) {
      CommandReapsNone(w.server, w.lines[0].msg.cmd, l.env);
    }
  }

  lemma CommandReapsNone(s: Server, cmd: CmdMsg, env: Env)
    requires !cmd.verb.Kill?
    ensures forall e :: e in HandleCommand(s, cmd, env).events ==> !e.Reaped?
  {
    if cmd.verb.Subscribe? && cmd.name in s.procs {
      var e := s.procs[cmd.name];
      ReplayShape(Put(s, cmd.name, e.(buffer := [], subscribed := true)), e.child, e.buffer);
    }
  }

  lemma RelayReaps(s: Server, item: Relay, env: Env, x: nat, code: Option<int>)
    requires item.body.Ended? ==> item.body.code.None?
    ensures Reaped(x, code) in HandleRelay(s, item, env).events
            <==> item.name in s.procs && Reaped(x, code) in ReapNow(s.procs[item.name], item.body, env)
  {
    if item.name in s.procs {
      RelayRecords(s, item, env);
    }
  }

  lemma TakeReaps(w: World, env: Env, x: nat, code: Option<int>)
    requires Settled(w)
    ensures Reaped(x, code) in NewEvents(w, TakeRelay(env)) <==> ReapsSome(w, TakeRelay(env), x, code)
  {
    if Enabled(w, TakeRelay(env)) {
      var item := w.queue[0];
      assert Fits(w.children, item);
      RelayReaps(w.server, item, env, x, code);
      if Reaped(x, code) in HandleRelay(w.server, item, env).events {
        assert ReapsBy(w, TakeRelay(env), item.name, code);
      }
    }
  }

  lemma ShutdownReaps(w: World, plan: seq<(Name, Env)>, x: nat, code: Option<int>)
    requires Settled(w) && Enabled(w, ShutDown(plan))
    ensures Reaped(x, code) in NewEvents(w, ShutDown(plan))
            <==> ReapsSome(w, ShutDown(plan), x, code)
  {
    KillAllReaps(w.server, plan, x, code);
    PlanFinds(w.server, plan, x, code);
    PlanShutsDown(w, plan, x, code);
  }

  lemma PlanShutsDown(w: World, plan: seq<(Name, Env)>, x: nat, code: Option<int>)
    requires Enabled(w, ShutDown(plan))
    ensures (exists at :: at in plan && PlanReaps(w.server, at, x, code)) <==> ReapsSome(w, ShutDown(plan), x, code)
  {
    if at :| at in plan && PlanReaps(w.server, at, x, code) {
      assert ShutsDown(w, ShutDown(plan), at.0, at.1);
      assert ReapsBy(w, ShutDown(plan), at.0, code);
    }
    if n :| n in w.server.procs && w.server.procs[n].child == x && ReapsBy(w, ShutDown(plan), n, code) {
      var env :| ShutsDown(w, ShutDown(plan), n, env) && Verdict(env) == Gone(code);
      assert (n, env) in plan && PlanReaps(w.server, (n, env), x, code);
    }
  }

  lemma KillCommandReaps(w: World, l: Label, x: nat, code: Option<int>)
    requires TakesCommand(w, l) && w.lines[0].msg.cmd.verb.Kill?
    ensures Reaped(x, code) in NewEvents(w, l)
            <==> ReapsSome(w, l, x, code)
  {
    var cmd := w.lines[0].msg.cmd;
    CmdKillReaps(w.server, cmd, l.env, x, code);
    if Reaped(x, code) in NewEvents(w, l) {
      assert ReapsBy(w, l, cmd.name, code);
    }
  }

  /**
   In every run a step reaps a child with a status exactly when it waits for that child, not reaped before, and the wait
   returns that status: on an exit message under its name, in a kill of it while it runs, or in a shutdown.
   */
  lemma {:induction false} ReapedExactly(o: Oracle, run: seq<Label>, l: Label, x: nat, code: Option<int>)
    ensures var w := Run(o, run);
            && w.trace <= Step(w, l).trace
            && (Reaped(x, code) in Step(w, l).trace[|w.trace|..]
                <==> ReapsSome(w, l, x, code))
  {
    var w := Run(o, run);
    RunSettled(o, run);
    StepTrace(w, l);
    assert Step(w, l).trace[|w.trace|..] == NewEvents(w, l);
    if l.TakeRelay? {
      TakeReaps(w, l.env, x, code);
    } else if l.ShutDown? {
      if Enabled(w, l) {
        ShutdownReaps(w, l.plan, x, code);
      }
    } else if TakesCommand(w, l) && w.lines[0].msg.cmd.verb.Kill? {
      KillCommandReaps(w, l, x, code);
    } else {
      QuietReaps(w, l);
      NobodyReaps(w, l, x, code);
    }
  }

  lemma NobodyReaps(w: World, l: Label, x: nat, code: Option<int>)
    requires !l.TakeRelay? && !l.ShutDown? && !(TakesCommand(w, l) && w.lines[0].msg.cmd.verb.Kill?)
    ensures !ReapsSome(w, l, x, code)
  {
  }
}
