/** How a process's output ends in the Python server: with one exit, then only stderr. */
module PyExits {
  import opened Protocol
  import opened StreamRelay
  import opened PyServer
  import opened PyRuns
  import opened PyTheorems

  /** The stdout task has reported the exit or will never report one. */
  predicate TaskOver(r: Relaying) {
    r.Parting? || r.Over?
  }

  ghost predicate TasksKept(s: Server, s': Server) {
    && |s.all| <= |s'.all|
    && forall p :: 0 <= p < |s.all| ==> s'.all[p].out == s.all[p].out
  }

  lemma RetireKeepsTasks(s: Server, w: nat)
    ensures TasksKept(s, Retire(s, w))
  {
  }

  lemma KillKeepsTasks(s: Server, c: nat, name: Name, env: Env)
    requires c < |s.handlers|
    ensures TasksKept(s, CmdKill(s, c, name, env))
  {
  }

  lemma SubscribeKeepsTasks(s: Server, c: nat, cmd: CmdMsg, env: Env)
    requires c < |s.handlers| && cmd.verb.Subscribe?
    ensures TasksKept(s, HandleCommand(s, c, cmd, env))
  {
    if Find(s, cmd.name).Some? {
      HandlesSubscribe(s, c, cmd, env);
    }
  }

  lemma CommandKeepsTasks(s: Server, c: nat, cmd: CmdMsg, env: Env)
    requires c < |s.handlers|
    ensures TasksKept(s, HandleCommand(s, c, cmd, env))
  {
    match cmd.verb {
      case Kill => KillKeepsTasks(s, c, cmd.name, env);
      case Subscribe => SubscribeKeepsTasks(s, c, cmd, env);
      case _ =>
    }
  }

  lemma ResumeKeepsTasks(s: Server, c: nat, ok: bool, env: Env)
    requires c < |s.handlers|
    ensures TasksKept(s, ResumeHandler(s, c, ok, env))
  {
    match s.handlers[c] {
      case Answering(w) => RetireKeepsTasks(s, w);
      case Replaying(_, w, _, _) => RetireKeepsTasks(s, w);
      case _ =>
    }
  }

  /** Once over, the stdout task stays so. */
  lemma OverStays(s: Server, o: Oracle, l: Label, p: nat)
    requires p < |s.all| && TaskOver(s.all[p].out)
    ensures p < |Step(s, o, l).all| && TaskOver(Step(s, o, l).all[p].out)
  {
    match l {
      case Line(c, line, env) =>
        if c < |s.handlers| && s.handlers[c].Reading? && line.Parsed? && line.msg.Cmd? {
          CommandKeepsTasks(s, c, line.msg.cmd, env);
        }
      case Resume(c, ok, env) => if c < |s.handlers| { ResumeKeepsTasks(s, c, ok, env); }
      case Depart(c) => RetireKeepsTasks(s, c);
      case ReadOut(q, ev, now) => if Free(s, q) && s.all[q].out.Listening? { StdoutSpares(s, o, q, ev, now, p); }
      case ReadErr(q, ev) => if Free(s, q) { StderrSpares(s, o, q, ev, p); }
      case ChildGone(q, code) => if Free(s, q) { ReapEnds(s, q, code, p); }
      case DrainEnds(q, out, ok) => if Free(s, q) { DrainSpares(s, q, out, ok, p); }
      case _ =>
    }
  }

  lemma StdoutSpares(s: Server, o: Oracle, q: nat, ev: ReadEvent, now: nat, p: nat)
    requires q < |s.all| && p < |s.all| && p != q
    ensures var s' := TakeStdout(s, o, q, ev, now);
            |s'.all| == |s.all| && s'.all[p].out == s.all[p].out
  {
  }

  lemma StderrSpares(s: Server, o: Oracle, q: nat, ev: ReadEvent, p: nat)
    requires q < |s.all| && p < |s.all|
    ensures var s' := TakeStderr(s, o, q, ev);
            |s'.all| == |s.all| && s'.all[p].out == s.all[p].out
  {
  }

  /** Reporting the exit ends the stdout task. */
  lemma ReapEnds(s: Server, q: nat, code: Option<int>, p: nat)
    requires q < |s.all| && p < |s.all|
    ensures var s' := Reap(s, q, code);
            |s'.all| == |s.all| && if p == q then TaskOver(s'.all[p].out) else s'.all[p].out == s.all[p].out
  {
  }

  lemma DrainSpares(s: Server, q: nat, out: bool, ok: bool, p: nat)
    requires q < |s.all| && p < |s.all| && TaskOver(s.all[p].out)
    ensures var s' := Drained(s, q, out, ok);
            |s'.all| == |s.all| && TaskOver(s'.all[p].out)
  {
    var task := if out then s.all[q].out else s.all[q].err;
    if task.Draining? || task.Parting? {
      RetireKeepsTasks(s, task.writer);
    }
  }

  /** Only stderr may follow an exit. */
  ghost predicate ExitLast(msgs: seq<ServerMsg>) {
    forall i, j :: 0 <= i < j < |msgs| && msgs[i].Exit? ==> msgs[j].Stderr?
  }

  ghost predicate HasExit(msgs: seq<ServerMsg>) {
    exists i :: 0 <= i < |msgs| && msgs[i].Exit?
  }

  lemma ExitAppended(msgs: seq<ServerMsg>, more: seq<ServerMsg>)
    requires ExitLast(msgs) && |more| <= 1 && (HasExit(msgs) ==> forall k :: 0 <= k < |more| ==> more[k].Stderr?)
    ensures ExitLast(msgs + more)
    ensures HasExit(msgs + more) ==> HasExit(msgs) || HasExit(more)
  {
  }

  /**
   In every run, a process reports at most one exit, after everything that came from its stdout:
   what follows it is stderr, and whoever reads stdout reports nothing more.
   */
  lemma {:induction false} ExitIsFinal(o: Oracle, run: seq<Label>, p: nat)
    ensures ExitLast(EmittedIn(o, run, p))
    ensures HasExit(EmittedIn(o, run, p)) ==> p < |Run(o, run).all| && TaskOver(Run(o, run).all[p].out)
  {
    if run != [] {
      var init, l := run[..|run| - 1], run[|run| - 1];
      ExitIsFinal(o, init, p);
      ExitStep(Run(o, init), o, l, p, EmittedIn(o, init, p));
    }
  }

  /** One more step, after messages that end as they should. */
  lemma ExitStep(s: Server, o: Oracle, l: Label, p: nat, before: seq<ServerMsg>)
    requires ExitLast(before) && (HasExit(before) ==> p < |s.all| && TaskOver(s.all[p].out))
    ensures var after := before + EmittedNow(s, o, l, p);
            && ExitLast(after)
            && (HasExit(after) ==> p < |Step(s, o, l).all| && TaskOver(Step(s, o, l).all[p].out))
  {
    ExitAppended(before, EmittedNow(s, o, l, p));
    if HasExit(before) {
      OverStays(s, o, l, p);
    } else if HasExit(EmittedNow(s, o, l, p)) {
      OnlyReapExits(s, o, l, p);
      ReapEnds(s, p, l.code, p);
    }
  }

  lemma OnlyReapExits(s: Server, o: Oracle, l: Label, p: nat)
    requires HasExit(EmittedNow(s, o, l, p))
    ensures l.ChildGone? && l.proc == p && Free(s, p) && s.all[p].out.Reaping?
  {
  }
}
