/** What is known of a child over whole runs of the Python server, what a kill does for good, and what a shutdown leaves. */
module PyKills {
  import opened Protocol
  import opened StreamRelay
  import opened PyServer
  import opened PyRuns
  import opened PyTheorems
  import opened PyDepartures
  import opened PySteps
  import L = RelayLog

  // ---- status and exit code, told from the run ----

  /** The return code of the last step in which `p` became known to have exited, if there was one. */
  function Learned(o: Oracle, run: seq<Label>, p: nat): Option<Option<int>>
  {
    if run == [] then None
    else
      var init, l := run[..|run| - 1], run[|run| - 1];
      var end := EndNow(Run(o, init), l);
      if Ends(end, p) then Some(end.value.code) else Learned(o, init, p)
  }

  /** A kill of `p` was completed. */
  predicate KilledIn(o: Oracle, run: seq<Label>, p: nat)
  {
    run != [] && (KilledIn(o, run[..|run| - 1], p) || Ends(KillNow(Run(o, run[..|run| - 1]), run[|run| - 1]), p))
  }

  function CodeOf(learned: Option<Option<int>>): Option<int> {
    if learned.Some? then learned.value else None
  }

  ghost predicate Told(s: Server, p: nat, learned: Option<Option<int>>, killed: bool) {
    if p < |s.all| then
      && (s.all[p].status == Exited <==> learned.Some?)
      && s.all[p].exitCode == CodeOf(learned)
      && (s.all[p].cancelled <==> killed)
    else learned.None? && !killed
  }

  lemma StepTold(s: Server, o: Oracle, l: Label, p: nat, learned: Option<Option<int>>, killed: bool)
    requires Told(s, p, learned, killed) && Named(s)
    ensures Told(Step(s, o, l), p, if Ends(EndNow(s, l), p) then Some(EndNow(s, l).value.code) else learned,
                 killed || Ends(KillNow(s, l), p))
  {
    NewcomersExactly(s, o, l);
    if p < |s.all| {
      ProcessExactly(s, o, l, p);
    } else {
      EndsKnown(s, l);
    }
  }

  lemma EndsKnown(s: Server, l: Label)
    requires Named(s)
    ensures EndNow(s, l).Some? ==> EndNow(s, l).value.proc < |s.all|
    ensures KillNow(s, l).Some? ==> KillNow(s, l).value.proc < |s.all|
  {
  }

  lemma {:induction false} RunTold(o: Oracle, run: seq<Label>, p: nat)
    ensures Told(Run(o, run), p, Learned(o, run, p), KilledIn(o, run, p))
  {
    if run != [] {
      var init, l := run[..|run| - 1], run[|run| - 1];
      RunTold(o, init, p);
      RunSettled(o, init);
      StepTold(Run(o, init), o, l, p, Learned(o, init, p), KilledIn(o, init, p));
    }
  }

  /**
   In every run a process is marked exited exactly when a kill of it was completed or its exit was reported, its exit code is the
   return code of the last such step, and its relay tasks have been told to stop exactly when a kill of it was completed.
   */
  lemma {:induction false} CodesExactly(o: Oracle, run: seq<Label>, p: nat)
    requires p < |Run(o, run).all|
    ensures var mp := Run(o, run).all[p];
            && (mp.status == Exited <==> Learned(o, run, p).Some?)
            && mp.exitCode == CodeOf(Learned(o, run, p))
            && (mp.cancelled <==> KilledIn(o, run, p))
  {
    RunTold(o, run, p);
  }

  // ---- a kill is for good ----

  /** Told to stop, and it stays so; nothing more is emitted. */
  ghost predicate Silenced(s: Server, p: nat) {
    p < |s.all| && s.all[p].cancelled && s.all[p].status == Exited
  }

  lemma SilencedOn(s: Server, o: Oracle, l: Label, p: nat)
    requires Silenced(s, p)
    ensures Silenced(Step(s, o, l), p) && EmittedNow(s, o, l, p) == []
  {
    ProcessExactly(s, o, l, p);
  }

  lemma {:induction false} StaysSilenced(o: Oracle, run: seq<Label>, more: seq<Label>, p: nat)
    requires Silenced(Run(o, run), p)
    ensures Silenced(Run(o, run + more), p) && EmittedIn(o, run + more, p) == EmittedIn(o, run, p)
  {
    if more == [] {
      assert run + more == run;
    } else {
      var init, l := more[..|more| - 1], more[|more| - 1];
      StaysSilenced(o, run, init, p);
      SilencedOn(Run(o, run + init), o, l, p);
      assert (run + more)[..|run + more| - 1] == run + init;
    }
  }

  lemma KillSilences(o: Oracle, run: seq<Label>, l: Label, p: nat)
    requires Ends(KillNow(Run(o, run), l), p) && p < |Run(o, run).all|
    ensures Silenced(Run(o, run + [l]), p) && EmittedIn(o, run + [l], p) == EmittedIn(o, run, p)
    ensures Run(o, run + [l]).all[p].exitCode == KillNow(Run(o, run), l).value.code
  {
    assert (run + [l])[..|run|] == run;
    ProcessExactly(Run(o, run), o, l, p);
    assert EmittedNow(Run(o, run), o, l, p) == [];
  }

  /**
   When a kill is completed, at once, after the wait or in a shutdown, the process is exited with the return code of that moment, and however
   the run goes on it stays exited and emits nothing more: its log is what it was before.
   */
  lemma {:induction false} KilledIsSilent(o: Oracle, run: seq<Label>, l: Label, more: seq<Label>, p: nat)
    requires Ends(KillNow(Run(o, run), l), p)
    ensures var s, s1, s2 := Run(o, run), Run(o, run + [l]), Run(o, run + [l] + more);
            && p < |s.all| && p < |s1.all| && p < |s2.all|
            && s1.all[p].exitCode == KillNow(s, l).value.code
            && s1.all[p].status == Exited && s2.all[p].status == Exited
            && EmittedIn(o, run + [l] + more, p) == EmittedIn(o, run, p)
            && L.Appended(Marks(p, s2.trace)) == L.Appended(Marks(p, s.trace))
  {
    RunSettled(o, run);
    EndsKnown(Run(o, run), l);
    KillSilences(o, run, l, p);
    StaysSilenced(o, run + [l], more, p);
    RunAccounts(o, run, p);
    RunAccounts(o, run + [l] + more, p);
  }

  /** A kill that finds the process exited takes it out of the table and leaves it as it is, with its relay tasks. */
  lemma {:induction false} FoundExited(o: Oracle, run: seq<Label>, l: Label, p: nat)
    requires var s := Run(o, run);
             CommandRead(s, l, Kill) && Find(s, l.line.msg.cmd.name) == Some(p) && s.all[p].status == Exited
    ensures var s, s' := Run(o, run), Step(Run(o, run), o, l);
            && s'.all == s.all && InTable(s, p) && !InTable(s', p)
  {
    RunSettled(o, run);
  }

  // ---- the shutdown ----

  /** The shutdown begins with the processes that are in the table. */
  predicate Begins(s: Server, l: Label) {
    l.BeginShutdown? && s.shutdown.Serving?
  }

  function ShutdownNow(s: Server, l: Label): Shutdown
  {
    match l
    case BeginShutdown => if s.shutdown.Serving? then Stopping(s.procs.Values, None) else s.shutdown
    case ShutdownNext(p, env) =>
      if Turned(s, p) then
        Stopping(s.shutdown.left - {p}, if s.all[p].status == Running && env.signal.None? then Some(p) else None)
      else s.shutdown
    case ShutdownGone(_) => if KillNow(s, l).Some? then Stopping(s.shutdown.left, None) else s.shutdown
    case EndShutdown => if s.shutdown == Stopping({}, None) then Stopped else s.shutdown
    case _ => s.shutdown
  }

  lemma ShutdownMoves(s: Server, o: Oracle, l: Label)
    requires l.BeginShutdown? || l.ShutdownNext? || l.ShutdownGone? || l.EndShutdown?
    ensures Step(s, o, l).shutdown == ShutdownNow(s, l)
  {
  }

  lemma CommandKeepsShutdown(s: Server, c: nat, cmd: CmdMsg, env: Env)
    requires c < |s.handlers|
    ensures HandleCommand(s, c, cmd, env).shutdown == s.shutdown
  {
    if cmd.verb.Subscribe? && Find(s, cmd.name).Some? {
      HandlesSubscribe(s, c, cmd, env);
    } else if cmd.verb.Kill? {
      KillKeepsShutdown(s, c, cmd.name, env);
    }
  }

  lemma KillKeepsShutdown(s: Server, c: nat, name: Name, env: Env)
    requires c < |s.handlers|
    ensures CmdKill(s, c, name, env).shutdown == s.shutdown
  {
  }

  lemma StdoutKeepsShutdown(s: Server, o: Oracle, q: nat, ev: ReadEvent, now: nat)
    requires q < |s.all|
    ensures TakeStdout(s, o, q, ev, now).shutdown == s.shutdown
  {
  }

  lemma ShutdownStays(s: Server, o: Oracle, l: Label)
    requires !l.BeginShutdown? && !l.ShutdownNext? && !l.ShutdownGone? && !l.EndShutdown?
    ensures Step(s, o, l).shutdown == s.shutdown
  {
    match l {
      case Line(c, line, env) =>
        if c < |s.handlers| && s.handlers[c].Reading? && line.Parsed? && line.msg.Cmd? {
          CommandKeepsShutdown(s, c, line.msg.cmd, env);
        }
      case ReadOut(q, ev, now) => if Free(s, q) { StdoutKeepsShutdown(s, o, q, ev, now); }
      case Resume(c, ok, env) => if c < |s.handlers| { ResumeKeepsShutdown(s, c, ok, env); }
      case _ =>
    }
  }

  lemma ResumeKeepsShutdown(s: Server, c: nat, ok: bool, env: Env)
    requires c < |s.handlers|
    ensures ResumeHandler(s, c, ok, env).shutdown == s.shutdown
  {
  }

  /** Begun over these processes: each is exited, waited for, or still to be killed, and no other is. */
  ghost predicate Underway(s: Server, listed: set<nat>) {
    && !s.shutdown.Serving?
    && (s.shutdown.Stopping? ==> forall p :: p in s.shutdown.left || s.shutdown.now == Some(p) ==> p in listed)
    && forall p :: p in listed ==> p < |s.all| && Sorted(s, p)
  }

  predicate Sorted(s: Server, p: nat)
    requires p < |s.all|
  {
    s.all[p].status == Exited || (s.shutdown.Stopping? && (p in s.shutdown.left || s.shutdown.now == Some(p)))
  }

  lemma SortedOn(s: Server, o: Oracle, l: Label, p: nat)
    requires p < |s.all| && Sorted(s, p) && !s.shutdown.Serving?
    ensures p < |Step(s, o, l).all| && Sorted(Step(s, o, l), p)
  {
    ProcessExactly(s, o, l, p);
    if l.BeginShutdown? || l.ShutdownNext? || l.ShutdownGone? || l.EndShutdown? {
      ShutdownMoves(s, o, l);
    } else {
      ShutdownStays(s, o, l);
    }
  }

  lemma UnderwayOn(s: Server, o: Oracle, l: Label, listed: set<nat>)
    requires Underway(s, listed)
    ensures Underway(Step(s, o, l), listed)
  {
    forall p | p in listed ensures p < |Step(s, o, l).all| && Sorted(Step(s, o, l), p) {
      SortedOn(s, o, l, p);
    }
    if l.BeginShutdown? || l.ShutdownNext? || l.ShutdownGone? || l.EndShutdown? {
      ShutdownMoves(s, o, l);
    } else {
      ShutdownStays(s, o, l);
    }
  }

  lemma BeginsUnderway(s: Server, o: Oracle, l: Label)
    requires Named(s) && Begins(s, l)
    ensures Underway(Step(s, o, l), s.procs.Values)
  {
  }

  lemma {:induction false} RunUnderway(o: Oracle, run: seq<Label>, b: nat)
    requires b < |run| && Begins(Run(o, run[..b]), run[b])
    ensures Underway(Run(o, run), Run(o, run[..b]).procs.Values)
    decreases |run|
  {
    var init := run[..|run| - 1];
    assert init[..b] == run[..b];
    if |run| == b + 1 {
      RunSettled(o, init);
      BeginsUnderway(Run(o, init), o, run[b]);
    } else {
      RunUnderway(o, init, b);
      UnderwayOn(Run(o, init), o, run[|run| - 1], Run(o, run[..b]).procs.Values);
    }
  }

  /** In every run a finished shutdown leaves every process that was in the table when it began exited. */
  lemma {:induction false} ShutdownEndsAll(o: Oracle, run: seq<Label>, b: nat, p: nat)
    requires b < |run| && Begins(Run(o, run[..b]), run[b]) && p in Run(o, run[..b]).procs.Values
    ensures p < |Run(o, run).all|
    ensures Run(o, run).shutdown.Stopped? ==> Run(o, run).all[p].status == Exited
  {
    RunUnderway(o, run, b);
  }

  /** And it kills no other. */
  lemma {:induction false} ShutdownSparesOthers(o: Oracle, run: seq<Label>, b: nat, l: Label, p: nat)
    requires b < |run| && Begins(Run(o, run[..b]), run[b])
    requires (l.ShutdownNext? || l.ShutdownGone?) && Ends(KillNow(Run(o, run), l), p)
    ensures p in Run(o, run[..b]).procs.Values
  {
    RunUnderway(o, run, b);
  }
}
