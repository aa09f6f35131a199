/** The relay tasks of the Python server: how each step moves them, and what they report of what they read. */
module PyTasks {
  import opened Protocol
  import opened Sequences
  import opened StreamRelay
  import opened PyServer
  import opened PyRuns
  import opened PyTheorems
  import opened PyReplay
  import opened PySteps

  // ---- one step ----

  /** The stdout task takes this read. */
  predicate ReadsOut(s: Server, l: Label, p: nat) {
    l.ReadOut? && l.proc == p && Free(s, p) && s.all[p].out.Listening?
  }

  predicate ReadsErr(s: Server, l: Label, p: nat) {
    l.ReadErr? && l.proc == p && Free(s, p) && s.all[p].err.Listening?
  }

  /** After a report a task waits for the writer it used, if any. */
  function Busy(s: Server, p: nat): Relaying
    requires p < |s.all|
  {
    if s.all[p].subscribed && s.writer.Some? then Draining(s.writer.value) else Listening
  }

  function Onwards(task: Relaying): Relaying {
    match task
    case Draining(_) => Listening
    case Parting(_) => Over
    case _ => task
  }

  /** Where the stdout task stands after the step. */
  function OutNext(s: Server, o: Oracle, l: Label, p: nat): Relaying
    requires p < |s.all|
  {
    var task := s.all[p].out;
    if ReadsOut(s, l, p) then
      match l.ev
      case Eof => Reaping
      case Failed => Over
      case Text(line) => if PyLine(o, line) == [] then Listening else Busy(s, p)
    else if Ends(GoneNow(s, l), p) then (if Busy(s, p).Draining? then Parting(s.writer.value) else Over)
    else if l.DrainEnds? && l.proc == p && l.out && Free(s, p) then Onwards(task)
    else if l.Cancel? && l.proc == p && l.out && s.all[p].cancelled then Over
    else task
  }

  function ErrNext(s: Server, o: Oracle, l: Label, p: nat): Relaying
    requires p < |s.all|
  {
    var task := s.all[p].err;
    if ReadsErr(s, l, p) then
      if !l.ev.Text? then Over else if StderrStep(o, l.ev) == [] then Listening else Busy(s, p)
    else if l.DrainEnds? && l.proc == p && !l.out && Free(s, p) then Onwards(task)
    else if l.Cancel? && l.proc == p && !l.out && s.all[p].cancelled then Over
    else task
  }

  ghost predicate TasksFollow(s: Server, s': Server, o: Oracle, l: Label, p: nat) {
    && p < |s.all| && p < |s'.all|
    && s'.all[p].out == OutNext(s, o, l, p) && s'.all[p].err == ErrNext(s, o, l, p)
  }

  ghost predicate BothKept(s: Server, s': Server) {
    |s.all| <= |s'.all| && forall p :: 0 <= p < |s.all| ==> s'.all[p].out == s.all[p].out && s'.all[p].err == s.all[p].err
  }

  lemma KeptFollow(s: Server, s': Server, o: Oracle, l: Label, p: nat)
    requires BothKept(s, s') && p < |s.all| && (l.Line? || l.Resume? || l.Accept? || l.Depart?)
    ensures TasksFollow(s, s', o, l, p)
  {
  }

  lemma RetireKeepsBoth(s: Server, w: nat)
    ensures BothKept(s, Retire(s, w))
  {
  }

  lemma KillKeepsBoth(s: Server, c: nat, name: Name, env: Env)
    requires c < |s.handlers|
    ensures BothKept(s, CmdKill(s, c, name, env))
  {
  }

  lemma LineKeepsBoth(s: Server, o: Oracle, l: Label)
    requires l.Line? && l.conn < |s.handlers| && s.handlers[l.conn].Reading?
    ensures BothKept(s, Step(s, o, l))
  {
    if SubscribedNow(s, l).Some? {
      HandlesSubscribe(s, l.conn, l.line.msg.cmd, l.env);
    } else if l.line.Parsed? && l.line.msg.Cmd? {
      var cmd := l.line.msg.cmd;
      match cmd.verb {
        case Kill => KillKeepsBoth(s, l.conn, cmd.name, l.env);
        case Spawn =>
        case Unsubscribe =>
        case _ =>
      }
    }
  }

  lemma ResumeKeepsBoth(s: Server, c: nat, ok: bool, env: Env)
    requires c < |s.handlers|
    ensures BothKept(s, ResumeHandler(s, c, ok, env))
  {
    match s.handlers[c] {
      case Answering(w) => RetireKeepsBoth(s, w);
      case Replaying(_, w, _, _) => RetireKeepsBoth(s, w);
      case _ =>
    }
  }

  lemma EmitOutMoves(s: Server, q: nat, body: Body, now: nat, p: nat)
    requires q < |s.all| && p < |s.all|
    ensures var s' := EmitOut(s, q, body, now);
            && |s'.all| == |s.all| && s'.all[p].err == s.all[p].err
            && s'.all[p].out == if p == q then Busy(s, q) else s.all[p].out
  {
  }

  lemma ReadOutMoves(s: Server, o: Oracle, l: Label, p: nat)
    requires l.ReadOut? && Free(s, l.proc) && s.all[l.proc].out.Listening? && p < |s.all|
    ensures TasksFollow(s, Step(s, o, l), o, l, p)
  {
    if l.ev.Text? {
      var line := o.trim(l.ev.line);
      match o.parse(line) {
        case Some(v) => EmitOutMoves(s, l.proc, OutLine(Wrap(v)), l.now, p);
        case None => EmitOutMoves(s, l.proc, TextLine(line), l.now, p);
      }
    }
  }

  lemma ReadErrMoves(s: Server, o: Oracle, l: Label, p: nat)
    requires l.ReadErr? && Free(s, l.proc) && s.all[l.proc].err.Listening? && p < |s.all|
    ensures TasksFollow(s, Step(s, o, l), o, l, p)
  {
  }

  lemma ReapMoves(s: Server, o: Oracle, l: Label, p: nat)
    requires l.ChildGone? && Free(s, l.proc) && s.all[l.proc].out.Reaping? && p < |s.all|
    ensures TasksFollow(s, Step(s, o, l), o, l, p)
  {
  }

  lemma DrainMoves(s: Server, o: Oracle, l: Label, p: nat)
    requires l.DrainEnds? && Free(s, l.proc) && p < |s.all|
    ensures TasksFollow(s, Step(s, o, l), o, l, p)
  {
    var task := if l.out then s.all[l.proc].out else s.all[l.proc].err;
    if task.Draining? || task.Parting? {
      RetireKeepsBoth(s, task.writer);
    }
  }

  lemma ControlMoves(s: Server, o: Oracle, l: Label, p: nat)
    requires p < |s.all|
    requires l.Greeted? || l.Vanish? || l.Cancel? || l.BeginShutdown? || l.ShutdownNext? || l.ShutdownGone? || l.EndShutdown?
    ensures TasksFollow(s, Step(s, o, l), o, l, p)
  {
  }

  lemma HandlerMoves(s: Server, o: Oracle, l: Label, p: nat)
    requires p < |s.all| && (l.Line? || l.Resume? || l.Accept? || l.Depart?)
    ensures TasksFollow(s, Step(s, o, l), o, l, p)
  {
    match l {
      case Line(c, _, _) => if c < |s.handlers| && s.handlers[c].Reading? { LineKeepsBoth(s, o, l); }
      case Resume(c, ok, env) => if c < |s.handlers| { ResumeKeepsBoth(s, c, ok, env); }
      case Depart(c) => RetireKeepsBoth(s, c);
      case Accept =>
    }
    KeptFollow(s, Step(s, o, l), o, l, p);
  }

  /**
   In every step a relay task goes where the label takes it: on a read, to its writer's drain, back to listening, to the wait for
   the child or out; on the child's exit, to its last drain or out; from a drain, back or out; and out once it is told to stop.
   */
  lemma {:induction false} TasksExactly(s: Server, o: Oracle, l: Label, p: nat)
    requires p < |s.all|
    ensures p < |Step(s, o, l).all|
    ensures Step(s, o, l).all[p].out == OutNext(s, o, l, p)
    ensures Step(s, o, l).all[p].err == ErrNext(s, o, l, p)
  {
    match l {
      case ReadOut(q, _, _) => if ReadsOut(s, l, q) { ReadOutMoves(s, o, l, p); }
      case ReadErr(q, _) => if ReadsErr(s, l, q) { ReadErrMoves(s, o, l, p); }
      case ChildGone(q, _) => if GoneNow(s, l).Some? { ReapMoves(s, o, l, p); }
      case DrainEnds(q, _, _) => if Free(s, q) { DrainMoves(s, o, l, p); }
      case Line(_, _, _) => HandlerMoves(s, o, l, p);
      case Resume(_, _, _) => HandlerMoves(s, o, l, p);
      case Accept => HandlerMoves(s, o, l, p);
      case Depart(_) => HandlerMoves(s, o, l, p);
      case _ => ControlMoves(s, o, l, p);
    }
  }

  // ---- whole streams ----

  /** What the stdout task of `p` has read. */
  function OutRead(o: Oracle, run: seq<Label>, p: nat): seq<ReadEvent>
  {
    if run == [] then []
    else
      var init, l := run[..|run| - 1], run[|run| - 1];
      OutRead(o, init, p) + if ReadsOut(Run(o, init), l, p) then [l.ev] else []
  }

  function ErrRead(o: Oracle, run: seq<Label>, p: nat): seq<ReadEvent>
  {
    if run == [] then []
    else
      var init, l := run[..|run| - 1], run[|run| - 1];
      ErrRead(o, init, p) + if ReadsErr(Run(o, init), l, p) then [l.ev] else []
  }

  /** What `p` has emitted by its stdout task: everything but what comes of a read of stderr. */
  function FromOut(o: Oracle, run: seq<Label>, p: nat): seq<ServerMsg>
  {
    if run == [] then []
    else
      var init, l := run[..|run| - 1], run[|run| - 1];
      FromOut(o, init, p) + if l.ReadErr? then [] else EmittedNow(Run(o, init), o, l, p)
  }

  function FromErr(o: Oracle, run: seq<Label>, p: nat): seq<ServerMsg>
  {
    if run == [] then []
    else
      var init, l := run[..|run| - 1], run[|run| - 1];
      FromErr(o, init, p) + if l.ReadErr? then EmittedNow(Run(o, init), o, l, p) else []
  }

  /** The exit that the stdout task of `p` has reported. */
  function Reported(o: Oracle, run: seq<Label>, p: nat): Option<Option<int>>
  {
    if run == [] then None
    else
      var init, l := run[..|run| - 1], run[|run| - 1];
      if Ends(GoneNow(Run(o, init), l), p) then Some(l.code) else Reported(o, init, p)
  }

  function NameOf(s: Server, p: nat): Name {
    if p < |s.all| then s.all[p].name else ""
  }

  /** The reports for the lines read, and the exit if there is one. */
  function OutBodies(o: Oracle, evs: seq<ReadEvent>, exit: Option<Option<int>>): seq<Body> {
    Collect((text: string) => PyLine(o, text), Lines(evs)) + if exit.Some? then [Ended(exit.value)] else []
  }

  predicate Open(task: Relaying) {
    task.Listening? || task.Draining?
  }

  /** The stdout task stands where its reads and its report have brought it. */
  ghost predicate OutStands(mp: Process, o: Oracle, evs: seq<ReadEvent>, exit: Option<Option<int>>, sent: seq<ServerMsg>) {
    && sent == Messages(mp.name, OutBodies(o, evs, exit))
    && (exit.Some? ==> EndsNormally(evs) && !Open(mp.out) && !mp.out.Reaping?)
    && (Open(mp.out) ==> AllText(evs))
    && (mp.out.Reaping? ==> EndsNormally(evs))
    && (!mp.cancelled && AllText(evs) ==> Open(mp.out))
    && (!mp.cancelled && EndsNormally(evs) && exit.None? ==> mp.out.Reaping?)
  }

  ghost predicate ErrStands(mp: Process, o: Oracle, evs: seq<ReadEvent>, sent: seq<ServerMsg>) {
    && sent == Messages(mp.name, StderrReports(o, evs))
    && (Open(mp.err) ==> AllText(evs))
    && (!mp.cancelled && AllText(evs) ==> Open(mp.err))
    && !mp.err.Reaping? && !mp.err.Parting?
  }

  lemma MessagesJoin(name: Name, a: seq<Body>, b: seq<Body>)
    ensures Messages(name, a + b) == Messages(name, a) + Messages(name, b)
  {
  }

  lemma OutReadsOn(mp: Process, mp': Process, o: Oracle, evs: seq<ReadEvent>, ev: ReadEvent, sent: seq<ServerMsg>)
    requires OutStands(mp, o, evs, None, sent) && mp.out.Listening? && mp'.name == mp.name
    requires match ev
             case Eof => mp'.out.Reaping?
             case Failed => mp'.out.Over?
             case Text(_) => Open(mp'.out)
    ensures OutStands(mp', o, evs + [ev], None, sent + Messages(mp.name, if ev.Text? then PyLine(o, ev.line) else []))
  {
    LinesLast(evs, ev);
    var before := Collect((text: string) => PyLine(o, text), Lines(evs));
    assert OutBodies(o, evs, None) == before;
    if ev.Text? {
      CollectLast((text: string) => PyLine(o, text), Lines(evs), ev.line);
      assert OutBodies(o, evs + [ev], None) == before + PyLine(o, ev.line);
      MessagesJoin(mp.name, before, PyLine(o, ev.line));
      assert AllText(evs + [ev]);
    } else {
      assert Lines(evs + [ev]) == Lines(evs);
      assert OutBodies(o, evs + [ev], None) == before;
      assert !AllText(evs + [ev]) by {
        assert (evs + [ev])[|evs|] == ev;
      }
    }
  }

  lemma OutReportsOn(mp: Process, mp': Process, o: Oracle, evs: seq<ReadEvent>, code: Option<int>, sent: seq<ServerMsg>)
    requires OutStands(mp, o, evs, None, sent) && mp.out.Reaping? && mp'.name == mp.name
    requires mp'.out.Over? || mp'.out.Parting?
    ensures OutStands(mp', o, evs, Some(code), sent + [Exit(mp.name, code)])
  {
    var before := OutBodies(o, evs, None);
    assert OutBodies(o, evs, Some(code)) == before + [Ended(code)];
    MessagesJoin(mp.name, before, [Ended(code)]);
    assert Messages(mp.name, [Ended(code)]) == [Exit(mp.name, code)];
    NotAllText(evs);
  }

  lemma {:induction false} NotAllText(evs: seq<ReadEvent>)
    requires EndsNormally(evs)
    ensures !AllText(evs)
  {
    if evs[0].Text? {
      NotAllText(evs[1..]);
      var i :| 0 <= i < |evs[1..]| && !evs[1..][i].Text?;
      assert !evs[i + 1].Text?;
    }
  }

  /** Nothing is read or reported; the stdout task may leave a drain or be told to stop. */
  lemma OutRests(mp: Process, mp': Process, o: Oracle, evs: seq<ReadEvent>, exit: Option<Option<int>>, sent: seq<ServerMsg>)
    requires OutStands(mp, o, evs, exit, sent) && mp'.name == mp.name && (mp.cancelled ==> mp'.cancelled)
    requires mp'.out == mp.out || mp'.out == Onwards(mp.out) || (mp.cancelled && mp'.out.Over?)
    ensures OutStands(mp', o, evs, exit, sent)
  {
  }

  /** Told of `p`: where its stdout task stands, or that there is none yet. */
  ghost predicate OutTold(s: Server, o: Oracle, evs: seq<ReadEvent>, exit: Option<Option<int>>, sent: seq<ServerMsg>, p: nat) {
    if p < |s.all| then OutStands(s.all[p], o, evs, exit, sent) else evs == [] && exit.None? && sent == []
  }

  /** One more step. */
  lemma OutStep(s: Server, o: Oracle, l: Label, p: nat, evs: seq<ReadEvent>, exit: Option<Option<int>>, sent: seq<ServerMsg>)
    requires OutTold(s, o, evs, exit, sent, p)
    ensures OutTold(Step(s, o, l), o, evs + (if ReadsOut(s, l, p) then [l.ev] else []),
                    if Ends(GoneNow(s, l), p) then Some(l.code) else exit,
                    sent + (if l.ReadErr? then [] else EmittedNow(s, o, l, p)), p)
  {
    NewcomersExactly(s, o, l);
    if p < |s.all| {
      ProcessExactly(s, o, l, p);
      TasksExactly(s, o, l, p);
      OutMoves(s, s.all[p], Step(s, o, l).all[p], o, l, p, evs, exit, sent);
    } else {
      NothingYet(s, o, l, p);
      if p < |Step(s, o, l).all| {
        assert OutBodies(o, [], None) == [];
      }
    }
  }

  lemma NothingYet(s: Server, o: Oracle, l: Label, p: nat)
    requires p >= |s.all|
    ensures !ReadsOut(s, l, p) && !ReadsErr(s, l, p) && !Ends(GoneNow(s, l), p) && EmittedNow(s, o, l, p) == []
  {
  }

  lemma OutMoves(s: Server, mp: Process, mp': Process, o: Oracle, l: Label, p: nat, evs: seq<ReadEvent>, exit: Option<Option<int>>, sent: seq<ServerMsg>)
    requires p < |s.all| && mp == s.all[p] && OutStands(mp, o, evs, exit, sent)
    requires mp'.name == mp.name && (mp.cancelled ==> mp'.cancelled) && mp'.out == OutNext(s, o, l, p)
    ensures OutStands(mp', o, evs + (if ReadsOut(s, l, p) then [l.ev] else []),
                      if Ends(GoneNow(s, l), p) then Some(l.code) else exit,
                      sent + (if l.ReadErr? then [] else EmittedNow(s, o, l, p)))
  {
    if ReadsOut(s, l, p) {
      OutReadsOn(mp, mp', o, evs, l.ev, sent);
      assert EmittedNow(s, o, l, p) == Messages(mp.name, if l.ev.Text? then PyLine(o, l.ev.line) else []);
    } else if Ends(GoneNow(s, l), p) {
      OutReportsOn(mp, mp', o, evs, l.code, sent);
      assert EmittedNow(s, o, l, p) == [Exit(mp.name, l.code)];
      assert evs + [] == evs;
    } else {
      assert l.ReadErr? || EmittedNow(s, o, l, p) == [];
      assert evs + [] == evs && sent + [] == sent;
      OutRests(mp, mp', o, evs, exit, sent);
    }
  }

  lemma {:induction false} RunOutTold(o: Oracle, run: seq<Label>, p: nat)
    ensures OutTold(Run(o, run), o, OutRead(o, run, p), Reported(o, run, p), FromOut(o, run, p), p)
  {
    if run == [] {
    } else {
      var init, l := run[..|run| - 1], run[|run| - 1];
      RunOutTold(o, init, p);
      OutStep(Run(o, init), o, l, p, OutRead(o, init, p), Reported(o, init, p), FromOut(o, init, p));
    }
  }

  /**
   In every run, what a process emits by its stdout task is what the loop over its stdout reports of the lines read, in
   order, and last the exit once that is reported; an exit is reported only past a normal end. A task that was not told to stop
   reads on as long as lines come, and waits for the child exactly when the stream has ended normally and the exit is still due.
   */
  lemma {:induction false} StdoutExactly(o: Oracle, run: seq<Label>, p: nat)
    requires p < |Run(o, run).all|
    ensures var mp, evs, exit := Run(o, run).all[p], OutRead(o, run, p), Reported(o, run, p);
            && FromOut(o, run, p) ==
               (if exit.Some? then Messages(mp.name, PyReports(o, evs, exit.value))
                else Messages(mp.name, Collect((text: string) => PyLine(o, text), Lines(evs))))
            && (exit.Some? ==> EndsNormally(evs))
            && (!mp.cancelled ==> (Open(mp.out) <==> AllText(evs)))
            && (!mp.cancelled ==> (mp.out.Reaping? <==> EndsNormally(evs) && exit.None?))
  {
    RunOutTold(o, run, p);
    var evs, exit := OutRead(o, run, p), Reported(o, run, p);
    assert OutBodies(o, evs, None) == Collect((text: string) => PyLine(o, text), Lines(evs));
  }

  // ---- stderr ----

  lemma ErrReadsOn(mp: Process, mp': Process, o: Oracle, evs: seq<ReadEvent>, ev: ReadEvent, sent: seq<ServerMsg>)
    requires ErrStands(mp, o, evs, sent) && mp.err.Listening? && mp'.name == mp.name
    requires if ev.Text? then Open(mp'.err) else mp'.err.Over?
    ensures ErrStands(mp', o, evs + [ev], sent + Messages(mp.name, StderrStep(o, ev)))
  {
    StepsAddUp(o, evs, ev);
    MessagesJoin(mp.name, StderrReports(o, evs), StderrStep(o, ev));
    assert (evs + [ev])[|evs|] == ev;
    assert ev.Text? ==> AllText(evs + [ev]);
  }

  lemma ErrMoves(s: Server, mp: Process, mp': Process, o: Oracle, l: Label, p: nat, evs: seq<ReadEvent>, sent: seq<ServerMsg>)
    requires p < |s.all| && mp == s.all[p] && ErrStands(mp, o, evs, sent)
    requires mp'.name == mp.name && (mp.cancelled ==> mp'.cancelled) && mp'.err == ErrNext(s, o, l, p)
    ensures ErrStands(mp', o, evs + (if ReadsErr(s, l, p) then [l.ev] else []),
                      sent + (if l.ReadErr? then EmittedNow(s, o, l, p) else []))
  {
    if ReadsErr(s, l, p) {
      ErrReadsOn(mp, mp', o, evs, l.ev, sent);
      assert EmittedNow(s, o, l, p) == Messages(mp.name, StderrStep(o, l.ev));
    } else {
      assert l.ReadErr? ==> EmittedNow(s, o, l, p) == [];
      assert evs + [] == evs && sent + [] == sent;
    }
  }

  ghost predicate ErrTold(s: Server, o: Oracle, evs: seq<ReadEvent>, sent: seq<ServerMsg>, p: nat) {
    if p < |s.all| then ErrStands(s.all[p], o, evs, sent) else evs == [] && sent == []
  }

  lemma ErrStep(s: Server, o: Oracle, l: Label, p: nat, evs: seq<ReadEvent>, sent: seq<ServerMsg>)
    requires ErrTold(s, o, evs, sent, p)
    ensures ErrTold(Step(s, o, l), o, evs + (if ReadsErr(s, l, p) then [l.ev] else []),
                    sent + (if l.ReadErr? then EmittedNow(s, o, l, p) else []), p)
  {
    NewcomersExactly(s, o, l);
    if p < |s.all| {
      ProcessExactly(s, o, l, p);
      TasksExactly(s, o, l, p);
      ErrMoves(s, s.all[p], Step(s, o, l).all[p], o, l, p, evs, sent);
    } else {
      NothingYet(s, o, l, p);
    }
  }

  lemma {:induction false} RunErrTold(o: Oracle, run: seq<Label>, p: nat)
    ensures ErrTold(Run(o, run), o, ErrRead(o, run, p), FromErr(o, run, p), p)
  {
    if run == [] {
    } else {
      var init, l := run[..|run| - 1], run[|run| - 1];
      RunErrTold(o, init, p);
      ErrStep(Run(o, init), o, l, p, ErrRead(o, init, p), FromErr(o, init, p));
    }
  }

  /** In every run, what a process emits of its stderr is what the loop over it reports, and the stderr task reads on as long as lines come. */
  lemma {:induction false} StderrExactly(o: Oracle, run: seq<Label>, p: nat)
    requires p < |Run(o, run).all|
    ensures var mp, evs := Run(o, run).all[p], ErrRead(o, run, p);
            && FromErr(o, run, p) == Messages(mp.name, StderrReports(o, evs))
            && (!mp.cancelled ==> (Open(mp.err) <==> AllText(evs)))
  {
    RunErrTold(o, run, p);
  }
}
