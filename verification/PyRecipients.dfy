/** Whom the Python server writes to: on whose request output goes to a connection, and which client an answer reaches. */
module PyRecipients {
  import opened Protocol
  import opened StreamRelay
  import opened PyServer
  import opened PyRuns
  import opened PyTheorems
  import opened PyDepartures

  // ---- the last step that changed a flag since a connection was accepted ----

  predicate Flagged(s: Server, p: nat) {
    p < |s.all| && s.all[p].subscribed
  }

  /** What the step makes of the flag of `p`, if it changes it. */
  function FlagNow(s: Server, l: Label, p: nat): Option<bool> {
    if SubscribedNow(s, l) == Some(p) then Some(true)
    else if UnsubscribedNow(s, l) == Some(p) then Some(false)
    else if ClearsTable(s, l) && InTable(s, p) then Some(false)
    else None
  }

  /** The last step after step `a` that touched the flag of `p`. */
  function LastTouch(o: Oracle, run: seq<Label>, a: nat, p: nat): (k: Option<nat>)
    ensures k.Some? ==> a < k.value < |run|
    decreases |run|
  {
    if |run| <= a + 1 then None
    else
      var init := run[..|run| - 1];
      if FlagNow(Run(o, init), run[|run| - 1], p).Some? then Some(|run| - 1) else LastTouch(o, init, a, p)
  }

  /** On whose request the output of a process goes to the current connection. */
  datatype Asker = Client(conn: nat) | Inherited | Nobody

  /** Subscribed while out of the table, where no takeover finds it. */
  predicate Stowaway(s: Server, p: nat) {
    Flagged(s, p) && !InTable(s, p)
  }

  /**
   Told from the steps since the current connection was accepted in step `a`: the last one that touched the flag
   of `p` was a subscribe of some client; or there was none, and `p` was a stowaway then.
   */
  function AskerOf(o: Oracle, run: seq<Label>, a: nat, p: nat): Asker
    requires a < |run|
  {
    match LastTouch(o, run, a, p)
    case Some(k) =>
      if SubscribedNow(Run(o, run[..k]), run[k]) == Some(p) then Client(run[k].conn) else Nobody
    case None => if Stowaway(Run(o, run[..a]), p) then Inherited else Nobody
  }

  /** Connection `w` was accepted in step `a` and has been the current one after every step since. */
  ghost predicate Current(o: Oracle, run: seq<Label>, a: nat, w: nat)
    decreases |run|
  {
    && a < |run| && Run(o, run).writer == Some(w)
    && if |run| == a + 1 then run[a].Accept? && |Run(o, run[..a]).handlers| == w
       else Current(o, run[..|run| - 1], a, w)
  }

  lemma RunSplits(o: Oracle, run: seq<Label>, l: Label)
    ensures Run(o, run + [l]) == Step(Run(o, run), o, l)
  {
    assert (run + [l])[..|run|] == run;
  }

  lemma CurrentOn(o: Oracle, run: seq<Label>, l: Label, a: nat, w: nat)
    requires Current(o, run, a, w) && Run(o, run + [l]).writer == Some(w)
    ensures Current(o, run + [l], a, w)
  {
    assert (run + [l])[..|run|] == run;
  }

  lemma LastTouchOn(o: Oracle, run: seq<Label>, l: Label, a: nat, p: nat)
    requires a < |run|
    ensures LastTouch(o, run + [l], a, p) == if FlagNow(Run(o, run), l, p).Some? then Some(|run|) else LastTouch(o, run, a, p)
  {
    assert (run + [l])[..|run|] == run;
  }

  lemma TouchOn(o: Oracle, run: seq<Label>, l: Label, a: nat, p: nat)
    requires a < |run|
    ensures AskerOf(o, run + [l], a, p) ==
            if FlagNow(Run(o, run), l, p).None? then AskerOf(o, run, a, p)
            else if SubscribedNow(Run(o, run), l) == Some(p) then Client(l.conn) else Nobody
  {
    LastTouchOn(o, run, l, a, p);
    AskerSame(o, run, run + [l], a, p);
    assert (run + [l])[..|run|] == run;
  }

  /** The asker depends on the steps up to the last touch. */
  lemma AskerSame(o: Oracle, run: seq<Label>, run': seq<Label>, a: nat, p: nat)
    requires a < |run| && run <= run'
    ensures LastTouch(o, run', a, p) == LastTouch(o, run, a, p) ==> AskerOf(o, run', a, p) == AskerOf(o, run, a, p)
  {
    assert run'[..a] == run[..a];
    var k := LastTouch(o, run, a, p);
    if k.Some? {
      assert run'[..k.value] == run[..k.value];
    }
  }

  lemma TableHolds(s: Server, p: nat)
    requires Named(s)
    ensures p in s.procs.Values <==> InTable(s, p)
  {
    if p in s.procs.Values {
      var n :| n in s.procs && s.procs[n] == p;
    }
  }

  /** A flag changes as `FlagNow` says and otherwise stays. */
  lemma FlagStep(s: Server, o: Oracle, l: Label, p: nat)
    requires Named(s)
    ensures Flagged(Step(s, o, l), p) <==>
            match FlagNow(s, l, p) case Some(b) => b case None => Flagged(s, p)
  {
    FlagsExactly(s, o, l);
    TableHolds(s, p);
  }

  lemma AcceptedFlag(s: Server, o: Oracle, p: nat)
    requires Named(s)
    ensures Flagged(Step(s, o, Accept), p) <==> Stowaway(s, p)
  {
    TableHolds(s, p);
  }

  /** The current connection was accepted in a definite step and has been current since. */
  lemma {:induction false} CurrentExists(o: Oracle, run: seq<Label>, w: nat)
    requires Run(o, run).writer == Some(w)
    ensures exists a :: Current(o, run, a, w)
  {
    var init, l := run[..|run| - 1], run[|run| - 1];
    assert init + [l] == run;
    FlagsExactly(Run(o, init), o, l);
    if l.Accept? {
      assert Current(o, run, |init|, w);
    } else {
      CurrentExists(o, init, w);
      var a :| Current(o, init, a, w);
      CurrentOn(o, init, l, a, w);
    }
  }

  lemma {:induction false} CurrentBefore(o: Oracle, run: seq<Label>, a: nat, w: nat, i: nat)
    requires Current(o, run, a, w) && a < i <= |run|
    ensures Current(o, run[..i], a, w)
    decreases |run|
  {
    if i == |run| {
      assert run[..i] == run;
    } else {
      var init := run[..|run| - 1];
      CurrentBefore(o, init, a, w, i);
      assert init[..i] == run[..i];
    }
  }

  /** Subscribed exactly when somebody asked; and no client asks that came after the current one. */
  ghost predicate AskedFor(o: Oracle, run: seq<Label>, a: nat, w: nat, p: nat)
    requires a < |run|
  {
    && (Flagged(Run(o, run), p) <==> !AskerOf(o, run, a, p).Nobody?)
    && (AskerOf(o, run, a, p).Client? ==> AskerOf(o, run, a, p).conn <= w)
  }

  lemma {:induction false} RunAskedFor(o: Oracle, run: seq<Label>, a: nat, w: nat, p: nat)
    requires Current(o, run, a, w)
    ensures AskedFor(o, run, a, w, p)
    decreases |run|
  {
    RunLast(run);
    if |run| == a + 1 {
      SubscribedFirst(o, run[..a], w, p);
    } else {
      RunAskedFor(o, run[..|run| - 1], a, w, p);
      SubscribedOn(o, run[..|run| - 1], run[|run| - 1], a, w, p);
    }
  }

  lemma RunLast(run: seq<Label>)
    requires run != []
    ensures run == run[..|run| - 1] + [run[|run| - 1]]
  {
  }

  lemma CurrentWriter(o: Oracle, run: seq<Label>, a: nat, w: nat)
    requires Current(o, run, a, w)
    ensures Run(o, run).writer == Some(w)
  {
  }

  lemma SubscribedFirst(o: Oracle, run: seq<Label>, w: nat, p: nat)
    ensures AskedFor(o, run + [Accept], |run|, w, p)
  {
    RunSettled(o, run);
    RunSplits(o, run, Accept);
    AcceptedFlag(Run(o, run), o, p);
    assert (run + [Accept])[..|run|] == run;
  }

  lemma SubscribedOn(o: Oracle, run: seq<Label>, l: Label, a: nat, w: nat, p: nat)
    requires Current(o, run, a, w) && AskedFor(o, run, a, w, p)
    ensures AskedFor(o, run + [l], a, w, p)
  {
    CurrentWriter(o, run, a, w);
    RunSettled(o, run);
    RunSplits(o, run, l);
    FlagStep(Run(o, run), o, l, p);
    TouchOn(o, run, l, a, p);
  }

  /**
   In every run a process is subscribed, with a current connection, exactly when somebody asked: a client since
   that connection was accepted, with no later step that reset the flag, or somebody before, for a process that
   was out of the table at that moment.
   */
  lemma {:induction false} SubscribedExactly(o: Oracle, run: seq<Label>, a: nat, w: nat, p: nat)
    requires Current(o, run, a, w)
    ensures Flagged(Run(o, run), p) <==> !AskerOf(o, run, a, p).Nobody?
    ensures AskerOf(o, run, a, p).Client? ==> AskerOf(o, run, a, p).conn <= w
  {
    RunAskedFor(o, run, a, w, p);
  }

  // ---- what is written, and why ----

  /** What a step writes goes to the current connection: the buffer of the process it subscribes to, or an emission of a subscribed one. */
  ghost predicate Due(s: Server, o: Oracle, l: Label, e: Event)
    requires e.Wrote?
  {
    && s.writer == Some(e.writer)
    && if SubscribedNow(s, l).Some? then SubscribedNow(s, l) == Some(e.proc)
       else Flagged(s, e.proc) && EmittedNow(s, o, l, e.proc) == [e.msg]
  }

  ghost predicate OnlyDue(s: Server, o: Oracle, l: Label) {
    && s.trace <= Step(s, o, l).trace
    && forall i :: |s.trace| <= i < |Step(s, o, l).trace| && Step(s, o, l).trace[i].Wrote? ==> Due(s, o, l, Step(s, o, l).trace[i])
  }

  lemma SubscribeDue(s: Server, o: Oracle, l: Label)
    requires SubscribedNow(s, l).Some?
    ensures OnlyDue(s, o, l)
  {
    HandlesSubscribe(s, l.conn, l.line.msg.cmd, l.env);
  }

  lemma QuietDue(s: Server, o: Oracle, l: Label)
    requires Quiet(s, Step(s, o, l))
    ensures OnlyDue(s, o, l)
  {
  }

  lemma EmissionDue(s: Server, o: Oracle, l: Label, p: nat, msg: ServerMsg)
    requires p < |s.all| && Step(s, o, l).trace == RelayOrBuffer(s, p, msg).trace
    requires EmittedNow(s, o, l, p) == [msg] && SubscribedNow(s, l).None?
    ensures OnlyDue(s, o, l)
  {
  }

  /** A relay task's step emits one message of its process or none. */
  lemma TaskEmits(s: Server, o: Oracle, l: Label) returns (msg: Option<ServerMsg>)
    requires (l.ReadOut? || l.ReadErr? || l.ChildGone?) && Free(s, l.proc)
    ensures msg.None? ==> Step(s, o, l).trace == s.trace && EmittedNow(s, o, l, l.proc) == []
    ensures msg.Some? ==>
              && Step(s, o, l).trace == RelayOrBuffer(s, l.proc, msg.value).trace
              && EmittedNow(s, o, l, l.proc) == [msg.value]
  {
    msg := None;
    match l {
      case ReadOut(p, ev, _) =>
        if s.all[p].out.Listening? && ev.Text? {
          ReadOutEmits(s, o, l, p);
          if PyLine(o, ev.line) != [] {
            msg := Some(Message(s.all[p].name, PyLine(o, ev.line)[0]));
          }
        }
      case ReadErr(p, ev) =>
        if s.all[p].err.Listening? {
          ReadErrEmits(s, o, l, p);
          if StderrStep(o, ev) != [] {
            msg := Some(Stderr(s.all[p].name, o.trim(ev.line)));
          }
        }
      case ChildGone(p, code) =>
        if s.all[p].out.Reaping? {
          ChildGoneEmits(s, o, l, p);
          msg := Some(Exit(s.all[p].name, code));
        }
    }
  }

  lemma StepDue(s: Server, o: Oracle, l: Label)
    ensures OnlyDue(s, o, l)
  {
    match l {
      case Accept =>
      case Line(c, _, _) =>
        if SubscribedNow(s, l).Some? {
          SubscribeDue(s, o, l);
        } else if c < |s.handlers| && s.handlers[c].Reading? {
          LineQuiet(s, o, l);
          QuietDue(s, o, l);
        }
      case Resume(c, ok, env) =>
        if c < |s.handlers| && !(s.handlers[c].Spawning? && env.spawn.Started?) {
          ResumeQuiet(s, c, ok, env);
          QuietDue(s, o, l);
        }
      case ReadOut(p, _, _) => if Free(s, p) { TaskDue(s, o, l); }
      case ReadErr(p, _) => if Free(s, p) { TaskDue(s, o, l); }
      case ChildGone(p, _) => if Free(s, p) { TaskDue(s, o, l); }
      case _ => SimpleQuiet(s, o, l); QuietDue(s, o, l);
    }
  }

  lemma TaskDue(s: Server, o: Oracle, l: Label)
    requires (l.ReadOut? || l.ReadErr? || l.ChildGone?) && Free(s, l.proc)
    ensures OnlyDue(s, o, l)
  {
    var msg := TaskEmits(s, o, l);
    if msg.Some? {
      EmissionDue(s, o, l, l.proc, msg.value);
    }
  }

  /** Only a relay task's step emits, and it touches no flag and no writer. */
  lemma EmitsCalmly(s: Server, o: Oracle, l: Label, p: nat)
    requires EmittedNow(s, o, l, p) != []
    ensures (l.ReadOut? || l.ReadErr? || l.ChildGone?) && l.proc == p && Free(s, p)
    ensures FlagNow(s, l, p).None? && Step(s, o, l).writer == s.writer
  {
    FlagsExactly(s, o, l);
  }

  lemma DueFlag(s: Server, o: Oracle, l: Label, e: Event)
    requires Named(s) && e.Wrote? && Due(s, o, l, e)
    ensures Flagged(Step(s, o, l), e.proc) && Step(s, o, l).writer == Some(e.writer)
  {
    FlagStep(s, o, l, e.proc);
    FlagsExactly(s, o, l);
    if SubscribedNow(s, l).None? {
      EmitsCalmly(s, o, l, e.proc);
    }
  }

  /**
   Whatever is written to a connection, in any run, it is the current one, accepted in a definite step, and somebody asked for
   the output of that process: its own client or that of a connection it has replaced, by the last step that
   touched the process's flag; or, with no such step, whoever had subscribed to a process that was
   out of the table when the connection was accepted.
   */
  lemma {:induction false} WrittenOnRequest(o: Oracle, run: seq<Label>, l: Label, i: nat)
    requires |Run(o, run).trace| <= i < |Run(o, run + [l]).trace| && Run(o, run + [l]).trace[i].Wrote?
    ensures var e := Run(o, run + [l]).trace[i];
            exists a :: Current(o, run + [l], a, e.writer)
              && match AskerOf(o, run + [l], a, e.proc)
                 case Client(c) => c <= e.writer
                 case Inherited => true
                 case Nobody => false
  {
    var s, e := Run(o, run), Run(o, run + [l]).trace[i];
    RunSplits(o, run, l);
    RunSettled(o, run);
    StepDue(s, o, l);
    DueFlag(s, o, l, e);
    CurrentExists(o, run + [l], e.writer);
    var a :| Current(o, run + [l], a, e.writer);
    SubscribedExactly(o, run + [l], a, e.writer, e.proc);
  }

  /** And the other way round: what a process emits is written to the current connection at once if and only if somebody asked. */
  lemma {:induction false} EmittedOnRequest(o: Oracle, run: seq<Label>, l: Label, a: nat, w: nat, p: nat, msg: ServerMsg)
    requires Current(o, run, a, w) && EmittedNow(Run(o, run), o, l, p) == [msg]
    ensures Step(Run(o, run), o, l).trace ==
            Run(o, run).trace + if AskerOf(o, run, a, p).Nobody? then [Emitted(p, msg)] else [Emitted(p, msg), Wrote(p, w, msg)]
  {
    var s := Run(o, run);
    assert run[..|run|] == run;
    EmitsCalmly(s, o, l, p);
    var m := TaskEmits(s, o, l);
    SubscribedExactly(o, run, a, w, p);
  }

  // ---- when a client gets only what it asked for ----

  /** At position `i` no process is subscribed but on the request of the connection's own client. */
  ghost predicate OwnOnly(o: Oracle, run: seq<Label>, a: nat, w: nat, i: nat)
    requires a < i <= |run|
  {
    forall p: nat :: Flagged(Run(o, run[..i]), p) ==> AskerOf(o, run[..i], a, p) == Client(w)
  }

  /** The subscribe of another client than that of `w`. */
  ghost predicate Foreign(s: Server, l: Label, w: nat) {
    SubscribedNow(s, l).Some? && l.conn != w
  }

  /** What was subscribed when the connection was accepted was in the table, and only its own client subscribed since. */
  ghost predicate Undisturbed(o: Oracle, run: seq<Label>, a: nat, w: nat)
    requires a < |run|
  {
    && (forall p: nat :: !Stowaway(Run(o, run[..a]), p))
    && (forall k :: a < k < |run| ==> !Foreign(Run(o, run[..k]), run[k], w))
  }

  lemma StowawayShows(o: Oracle, run: seq<Label>, a: nat, w: nat, p: nat)
    requires Current(o, run, a, w) && Stowaway(Run(o, run[..a]), p)
    ensures !OwnOnly(o, run, a, w, a + 1)
  {
    assert run[..a + 1][..a] == run[..a];
    AskedShows(o, run, a, w, a + 1, p);
  }

  lemma ForeignShows(o: Oracle, run: seq<Label>, a: nat, w: nat, k: nat)
    requires Current(o, run, a, w) && a < k < |run| && Foreign(Run(o, run[..k]), run[k], w)
    ensures !OwnOnly(o, run, a, w, k + 1)
  {
    var p := SubscribedNow(Run(o, run[..k]), run[k]).value;
    AskedThen(o, run, a, k, p);
    AskedShows(o, run, a, w, k + 1, p);
  }

  /** A process somebody else asked for shows. */
  lemma AskedShows(o: Oracle, run: seq<Label>, a: nat, w: nat, i: nat, p: nat)
    requires Current(o, run, a, w) && a < i <= |run|
    requires !AskerOf(o, run[..i], a, p).Nobody? && AskerOf(o, run[..i], a, p) != Client(w)
    ensures !OwnOnly(o, run, a, w, i)
  {
    CurrentBefore(o, run, a, w, i);
    SubscribedExactly(o, run[..i], a, w, p);
  }

  lemma AskedThen(o: Oracle, run: seq<Label>, a: nat, k: nat, p: nat)
    requires a < k < |run| && SubscribedNow(Run(o, run[..k]), run[k]) == Some(p)
    ensures AskerOf(o, run[..k + 1], a, p) == Client(run[k].conn)
  {
    OneMore(run, k);
    AskedLast(o, run[..k], run[k], a, p);
  }

  lemma OneMore(run: seq<Label>, k: nat)
    requires k < |run|
    ensures run[..k + 1] == run[..k] + [run[k]]
  {
  }

  lemma AskedLast(o: Oracle, run: seq<Label>, l: Label, a: nat, p: nat)
    requires a < |run| && SubscribedNow(Run(o, run), l) == Some(p)
    ensures AskerOf(o, run + [l], a, p) == Client(l.conn)
  {
    TouchOn(o, run, l, a, p);
  }

  lemma UndisturbedOwn(o: Oracle, run: seq<Label>, a: nat, w: nat, i: nat)
    requires Current(o, run, a, w) && Undisturbed(o, run, a, w) && a < i <= |run|
    ensures OwnOnly(o, run, a, w, i)
  {
    CurrentBefore(o, run, a, w, i);
    forall p: nat | Flagged(Run(o, run[..i]), p) ensures AskerOf(o, run[..i], a, p) == Client(w) {
      SubscribedExactly(o, run[..i], a, w, p);
      OnlyOwnAsked(o, run, a, w, i, p);
    }
  }

  lemma OnlyOwnAsked(o: Oracle, run: seq<Label>, a: nat, w: nat, i: nat, p: nat)
    requires a < i <= |run| && Undisturbed(o, run, a, w)
    ensures AskerOf(o, run[..i], a, p) == Client(w) || AskerOf(o, run[..i], a, p).Nobody?
  {
    var before := run[..i];
    assert before[..a] == run[..a];
    var k := LastTouch(o, before, a, p);
    if k.Some? {
      assert before[..k.value] == run[..k.value] && before[k.value] == run[k.value];
      assert !Foreign(Run(o, run[..k.value]), run[k.value], w);
    }
  }

  /**
   From its accept on a connection is in line for output that its own client asked for and for no other, if and
   only if no process was subscribed out of the table when it was accepted and no other client's subscribe has been
   read since.
   */
  lemma OwnOutputExactly(o: Oracle, run: seq<Label>, a: nat, w: nat)
    requires Current(o, run, a, w)
    ensures (forall i :: a < i <= |run| ==> OwnOnly(o, run, a, w, i)) <==> Undisturbed(o, run, a, w)
  {
    if Undisturbed(o, run, a, w) {
      forall i | a < i <= |run| ensures OwnOnly(o, run, a, w, i) {
        UndisturbedOwn(o, run, a, w, i);
      }
    } else if p: nat :| Stowaway(Run(o, run[..a]), p) {
      StowawayShows(o, run, a, w, p);
    } else {
      var k :| a < k < |run| && Foreign(Run(o, run[..k]), run[k], w);
      ForeignShows(o, run, a, w, k);
    }
  }

  // ---- whom an answer reaches ----

  predicate IsAnswer(e: Event) {
    e.Answered? || e.Unanswered?
  }

  /** An answer goes to the writer there is, or nowhere. */
  predicate Addressed(writer: Option<nat>, e: Event) {
    && (e.Answered? ==> writer == Some(e.writer))
    && (e.Unanswered? ==> writer.None?)
  }

  ghost predicate AllAddressed(s: Server, s': Server) {
    s.trace <= s'.trace && forall i :: |s.trace| <= i < |s'.trace| ==> Addressed(s.writer, s'.trace[i])
  }

  lemma AnswerAddressed(s: Server, mid: Server, c: nat, r: ResultMsg)
    requires AllAddressed(s, mid) && mid.writer == s.writer && c < |mid.handlers|
    ensures AllAddressed(s, Answer(mid, c, r))
  {
  }

  lemma FlushAddressed(s: Server, p: nat)
    requires p < |s.all|
    ensures AllAddressed(s, Flush(s, p)) && Flush(s, p).writer == s.writer && Flush(s, p).handlers == s.handlers
  {
  }

  lemma KillAddressed(s: Server, c: nat, name: Name, env: Env)
    requires c < |s.handlers|
    ensures AllAddressed(s, CmdKill(s, c, name, env))
  {
  }

  lemma CommandAddressed(s: Server, c: nat, cmd: CmdMsg, env: Env)
    requires c < |s.handlers|
    ensures AllAddressed(s, HandleCommand(s, c, cmd, env))
  {
    match cmd.verb {
      case Subscribe =>
        if Find(s, cmd.name).Some? {
          var p := Find(s, cmd.name).value;
          HandlesSubscribe(s, c, cmd, env);
          FlushAddressed(s, p);
          AnswerAddressed(s, Flush(s, p), c, SubscribeResult(cmd.name, s.all[p], |s.all[p].buffer|));
        }
      case Kill => KillAddressed(s, c, cmd.name, env);
      case Spawn =>
      case Interrupt =>
      case Unsubscribe =>
      case _ =>
    }
  }

  lemma ResumeAddressed(s: Server, c: nat, ok: bool, env: Env)
    requires c < |s.handlers|
    ensures AllAddressed(s, ResumeHandler(s, c, ok, env))
  {
  }

  lemma TaskAddressed(s: Server, o: Oracle, l: Label)
    requires (l.ReadOut? || l.ReadErr? || l.ChildGone?) && Free(s, l.proc)
    ensures forall i :: |s.trace| <= i < |Step(s, o, l).trace| ==> !IsAnswer(Step(s, o, l).trace[i])
  {
    var msg := TaskEmits(s, o, l);
  }

  /** Only the step of a handler answers. */
  lemma OthersAnswerNothing(s: Server, o: Oracle, l: Label)
    requires !l.Line? && !l.Resume?
    ensures forall i :: |s.trace| <= i < |Step(s, o, l).trace| ==> !IsAnswer(Step(s, o, l).trace[i])
  {
    if l.ReadOut? || l.ReadErr? || l.ChildGone? {
      if Free(s, l.proc) {
        TaskAddressed(s, o, l);
      }
    } else {
      SilentAccounts(s, o, l, 0);
    }
  }

  lemma StepAddressed(s: Server, o: Oracle, l: Label, i: nat)
    requires |s.trace| <= i < |Step(s, o, l).trace| && IsAnswer(Step(s, o, l).trace[i])
    ensures (l.Line? || l.Resume?) && l.conn < |s.handlers| && Addressed(s.writer, Step(s, o, l).trace[i])
  {
    match l {
      case Line(c, line, env) =>
        if c < |s.handlers| && s.handlers[c].Reading? && line.Parsed? && line.msg.Cmd? {
          CommandAddressed(s, c, line.msg.cmd, env);
        }
      case Resume(c, ok, env) => if c < |s.handlers| { ResumeAddressed(s, c, ok, env); }
      case _ => OthersAnswerNothing(s, o, l);
    }
  }

  /**
   In every run the answer a handler gives reaches its own client if and only if there is a writer and no newer
   connection was accepted; it reaches the client of the newest connection instead if there is a writer and one was;
   and it goes nowhere exactly when there is no writer.
   */
  lemma {:induction false} AnswerReachesExactly(o: Oracle, run: seq<Label>, l: Label, i: nat)
    requires |Run(o, run).trace| <= i < |Run(o, run + [l]).trace| && IsAnswer(Run(o, run + [l]).trace[i])
    ensures var s, e := Run(o, run), Run(o, run + [l]).trace[i];
            && (l.Line? || l.Resume?) && l.conn < |s.handlers|
            && (e.Answered? && e.writer == l.conn <==> s.writer.Some? && l.conn + 1 == |s.handlers|)
            && (e.Answered? && e.writer != l.conn <==> s.writer.Some? && l.conn + 1 < |s.handlers|)
            && (e.Answered? ==> e.writer + 1 == |s.handlers|)
            && (e.Unanswered? <==> s.writer.None?)
  {
    RunSplits(o, run, l);
    RunSettled(o, run);
    StepAddressed(Run(o, run), o, l, i);
  }
}
