/** What the Python server guarantees, over every run. */
module PyTheorems {
  import opened Protocol
  import opened Sequences
  import opened StreamRelay
  import opened PyServer
  import opened PyRuns
  import L = RelayLog

  // ---- what is emitted, and what goes missing ----

  /** The messages process `p` emits in a step, told from what its tasks read. */
  function EmittedNow(s: Server, o: Oracle, l: Label, p: nat): seq<ServerMsg>
  {
    if !Free(s, p) then []
    else
      match l
      case ReadOut(q, ev, _) =>
        if q == p && ev.Text? && s.all[p].out.Listening? then Messages(s.all[p].name, PyLine(o, ev.line)) else []
      case ReadErr(q, ev) =>
        if q == p && s.all[p].err.Listening? then Messages(s.all[p].name, StderrStep(o, ev)) else []
      case ChildGone(q, code) => if q == p && s.all[p].out.Reaping? then [Exit(s.all[p].name, code)] else []
      case _ => []
  }

  function Messages(name: Name, bodies: seq<Body>): seq<ServerMsg> {
    seq(|bodies|, i requires 0 <= i < |bodies| => Message(name, bodies[i]))
  }

  /** The process that a step subscribes to. */
  function SubscribedNow(s: Server, l: Label): Option<nat> {
    if && l.Line? && l.conn < |s.handlers| && s.handlers[l.conn].Reading?
       && l.line.Parsed? && l.line.msg.Cmd? && l.line.msg.cmd.verb.Subscribe?
    then Find(s, l.line.msg.cmd.name) else None
  }

  /** What goes missing in a step: emitted while subscribed, or drained by a subscribe, with no writer. */
  function MissingNow(s: Server, o: Oracle, l: Label, p: nat): seq<ServerMsg>
  {
    if p >= |s.all| || s.writer.Some? then []
    else if SubscribedNow(s, l) == Some(p) then s.all[p].buffer
    else if s.all[p].subscribed then EmittedNow(s, o, l, p)
    else []
  }

  function EmittedIn(o: Oracle, run: seq<Label>, p: nat): seq<ServerMsg>
  {
    if run == [] then []
    else
      var init := run[..|run| - 1];
      EmittedIn(o, init, p) + EmittedNow(Run(o, init), o, run[|run| - 1], p)
  }

  function MissingIn(o: Oracle, run: seq<Label>, p: nat): seq<ServerMsg>
  {
    if run == [] then []
    else
      var init := run[..|run| - 1];
      MissingIn(o, init, p) + MissingNow(Run(o, init), o, run[|run| - 1], p)
  }

  /** The record of `p` grows by these messages emitted and these lost. */
  ghost predicate Accounts(p: nat, tr: seq<Event>, tr': seq<Event>, emitted: seq<ServerMsg>, missing: seq<ServerMsg>) {
    && L.Appended(Marks(p, tr')) == L.Appended(Marks(p, tr)) + emitted
    && L.Losses(Marks(p, tr')) == L.Losses(Marks(p, tr)) + missing
  }

  lemma QuietAccounts(s: Server, s': Server, p: nat)
    requires Quiet(s, s')
    ensures Accounts(p, s.trace, s'.trace, [], [])
  {
    assert s'.trace == s.trace + s'.trace[|s.trace|..];
    MarksSkip(p, s.trace, s'.trace[|s.trace|..]);
  }

  lemma EventAccounts(p: nat, tr: seq<Event>, e: Event)
    ensures Accounts(p, tr, tr + [e],
                     if e.Emitted? && e.proc == p then [e.msg] else [],
                     if e.Dropped? && e.proc == p then [e.msg] else [])
  {
    MarksLast(p, tr, e);
    L.CountsAppend(Marks(p, tr), MarkOf(p, e));
    if MarkOf(p, e) != [] {
      var k := MarkOf(p, e)[0];
      assert [k][..0] == [];
      assert L.Appended([k]) == if k.Append? then [k.msg] else [];
      assert L.Losses([k]) == if k.Lose? then [k.msg] else [];
    }
  }

  lemma RelayAccounts(s: Server, p: nat, msg: ServerMsg, q: nat)
    requires p < |s.all|
    ensures Accounts(q, s.trace, RelayOrBuffer(s, p, msg).trace,
                     if q == p then [msg] else [],
                     if q == p && s.all[p].subscribed && s.writer.None? then [msg] else [])
  {
    EventAccounts(q, s.trace, Emitted(p, msg));
    if s.all[p].subscribed {
      var e := if s.writer.Some? then Wrote(p, s.writer.value, msg) else Dropped(p, msg);
      EventAccounts(q, s.trace + [Emitted(p, msg)], e);
      assert s.trace + [Emitted(p, msg), e] == s.trace + [Emitted(p, msg)] + [e];
    }
  }

  /** A block of messages that leave, dropped or written. */
  lemma {:induction false} BlockAccounts(p: nat, f: L.Fate, msgs: seq<ServerMsg>, tr: seq<Event>, evs: seq<Event>, q: nat)
    requires |evs| == |msgs| && forall i :: 0 <= i < |evs| ==> evs[i] == Leaving(p, f, msgs[i])
    ensures Accounts(q, tr, tr + evs, [], if q == p && f.Lost? then msgs else [])
  {
    if msgs == [] {
      assert tr + evs == tr;
    } else {
      var k := |msgs| - 1;
      BlockAccounts(p, f, msgs[..k], tr, evs[..k], q);
      EventAccounts(q, tr + evs[..k], evs[k]);
      LastApart(tr, evs);
      if q == p && f.Lost? {
        LastApart(L.Losses(Marks(q, tr)), msgs);
      }
    }
  }

  lemma SubscribeAccounts(s: Server, c: nat, cmd: CmdMsg, env: Env, q: nat)
    requires c < |s.handlers| && cmd.verb.Subscribe? && Find(s, cmd.name).Some?
    ensures var p := Find(s, cmd.name).value;
            Accounts(q, s.trace, HandleCommand(s, c, cmd, env).trace, [],
                     if q == p && s.writer.None? then s.all[p].buffer else [])
  {
    var p := Find(s, cmd.name).value;
    var msgs, flushed := s.all[p].buffer, Flush(s, p);
    HandlesSubscribe(s, c, cmd, env);
    match s.writer {
      case Some(w) => BlockAccounts(p, L.Delivered(w), msgs, s.trace, Wrotes(p, w, msgs), q);
      case None =>
        BlockAccounts(p, L.Lost, msgs, s.trace, Drops(p, msgs), q);
        EventAccounts(q, flushed.trace, Unanswered(SubscribeResult(cmd.name, s.all[p], |msgs|)));
    }
  }

  lemma LineAccounts(s: Server, o: Oracle, l: Label, q: nat)
    requires l.Line? && l.conn < |s.handlers| && s.handlers[l.conn].Reading?
    ensures Accounts(q, s.trace, Step(s, o, l).trace, EmittedNow(s, o, l, q), MissingNow(s, o, l, q))
  {
    if SubscribedNow(s, l).Some? {
      SubscribeAccounts(s, l.conn, l.line.msg.cmd, l.env, q);
    } else {
      LineQuiet(s, o, l);
      QuietAccounts(s, Step(s, o, l), q);
    }
  }

  lemma LineQuiet(s: Server, o: Oracle, l: Label)
    requires l.Line? && l.conn < |s.handlers| && s.handlers[l.conn].Reading? && SubscribedNow(s, l).None?
    ensures Quiet(s, Step(s, o, l))
  {
    match l.line {
      case Parsed(Cmd(cmd)) => CommandQuiet(s, l.conn, cmd, l.env);
      case Parsed(Stdin(name, data)) => StdinQuiet(s, l.conn, name, data);
      case Garbage(_) =>
    }
  }

  /** A step that is not enabled. */
  lemma IdleAccounts(s: Server, o: Oracle, l: Label, q: nat)
    requires Step(s, o, l) == s && EmittedNow(s, o, l, q) == [] && SubscribedNow(s, l).None?
    ensures Accounts(q, s.trace, Step(s, o, l).trace, EmittedNow(s, o, l, q), MissingNow(s, o, l, q))
  {
  }

  /** A step that only emits `msg` from `p`. */
  lemma EmissionAccounts(s: Server, s': Server, o: Oracle, l: Label, p: nat, msg: ServerMsg, q: nat)
    requires p < |s.all| && s'.trace == RelayOrBuffer(s, p, msg).trace
    requires EmittedNow(s, o, l, q) == if q == p then [msg] else []
    requires SubscribedNow(s, l).None?
    ensures Accounts(q, s.trace, s'.trace, EmittedNow(s, o, l, q), MissingNow(s, o, l, q))
  {
    RelayAccounts(s, p, msg, q);
  }

  lemma ReadOutEmits(s: Server, o: Oracle, l: Label, q: nat)
    requires l.ReadOut? && Free(s, l.proc) && s.all[l.proc].out.Listening? && l.ev.Text?
    ensures var bodies := PyLine(o, l.ev.line);
            && |bodies| <= 1
            && (bodies == [] ==> Step(s, o, l) == s && EmittedNow(s, o, l, q) == [])
            && (bodies != [] ==>
                  var msg := Message(s.all[l.proc].name, bodies[0]);
                  && Step(s, o, l).trace == RelayOrBuffer(s, l.proc, msg).trace
                  && EmittedNow(s, o, l, q) == if q == l.proc then [msg] else [])
  {
  }

  lemma ReadOutAccounts(s: Server, o: Oracle, l: Label, q: nat)
    requires l.ReadOut? && Free(s, l.proc) && s.all[l.proc].out.Listening?
    ensures Accounts(q, s.trace, Step(s, o, l).trace, EmittedNow(s, o, l, q), MissingNow(s, o, l, q))
  {
    if l.ev.Text? {
      ReadOutEmits(s, o, l, q);
      if PyLine(o, l.ev.line) != [] {
        var msg := Message(s.all[l.proc].name, PyLine(o, l.ev.line)[0]);
        EmissionAccounts(s, Step(s, o, l), o, l, l.proc, msg, q);
      } else {
        IdleAccounts(s, o, l, q);
      }
    } else {
      assert Step(s, o, l).trace == s.trace && EmittedNow(s, o, l, q) == [];
    }
  }

  lemma ReadErrEmits(s: Server, o: Oracle, l: Label, q: nat)
    requires l.ReadErr? && Free(s, l.proc) && s.all[l.proc].err.Listening?
    ensures StderrStep(o, l.ev) == [] ==> Step(s, o, l).trace == s.trace && EmittedNow(s, o, l, q) == []
    ensures StderrStep(o, l.ev) != [] ==>
              var msg := Stderr(s.all[l.proc].name, o.trim(l.ev.line));
              && Step(s, o, l).trace == RelayOrBuffer(s, l.proc, msg).trace
              && EmittedNow(s, o, l, q) == if q == l.proc then [msg] else []
  {
  }

  lemma ReadErrAccounts(s: Server, o: Oracle, l: Label, q: nat)
    requires l.ReadErr? && Free(s, l.proc) && s.all[l.proc].err.Listening?
    ensures Accounts(q, s.trace, Step(s, o, l).trace, EmittedNow(s, o, l, q), MissingNow(s, o, l, q))
  {
    ReadErrEmits(s, o, l, q);
    if StderrStep(o, l.ev) != [] {
      EmissionAccounts(s, Step(s, o, l), o, l, l.proc, Stderr(s.all[l.proc].name, o.trim(l.ev.line)), q);
    }
  }

  lemma ChildGoneEmits(s: Server, o: Oracle, l: Label, q: nat)
    requires l.ChildGone? && Free(s, l.proc) && s.all[l.proc].out.Reaping?
    ensures var msg := Exit(s.all[l.proc].name, l.code);
            && Step(s, o, l).trace == RelayOrBuffer(s, l.proc, msg).trace
            && EmittedNow(s, o, l, q) == if q == l.proc then [msg] else []
  {
  }

  lemma ChildGoneAccounts(s: Server, o: Oracle, l: Label, q: nat)
    requires l.ChildGone? && Free(s, l.proc) && s.all[l.proc].out.Reaping?
    ensures Accounts(q, s.trace, Step(s, o, l).trace, EmittedNow(s, o, l, q), MissingNow(s, o, l, q))
  {
    ChildGoneEmits(s, o, l, q);
    EmissionAccounts(s, Step(s, o, l), o, l, l.proc, Exit(s.all[l.proc].name, l.code), q);
  }

  lemma ResumeAccounts(s: Server, o: Oracle, l: Label, q: nat)
    requires l.Resume? && l.conn < |s.handlers|
    ensures Accounts(q, s.trace, Step(s, o, l).trace, [], [])
  {
    var h := s.handlers[l.conn];
    if h.Spawning? && l.env.spawn.Started? {
      var e := Step(s, o, l).trace[|s.trace|];
      EventAccounts(q, s.trace, e);
      assert Step(s, o, l).trace == s.trace + [e];
    } else {
      ResumeQuiet(s, l.conn, l.ok, l.env);
      QuietAccounts(s, Step(s, o, l), q);
    }
  }

  /** Each step emits and loses exactly what it should. */
  lemma StepAccounts(s: Server, o: Oracle, l: Label, q: nat)
    ensures Accounts(q, s.trace, Step(s, o, l).trace, EmittedNow(s, o, l, q), MissingNow(s, o, l, q))
  {
    match l {
      case Line(c, _, _) => if c < |s.handlers| && s.handlers[c].Reading? { LineAccounts(s, o, l, q); } else { IdleAccounts(s, o, l, q); }
      case Resume(c, _, _) => if c < |s.handlers| { ResumeAccounts(s, o, l, q); } else { IdleAccounts(s, o, l, q); }
      case ReadOut(p, _, _) => if Free(s, p) && s.all[p].out.Listening? { ReadOutAccounts(s, o, l, q); } else { IdleAccounts(s, o, l, q); }
      case ReadErr(p, _) => if Free(s, p) && s.all[p].err.Listening? { ReadErrAccounts(s, o, l, q); } else { IdleAccounts(s, o, l, q); }
      case ChildGone(p, _) => if Free(s, p) && s.all[p].out.Reaping? { ChildGoneAccounts(s, o, l, q); } else { IdleAccounts(s, o, l, q); }
      case _ => SilentAccounts(s, o, l, q);
    }
  }

  lemma SilentAccounts(s: Server, o: Oracle, l: Label, q: nat)
    requires !l.Line? && !l.Resume? && !l.ReadOut? && !l.ReadErr? && !l.ChildGone?
    ensures Step(s, o, l).trace == s.trace
    ensures Accounts(q, s.trace, Step(s, o, l).trace, EmittedNow(s, o, l, q), MissingNow(s, o, l, q))
  {
  }

  lemma {:induction false} RunAccounts(o: Oracle, run: seq<Label>, p: nat)
    ensures L.Appended(Marks(p, Run(o, run).trace)) == EmittedIn(o, run, p)
    ensures L.Losses(Marks(p, Run(o, run).trace)) == MissingIn(o, run, p)
  {
    if run != [] {
      RunAccounts(o, run[..|run| - 1], p);
      StepAccounts(Run(o, run[..|run| - 1]), o, run[|run| - 1], p);
    }
  }

  /** Messages of process `p` handed to writers, over all connections. */
  function WrittenBy(p: nat, tr: seq<Event>): seq<ServerMsg> {
    L.Deliveries(Marks(p, tr))
  }

  /**
   For every process ever created and every schedule: a subscribed process has an empty buffer; its
   log is what it emitted, in order; each message of the log was written, went missing, or is
   buffered, the buffer being the log from the cursor on; and the missing ones are exactly those
   emitted while subscribed with no writer or drained by a subscribe with no writer.
   */
  lemma {:induction false} NothingElseMissing(o: Oracle, run: seq<Label>, p: nat)
    requires p < |Run(o, run).all|
    ensures var s := Run(o, run);
            && (s.all[p].subscribed ==> s.all[p].buffer == [])
            && L.Play(Marks(p, s.trace)).Some?
            && var l := L.Play(Marks(p, s.trace)).value;
               && l.items == EmittedIn(o, run, p)
               && L.Kept(l, L.ANY) == WrittenBy(p, s.trace)
               && L.Kept(l, L.GONE) == MissingIn(o, run, p)
               && s.all[p].buffer == l.items[|l.fates|..]
  {
    RunSettled(o, run);
    RunAccounts(o, run, p);
    var s := Run(o, run);
    assert Tracked(p, s.all[p], s.trace, s.writer, |s.handlers|);
    L.MarksAccount(Marks(p, s.trace), 0);
  }

  /** A process that never lost anything has no gap, duplicate or reordering. */
  lemma {:induction false} NoneMissingNoGap(o: Oracle, run: seq<Label>, p: nat)
    requires p < |Run(o, run).all| && MissingIn(o, run, p) == []
    ensures WrittenBy(p, Run(o, run).trace) + Run(o, run).all[p].buffer == EmittedIn(o, run, p)
  {
    RunSettled(o, run);
    RunAccounts(o, run, p);
    var s := Run(o, run);
    assert Tracked(p, s.all[p], s.trace, s.writer, |s.handlers|);
    L.GapFree(Marks(p, s.trace));
  }

  /** What one connection was handed of a process is one stretch of its log, whatever was lost around it. */
  lemma {:induction false} ConnectionGapFree(o: Oracle, run: seq<Label>, p: nat, i: nat, j: nat, k: nat)
    requires p < |Run(o, run).all| && L.Play(Marks(p, Run(o, run).trace)).Some?
    requires var fates := L.Play(Marks(p, Run(o, run).trace)).value.fates;
             i <= j <= k < |fates| && fates[i].Delivered? && fates[k] == fates[i]
    ensures var fates := L.Play(Marks(p, Run(o, run).trace)).value.fates;
            fates[j] == fates[i]
  {
    RunSettled(o, run);
    var s := Run(o, run);
    assert Tracked(p, s.all[p], s.trace, s.writer, |s.handlers|);
    OneStretch(LogOf(p, s.trace).fates, s.writer, |s.handlers|, i, j, k);
  }

  lemma OneStretch(fates: seq<L.Fate>, writer: Option<nat>, conns: nat, i: nat, j: nat, k: nat)
    requires Orderly(fates, writer, conns)
    requires i <= j <= k < |fates| && fates[i].Delivered? && fates[k] == fates[i]
    ensures fates[j] == fates[i]
  {
    if i < j < k {
      match fates[j] {
        case Lost => assert false;
        case Delivered(w) => assert fates[i].conn <= w <= fates[k].conn;
      }
    }
  }

  // ---- takeover ----

  /** The connection whose end a step reports: its handler leaves, or a drain of its writer fails. */
  function Ending(s: Server, l: Label): Option<nat>
  {
    match l
    case Depart(c) =>
      if c < |s.handlers| && !s.handlers[c].Greeting? && !s.handlers[c].Left? then Some(c) else None
    case Resume(c, false, _) =>
      if c >= |s.handlers| then None
      else (
        match s.handlers[c]
        case Answering(w) => Some(w)
        case Replaying(_, w, _, _) => Some(w)
        case _ => None
      )
    case DrainEnds(p, out, false) =>
      if !Free(s, p) then None
      else (
        match if out then s.all[p].out else s.all[p].err
        case Draining(w) => Some(w)
        case Parting(w) => Some(w)
        case _ => None
      )
    case _ => None
  }

  /** In every run the client writer is none, or that of the newest connection. */
  lemma {:induction false} NewestWriter(o: Oracle, run: seq<Label>)
    ensures var s := Run(o, run);
            s.writer.Some? ==> s.writer.value + 1 == |s.handlers|
  {
    RunSettled(o, run);
  }

  /** The process that a step unsubscribes on request. */
  function UnsubscribedNow(s: Server, l: Label): Option<nat> {
    if && l.Line? && l.conn < |s.handlers| && s.handlers[l.conn].Reading?
       && l.line.Parsed? && l.line.msg.Cmd? && l.line.msg.cmd.verb.Unsubscribe?
    then Find(s, l.line.msg.cmd.name) else None
  }

  /** A step unsubscribes the whole table when a connection takes over or the current one ends. */
  predicate ClearsTable(s: Server, l: Label) {
    l.Accept? || (Ending(s, l).Some? && Ending(s, l) == s.writer)
  }

  ghost predicate FlagsFollow(s: Server, s': Server, l: Label) {
    && |s.all| <= |s'.all|
    && (forall p :: 0 <= p < |s.all| ==>
          (s'.all[p].subscribed <==>
             if SubscribedNow(s, l) == Some(p) then true
             else if UnsubscribedNow(s, l) == Some(p) then false
             else if ClearsTable(s, l) && p in s.procs.Values then false
             else s.all[p].subscribed))
    && (forall p :: |s.all| <= p < |s'.all| ==> !s'.all[p].subscribed)
  }

  ghost predicate WriterFollows(s: Server, s': Server, l: Label) {
    s'.writer ==
    if l.Accept? then Some(|s.handlers|)
    else if Ending(s, l).Some? && Ending(s, l) == s.writer then None
    else if l.EndShutdown? && s'.shutdown != s.shutdown then None
    else s.writer
  }

  /** The flags and the writer are as before. */
  ghost predicate SameFlags(s: Server, s': Server) {
    && s'.writer == s.writer && |s'.all| == |s.all|
    && forall p :: 0 <= p < |s.all| ==> s'.all[p].subscribed == s.all[p].subscribed
  }

  lemma SameFollows(s: Server, s': Server, l: Label)
    requires SameFlags(s, s') && SubscribedNow(s, l).None? && UnsubscribedNow(s, l).None?
    requires !ClearsTable(s, l) && (l.EndShutdown? ==> s' == s)
    ensures FlagsFollow(s, s', l) && WriterFollows(s, s', l)
  {
  }

  lemma RetireFollows(s: Server, s': Server, l: Label, w: nat)
    requires Ending(s, l) == Some(w) && SameFlags(Retire(s, w), s')
    ensures FlagsFollow(s, s', l) && WriterFollows(s, s', l)
  {
  }

  /** The line read is a command. */
  predicate CommandRead(s: Server, l: Label, verb: Verb) {
    && l.Line? && l.conn < |s.handlers| && s.handlers[l.conn].Reading?
    && l.line.Parsed? && l.line.msg.Cmd? && l.line.msg.cmd.verb == verb
  }

  lemma SubscribeFollows(s: Server, o: Oracle, l: Label)
    requires CommandRead(s, l, Subscribe)
    ensures FlagsFollow(s, Step(s, o, l), l) && WriterFollows(s, Step(s, o, l), l)
  {
    if Find(s, l.line.msg.cmd.name).Some? {
      HandlesSubscribe(s, l.conn, l.line.msg.cmd, l.env);
    }
  }

  lemma UnsubscribeFollows(s: Server, o: Oracle, l: Label)
    requires CommandRead(s, l, Unsubscribe)
    ensures FlagsFollow(s, Step(s, o, l), l) && WriterFollows(s, Step(s, o, l), l)
  {
  }

  lemma SpawnSame(s: Server, c: nat, name: Name)
    requires c < |s.handlers|
    ensures SameFlags(s, CmdSpawn(s, c, name))
  {
  }

  lemma LineFollows(s: Server, o: Oracle, l: Label)
    requires l.Line? && l.conn < |s.handlers| && s.handlers[l.conn].Reading?
    ensures FlagsFollow(s, Step(s, o, l), l) && WriterFollows(s, Step(s, o, l), l)
  {
    var s' := Step(s, o, l);
    if l.line.Parsed? && l.line.msg.Cmd? {
      var cmd := l.line.msg.cmd;
      match cmd.verb {
        case Subscribe => SubscribeFollows(s, o, l);
        case Unsubscribe => UnsubscribeFollows(s, o, l);
        case Kill => KillSame(s, l.conn, cmd.name, l.env); SameFollows(s, s', l);
        case Spawn => SpawnSame(s, l.conn, cmd.name); SameFollows(s, s', l);
        case _ => SameFollows(s, s', l);
      }
    } else {
      SameFollows(s, s', l);
    }
  }

  lemma KillSame(s: Server, c: nat, name: Name, env: Env)
    requires c < |s.handlers|
    ensures SameFlags(s, CmdKill(s, c, name, env))
  {
  }

  lemma ResumeFollows(s: Server, o: Oracle, l: Label)
    requires l.Resume? && l.conn < |s.handlers|
    ensures FlagsFollow(s, Step(s, o, l), l) && WriterFollows(s, Step(s, o, l), l)
  {
    var s', c := Step(s, o, l), l.conn;
    match s.handlers[c] {
      case Answering(w) =>
        if l.ok { ResumeSame(s, c, true, l.env); SameFollows(s, s', l); } else { RetireFollows(s, s', l, w); }
      case Replaying(_, w, _, _) =>
        if l.ok { ResumeSame(s, c, true, l.env); SameFollows(s, s', l); } else { RetireFollows(s, s', l, w); }
      case Spawning(name) => SpawnFollows(s, o, l);
      case _ => ResumeSame(s, c, l.ok, l.env); SameFollows(s, s', l);
    }
  }

  lemma ResumeSame(s: Server, c: nat, ok: bool, env: Env)
    requires c < |s.handlers| && !s.handlers[c].Spawning?
    requires s.handlers[c].Answering? || s.handlers[c].Replaying? ==> ok
    ensures SameFlags(s, ResumeHandler(s, c, ok, env))
  {
  }

  lemma SpawnFollows(s: Server, o: Oracle, l: Label)
    requires l.Resume? && l.conn < |s.handlers| && s.handlers[l.conn].Spawning?
    ensures FlagsFollow(s, Step(s, o, l), l) && WriterFollows(s, Step(s, o, l), l)
  {
  }

  lemma DrainFollows(s: Server, o: Oracle, l: Label)
    requires l.DrainEnds? && Free(s, l.proc)
    ensures FlagsFollow(s, Step(s, o, l), l) && WriterFollows(s, Step(s, o, l), l)
  {
    var s' := Step(s, o, l);
    match Ending(s, l) {
      case Some(w) => DrainRetires(s, l.proc, l.out, w); RetireFollows(s, s', l, w);
      case None => DrainSame(s, l.proc, l.out, l.ok); SameFollows(s, s', l);
    }
  }

  lemma DrainRetires(s: Server, p: nat, out: bool, w: nat)
    requires p < |s.all|
    requires var task := if out then s.all[p].out else s.all[p].err;
             task == Draining(w) || task == Parting(w)
    ensures SameFlags(Retire(s, w), Drained(s, p, out, false))
  {
  }

  lemma DrainSame(s: Server, p: nat, out: bool, ok: bool)
    requires p < |s.all|
    requires var task := if out then s.all[p].out else s.all[p].err;
             ok || !(task.Draining? || task.Parting?)
    ensures SameFlags(s, Drained(s, p, out, ok))
  {
  }

  lemma TasksSame(s: Server, o: Oracle, l: Label)
    requires l.ReadOut? || l.ReadErr? || l.ChildGone? || l.Cancel?
    ensures SameFlags(s, Step(s, o, l))
  {
    match l {
      case ReadOut(p, ev, now) => if Free(s, p) { StdoutSame(s, o, p, ev, now); }
      case _ =>
    }
  }

  lemma StdoutSame(s: Server, o: Oracle, p: nat, ev: ReadEvent, now: nat)
    requires p < |s.all|
    ensures SameFlags(s, TakeStdout(s, o, p, ev, now))
  {
  }

  lemma ControlFollows(s: Server, o: Oracle, l: Label)
    requires l.Greeted? || l.Vanish? || l.BeginShutdown? || l.ShutdownNext? || l.ShutdownGone? || l.EndShutdown?
    ensures FlagsFollow(s, Step(s, o, l), l) && WriterFollows(s, Step(s, o, l), l)
  {
  }

  /**
   In every step, exactly one thing sets a subscribed flag (a subscribe), and exactly three reset
   one: an unsubscribe, a connection that takes over, and the end of the connection that is
   current. The writer changes only in the last two and when the shutdown is over.
   */
  lemma {:induction false} FlagsExactly(s: Server, o: Oracle, l: Label)
    ensures FlagsFollow(s, Step(s, o, l), l) && WriterFollows(s, Step(s, o, l), l)
  {
    match l {
      case Accept =>
      case Line(c, _, _) => if c < |s.handlers| && s.handlers[c].Reading? { LineFollows(s, o, l); }
      case Resume(c, _, _) => if c < |s.handlers| { ResumeFollows(s, o, l); }
      case Depart(c) => if Ending(s, l).Some? { RetireFollows(s, Step(s, o, l), l, c); }
      case DrainEnds(p, _, _) => if Free(s, p) { DrainFollows(s, o, l); }
      case ReadOut(_, _, _) => TasksSame(s, o, l); SameFollows(s, Step(s, o, l), l);
      case ReadErr(_, _) => TasksSame(s, o, l); SameFollows(s, Step(s, o, l), l);
      case ChildGone(_, _) => TasksSame(s, o, l); SameFollows(s, Step(s, o, l), l);
      case Cancel(_, _) => TasksSame(s, o, l); SameFollows(s, Step(s, o, l), l);
      case _ => ControlFollows(s, o, l);
    }
  }

  /**
   The end of a superseded connection, its handler leaving or a drain of its writer failing,
   changes neither the writer nor any subscribed flag.
   */
  lemma {:induction false} SupersededIsHarmless(o: Oracle, run: seq<Label>, l: Label)
    requires Ending(Run(o, run), l).Some? && Ending(Run(o, run), l).value + 1 < |Run(o, run).handlers|
    ensures var s, s' := Run(o, run), Step(Run(o, run), o, l);
            && s'.writer == s.writer && |s'.all| == |s.all|
            && forall p :: 0 <= p < |s.all| ==> s'.all[p].subscribed == s.all[p].subscribed
  {
    RunSettled(o, run);
    FlagsExactly(Run(o, run), o, l);
    EndingAddsNothing(Run(o, run), o, l);
  }

  lemma EndingAddsNothing(s: Server, o: Oracle, l: Label)
    requires Ending(s, l).Some?
    ensures |Step(s, o, l).all| == |s.all|
  {
  }
}
