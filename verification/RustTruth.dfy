/** Exit codes on the wire: whatever a client is told is the code with which the child was reaped. */
module RustTruth {
  import opened Protocol
  import opened Sequences
  import opened StreamRelay
  import opened RustServer
  import opened RustRecord
  import opened RustMoves
  import opened RustWorld
  import opened RustRuns
  import opened RustDepartures
  import opened RustTheorems
  import opened RustAnswers
  import L = RelayLog

  // ---- a child is reaped once ----

  ghost predicate ReapsStay(tr: seq<Event>, tr': seq<Event>) {
    forall x: nat, code :: Reaps(x, tr) == [code] ==> Reaps(x, tr') == [code]
  }

  lemma {:induction false} ChainReapsOnce(s: Server, tr: seq<Event>, moves: seq<Move>)
    requires Good(s, tr) && Legal(s, moves)
    ensures ReapsStay(tr, tr + Chain(s, moves).events)
  {
    if moves == [] {
      assert tr + [] == tr;
    } else {
      var init, m := moves[..|moves| - 1], moves[|moves| - 1];
      var before := Chain(s, init);
      ChainReapsOnce(s, tr, init);
      ChainKeeps(s, tr, init);
      ChainEnd(s, tr, moves);
      forall x: nat, code | Reaps(x, tr) == [code] ensures Reaps(x, tr + Chain(s, moves).events) == [code] {
        OldTruth(before.server, tr + before.events, m, x, code);
      }
    }
  }

  lemma StepReapsOnce(w: World, l: Label)
    requires Settled(w)
    ensures ReapsStay(w.trace, Step(w, l).trace)
  {
    var moves := StepMoves(w, l);
    ChainReapsOnce(w.server, w.trace, moves);
  }

  // ---- what an answer may say ----

  /** A code told for a name is the one code with which the child of the entry holding that name was reaped. */
  ghost predicate TrueOf(held: map<Name, nat>, n: Name, code: Option<int>, tr: seq<Event>) {
    code.Some? ==> n in held && Reaps(held[n], tr) == [code]
  }

  /** A result is true of the entries that hold the names: its own code, and the code in every row of a listing. */
  ghost predicate TrueResult(held: map<Name, nat>, r: ResultMsg, tr: seq<Event>) {
    && TrueOf(held, r.name, r.exitCode, tr)
    && (r.processes.Some? ==>
          && r.processes.value.Keys == held.Keys
          && forall n :: n in r.processes.value ==> TrueOf(held, n, r.processes.value[n].exitCode, tr))
  }

  ghost predicate AnswerTrue(i: nat, tr: seq<Event>)
    requires i < |tr|
  {
    tr[i].Answered? ==> TrueResult(Held(tr[..i]), tr[i].result, tr)
  }

  ghost predicate AnswersTrue(tr: seq<Event>) {
    forall i :: 0 <= i < |tr| ==> AnswerTrue(i, tr)
  }

  lemma TrueStays(held: map<Name, nat>, r: ResultMsg, tr: seq<Event>, tr': seq<Event>)
    requires TrueResult(held, r, tr) && ReapsStay(tr, tr')
    ensures TrueResult(held, r, tr')
  {
  }

  /** Only a subscribe and a listing tell codes, and they tell what the table holds. */
  predicate ToldBy(s: Server, cmd: CmdMsg, r: ResultMsg) {
    && (r.exitCode.Some? ==>
          cmd.verb.Subscribe? && cmd.name in s.procs && r.name == cmd.name && r.exitCode == s.procs[cmd.name].exitCode)
    && (r.processes.Some? ==> cmd.verb.List? && r.processes == Some(Listing(s.procs)))
  }

  lemma SpawnTells(s: Server, cmd: CmdMsg, env: Env)
    ensures var evs := CmdSpawn(s, cmd, env).events;
            evs != [] && evs[|evs| - 1].Answered? && evs[|evs| - 1].result.exitCode.None? && evs[|evs| - 1].result.processes.None?
  {
  }

  lemma KillTells(s: Server, cmd: CmdMsg, env: Env)
    ensures var evs := CmdKill(s, cmd, env).events;
            evs != [] && evs[|evs| - 1].Answered? && evs[|evs| - 1].result.exitCode.None? && evs[|evs| - 1].result.processes.None?
  {
  }

  lemma CommandTells(s: Server, cmd: CmdMsg, env: Env)
    ensures var evs := HandleCommand(s, cmd, env).events;
            evs != [] && evs[|evs| - 1].Answered? && ToldBy(s, cmd, evs[|evs| - 1].result)
  {
    match cmd.verb {
      case Spawn => SpawnTells(s, cmd, env);
      case Kill => KillTells(s, cmd, env);
      case _ =>
    }
  }

  /** Before its answer a subscribe or a listing changes nothing in the table. */
  lemma TellingStays(s: Server, cmd: CmdMsg, env: Env)
    requires cmd.verb.Subscribe? || cmd.verb.List?
    ensures var evs := HandleCommand(s, cmd, env).events;
            forall i :: 0 <= i < |evs| ==> Stays(evs[i])
  {
    if cmd.verb.Subscribe? && cmd.name in s.procs {
      var e := s.procs[cmd.name];
      ReplayEntry(Put(s, cmd.name, e.(buffer := [], subscribed := true)), e.child, e.buffer);
    }
  }

  lemma TableTrue(w: World, n: Name)
    requires Settled(w) && Rostered(w.server, w.trace) && n in w.server.procs
    ensures TrueOf(Held(w.trace), n, w.server.procs[n].exitCode, w.trace)
  {
    assert Known(w.server.procs[n], Reaps(w.server.procs[n].child, w.trace));
    assert Held(w.trace)[n] == w.server.procs[n].child;
  }

  lemma ToldTrue(w: World, cmd: CmdMsg, r: ResultMsg)
    requires Settled(w) && Rostered(w.server, w.trace) && ToldBy(w.server, cmd, r)
    ensures TrueResult(Held(w.trace), r, w.trace)
  {
    if r.exitCode.Some? {
      TableTrue(w, cmd.name);
    }
    if r.processes.Some? {
      forall n | n in r.processes.value ensures TrueOf(Held(w.trace), n, r.processes.value[n].exitCode, w.trace) {
        TableTrue(w, n);
      }
      assert Holders(w.server.procs).Keys == w.server.procs.Keys;
    }
  }

  // ---- every run ----

  /** What a step records is an answer only as the last event of a command. */
  lemma NewAnswers(w: World, l: Label, i: nat)
    requires i < |NewEvents(w, l)| && NewEvents(w, l)[i].Answered?
    ensures l.TakeLine? && w.mode == Serving && w.lines != [] && !Panics(w.server, w.lines[0])
    ensures w.lines[0].Parsed? && w.lines[0].msg.Cmd?
    ensures NewEvents(w, l) == HandleCommand(w.server, w.lines[0].msg.cmd, l.env).events && i == |NewEvents(w, l)| - 1
  {
    match l {
      case TakeRelay(env) => RelaySilent(w.server, w.queue[0], env);
      case TakeLine(env) =>
        if w.lines[0].Parsed? && w.lines[0].msg.Cmd? {
          CommandAnswers(w.server, w.lines[0].msg.cmd, env);
        }
      case ShutDown(plan) => KillAllSilent(w.server, plan);
      case _ =>
    }
  }

  lemma NewAnswerTrue(w: World, l: Label, i: nat)
    requires Settled(w) && Rostered(w.server, w.trace)
    requires i < |NewEvents(w, l)| && NewEvents(w, l)[i].Answered?
    ensures TrueResult(Held(w.trace + NewEvents(w, l)[..i]), NewEvents(w, l)[i].result, Step(w, l).trace)
  {
    NewAnswers(w, l, i);
    var cmd, evs := w.lines[0].msg.cmd, NewEvents(w, l);
    CommandTells(w.server, cmd, l.env);
    ToldTrue(w, cmd, evs[i].result);
    StepReapsOnce(w, l);
    TrueStays(Held(w.trace), evs[i].result, w.trace, Step(w, l).trace);
    if cmd.verb.Subscribe? || cmd.verb.List? {
      TellingStays(w.server, cmd, l.env);
      TableSame(0, w.trace, evs[..i]);
    }
  }

  lemma OldAnswerTrue(i: nat, tr: seq<Event>, tr': seq<Event>)
    requires i < |tr| && tr <= tr' && AnswerTrue(i, tr) && ReapsStay(tr, tr')
    ensures AnswerTrue(i, tr')
  {
    assert tr'[..i] == tr[..i];
    if tr[i].Answered? {
      TrueStays(Held(tr[..i]), tr[i].result, tr, tr');
    }
  }

  /** An answer among new events is true of the table as it was then. */
  ghost predicate Recorded(tr: seq<Event>, evs: seq<Event>, i: nat)
    requires i < |evs|
  {
    evs[i].Answered? ==> TrueResult(Held(tr + evs[..i]), evs[i].result, tr + evs)
  }

  lemma RecordedTrue(tr: seq<Event>, evs: seq<Event>, i: nat)
    requires i < |evs| && Recorded(tr, evs, i)
    ensures AnswerTrue(|tr| + i, tr + evs)
  {
    assert (tr + evs)[..|tr| + i] == tr + evs[..i];
  }

  lemma AnswersAppend(tr: seq<Event>, evs: seq<Event>)
    requires AnswersTrue(tr) && ReapsStay(tr, tr + evs)
    requires forall i :: 0 <= i < |evs| ==> Recorded(tr, evs, i)
    ensures AnswersTrue(tr + evs)
  {
    forall i | 0 <= i < |tr + evs| ensures AnswerTrue(i, tr + evs) {
      if i < |tr| {
        OldAnswerTrue(i, tr, tr + evs);
      } else {
        RecordedTrue(tr, evs, i - |tr|);
      }
    }
  }

  lemma StepAnswersTrue(w: World, l: Label)
    requires Settled(w) && Rostered(w.server, w.trace) && AnswersTrue(w.trace)
    ensures AnswersTrue(Step(w, l).trace)
  {
    var evs := NewEvents(w, l);
    StepTrace(w, l);
    StepReapsOnce(w, l);
    forall i | 0 <= i < |evs| ensures Recorded(w.trace, evs, i) {
      if evs[i].Answered? {
        NewAnswerTrue(w, l, i);
      }
    }
    AnswersAppend(w.trace, evs);
  }

  lemma {:induction false} RunAnswersTrue(o: Oracle, run: seq<Label>)
    ensures AnswersTrue(Run(o, run).trace)
  {
    if run != [] {
      RunAnswersTrue(o, run[..|run| - 1]);
      RunSettled(o, run[..|run| - 1]);
      RunDepartures(o, run[..|run| - 1]);
      StepAnswersTrue(Run(o, run[..|run| - 1]), run[|run| - 1]);
    }
  }

  // ---- what is sent was logged ----

  lemma MarksAppend(x: nat, a: seq<Event>, b: seq<Event>)
    ensures Marks(x, a + b) == Marks(x, a) + Marks(x, b)
  {
    CollectAppend((e: Event) => MarkOf(x, e), a, b);
  }

  /** The message at the cursor of the reference log is one that was appended. */
  lemma DeliveredItem(marks: seq<L.Mark<ServerMsg>>, conn: nat, msg: ServerMsg)
    requires L.Play(marks + [L.Deliver(conn, msg)]).Some?
    ensures L.Play(marks).Some? && msg in L.Play(marks).value.items
  {
    L.PlayLast(marks, L.Deliver(conn, msg));
  }

  /** Whatever goes out for an entry was logged for it before. */
  lemma SentWasLogged(o: Oracle, run: seq<Label>, i: nat) returns (j: nat)
    requires i < |Run(o, run).trace| && Run(o, run).trace[i].Sent?
    ensures var tr := Run(o, run).trace;
            j < i && tr[j].Logged? && tr[j].entry == tr[i].entry && tr[j].msg == tr[i].msg
  {
    var tr := Run(o, run).trace;
    var x, e := tr[i].entry, tr[i];
    RunSettled(o, run);
    assert tr == (tr[..i] + [e]) + tr[i + 1..];
    MarksAppend(x, tr[..i] + [e], tr[i + 1..]);
    MarksLast(x, tr[..i], e);
    L.PlayGrows(Marks(x, tr[..i] + [e]), Marks(x, tr[i + 1..]));
    DeliveredItem(Marks(x, tr[..i]), e.conn, e.msg);
    L.MarksAccount(Marks(x, tr[..i]), 0);
    var k :| 0 <= k < |LoggedBy(x, tr[..i])| && LoggedBy(x, tr[..i])[k] == e.msg;
    AppendedFrom(x, tr[..i], k);
    j :| 0 <= j < i && tr[..i][j].Logged? && tr[..i][j].entry == x && tr[..i][j].msg == e.msg;
  }

  /**
   In every run, every exit code on the wire is true: the code of an exit message sent for an entry, and every code
   in an answer to a subscribe or in a row of a listing, is the code of the one reap of that entry's child. For an
   answer the entry is the one that held the name when the answer was given.
   */
  lemma {:induction false} TruthfulOnTheWire(o: Oracle, run: seq<Label>, i: nat)
    requires i < |Run(o, run).trace|
    ensures var tr := Run(o, run).trace;
            && (tr[i].Sent? && tr[i].msg.Exit? ==> TrueCode(tr[i].entry, tr[i].msg.code, tr))
            && (tr[i].Answered? ==> TrueResult(Held(tr[..i]), tr[i].result, tr))
  {
    var tr := Run(o, run).trace;
    RunAnswersTrue(o, run);
    assert AnswerTrue(i, tr);
    if tr[i].Sent? {
      var j := SentWasLogged(o, run, i);
      TruthfulExitCodes(o, run);
    }
  }
}
