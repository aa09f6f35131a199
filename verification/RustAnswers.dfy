/** The Rust server answers the commands of a connection one by one, in the order of their lines. */
module RustAnswers {
  import opened Protocol
  import opened Sequences
  import opened StreamRelay
  import opened RustServer
  import opened RustWorld
  import opened RustTheorems

  /** An answer: the command, the result, and whether the channel accepted it. */
  datatype Answer = Answer(cmd: CmdMsg, result: ResultMsg, accepted: bool)

  function AnswerOf(conn: nat, e: Event): seq<Answer> {
    if e.Answered? && e.conn == conn then [Answer(e.cmd, e.result, e.accepted)] else []
  }

  function AnswersOn(conn: nat, tr: seq<Event>): seq<Answer> {
    Collect((e: Event) => AnswerOf(conn, e), tr)
  }

  function LineOf(conn: nat, e: Event): seq<Line> {
    if e.Arrived? && e.conn == conn then [e.line] else []
  }

  /** The lines the server has read from a connection. */
  function LinesOn(conn: nat, tr: seq<Event>): seq<Line> {
    Collect((e: Event) => LineOf(conn, e), tr)
  }

  function Asked(answers: seq<Answer>): (r: seq<CmdMsg>)
    ensures |r| == |answers|
    ensures forall i :: 0 <= i < |r| ==> r[i] == answers[i].cmd
  {
    seq(|answers|, i requires 0 <= i < |answers| => answers[i].cmd)
  }

  lemma AnswersLast(conn: nat, tr: seq<Event>, e: Event)
    ensures AnswersOn(conn, tr + [e]) == AnswersOn(conn, tr) + AnswerOf(conn, e)
    ensures LinesOn(conn, tr + [e]) == LinesOn(conn, tr) + LineOf(conn, e)
  {
    CollectLast((e: Event) => AnswerOf(conn, e), tr, e);
    CollectLast((e: Event) => LineOf(conn, e), tr, e);
  }

  lemma {:induction false} NoAnswers(conn: nat, tr: seq<Event>, evs: seq<Event>)
    requires forall i :: 0 <= i < |evs| ==> !evs[i].Answered? && !evs[i].Arrived?
    ensures AnswersOn(conn, tr + evs) == AnswersOn(conn, tr)
    ensures LinesOn(conn, tr + evs) == LinesOn(conn, tr)
  {
    if evs == [] {
      assert tr + evs == tr;
    } else {
      var init, last := evs[..|evs| - 1], evs[|evs| - 1];
      NoAnswers(conn, tr, init);
      AnswersLast(conn, tr + init, last);
      assert AnswersOn(conn, tr) + [] == AnswersOn(conn, tr);
      assert LinesOn(conn, tr) + [] == LinesOn(conn, tr);
      assert (tr + init) + [last] == tr + evs;
    }
  }

  // ---- what handlers answer ----

  /** The events end with the one answer to the command, and the channel has not reopened. */
  ghost predicate Answers(s: Server, cmd: CmdMsg, e: Effect) {
    && e.events != []
    && (forall i :: 0 <= i < |e.events| - 1 ==> !e.events[i].Answered? && !e.events[i].Arrived?)
    && Follows(s, e.server)
    && var last := e.events[|e.events| - 1];
       && last.Answered? && last.conn == Peer(s) && last.cmd == cmd
       && (last.accepted ==> Open(s))
       && (!last.accepted ==> !Open(e.server))
  }

  /** Same connection; once closed, its channel stays closed. */
  ghost predicate Follows(s: Server, s': Server) {
    && (s.client.Some? <==> s'.client.Some?)
    && s'.conns == s.conns
    && Peer(s') == Peer(s)
    && (!Open(s) ==> !Open(s'))
  }

  /** No answer, and the channel has not reopened. */
  ghost predicate Silent(s: Server, e: Effect) {
    && (forall i :: 0 <= i < |e.events| ==> !e.events[i].Answered? && !e.events[i].Arrived?)
    && Follows(s, e.server)
  }

  lemma SendAnswers(s: Server, first: Effect, cmd: CmdMsg, result: ResultMsg)
    requires Silent(s, first)
    ensures Answers(s, cmd, After(first.events, SendResult(first.server, cmd, result)))
  {
  }

  lemma FreshAnswers(s: Server, cmd: CmdMsg, env: Env)
    ensures Answers(s, cmd, SpawnFresh(s, cmd, env))
  {
  }

  lemma LaterAnswers(s: Server, first: Effect, cmd: CmdMsg, e: Effect)
    requires Silent(s, first) && Answers(first.server, cmd, e)
    ensures Answers(s, cmd, After(first.events, e))
  {
  }

  lemma SpawnAnswers(s: Server, cmd: CmdMsg, env: Env)
    ensures Answers(s, cmd, CmdSpawn(s, cmd, env))
  {
    var removed := Remove(s, cmd.name);
    FreshAnswers(removed.server, cmd, env);
    LaterAnswers(s, removed, cmd, SpawnFresh(removed.server, cmd, env));
  }

  lemma KillAnswers(s: Server, cmd: CmdMsg, env: Env)
    ensures Answers(s, cmd, CmdKill(s, cmd, env))
  {
  }

  lemma {:induction false} ReplaySilent(s: Server, x: nat, msgs: seq<ServerMsg>)
    ensures Silent(s, Replay(s, x, msgs))
  {
    if msgs != [] {
      ReplaySilent(s, x, msgs[..|msgs| - 1]);
    }
  }

  lemma SubscribeAnswers(s: Server, cmd: CmdMsg)
    ensures Answers(s, cmd, CmdSubscribe(s, cmd))
  {
    if cmd.name in s.procs {
      var e := s.procs[cmd.name];
      var drained := Put(s, cmd.name, e.(buffer := [], subscribed := true));
      ReplaySilent(drained, e.child, e.buffer);
      SendAnswers(s, Replay(drained, e.child, e.buffer), cmd, SubscribeResult(cmd.name, e));
    }
  }

  lemma InterruptAnswers(s: Server, cmd: CmdMsg, env: Env)
    ensures Answers(s, cmd, CmdInterrupt(s, cmd, env))
  {
  }

  lemma CommandAnswers(s: Server, cmd: CmdMsg, env: Env)
    ensures Answers(s, cmd, HandleCommand(s, cmd, env))
  {
    match cmd.verb {
      case Spawn => SpawnAnswers(s, cmd, env);
      case Kill => KillAnswers(s, cmd, env);
      case Subscribe => SubscribeAnswers(s, cmd);
      case Interrupt => InterruptAnswers(s, cmd, env);
      case Unsubscribe =>
      case List =>
      case Uptime =>
      case Unknown(_) =>
    }
  }

  lemma RelaySilent(s: Server, item: Relay, env: Env)
    ensures Silent(s, HandleRelay(s, item, env))
  {
  }

  lemma KillSilent(s: Server, name: Name, env: Env)
    ensures Silent(s, KillProcess(s, name, env))
  {
  }

  lemma StaysSilent(s: Server, first: Effect, e: Effect)
    requires Silent(s, first) && Silent(first.server, e)
    ensures Silent(s, After(first.events, e))
  {
  }

  lemma {:induction false} KillAllSilent(s: Server, plan: seq<(Name, Env)>)
    ensures Silent(s, KillAll(s, plan))
  {
    if plan != [] {
      var before, last := KillAll(s, plan[..|plan| - 1]), plan[|plan| - 1];
      KillAllSilent(s, plan[..|plan| - 1]);
      KillSilent(before.server, last.0, last.1);
      StaysSilent(s, before, KillProcess(before.server, last.0, last.1));
    }
  }

  // ---- the invariant ----

  /** Answers come in the order of the command lines, and those refused come last. */
  ghost predicate Orderly(conn: nat, tr: seq<Event>) {
    && Asked(AnswersOn(conn, tr)) <= Commands(LinesOn(conn, tr))
    && forall i, j :: 0 <= i < j < |AnswersOn(conn, tr)| && AnswersOn(conn, tr)[j].accepted ==> AnswersOn(conn, tr)[i].accepted
  }

  /** For the current connection, what is not answered yet waits in the line queue; a refusal means a closed channel. */
  ghost predicate Current(w: World) {
    w.mode == Serving ==>
      var conn := Peer(w.server);
      && conn < w.server.conns
      && Asked(AnswersOn(conn, w.trace)) + Commands(w.lines) == Commands(LinesOn(conn, w.trace))
      && (Open(w.server) ==> forall i :: 0 <= i < |AnswersOn(conn, w.trace)| ==> AnswersOn(conn, w.trace)[i].accepted)
  }

  ghost predicate NothingYet(conn: nat, tr: seq<Event>) {
    AnswersOn(conn, tr) == [] && LinesOn(conn, tr) == []
  }

  ghost predicate Answering(w: World) {
    && (forall conn: nat :: Orderly(conn, w.trace))
    && (forall conn: nat :: conn >= w.server.conns ==> NothingYet(conn, w.trace))
    && Current(w)
  }

  lemma AskedLast(answers: seq<Answer>, a: Answer)
    ensures Asked(answers + [a]) == Asked(answers) + [a.cmd]
  {
  }

  lemma HeadCommand(lines: seq<Line>)
    requires lines != []
    ensures Commands(lines) ==
            (if lines[0].Parsed? && lines[0].msg.Cmd? then [lines[0].msg.cmd] else []) + Commands(lines[1..])
  {
    assert lines == [lines[0]] + lines[1..];
    CommandsAppend([lines[0]], lines[1..]);
  }

  /** A step without answers or arrivals that keeps the connection. */
  lemma SilentKeeps(w: World, w': World, evs: seq<Event>)
    requires Answering(w) && w'.trace == w.trace + evs && w'.lines == w.lines
    requires forall i :: 0 <= i < |evs| ==> !evs[i].Answered? && !evs[i].Arrived?
    requires w'.server.conns == w.server.conns
    requires w'.mode == Serving ==> w.mode == Serving && Follows(w.server, w'.server)
    ensures Answering(w')
  {
    forall conn: nat
      ensures AnswersOn(conn, w'.trace) == AnswersOn(conn, w.trace) && LinesOn(conn, w'.trace) == LinesOn(conn, w.trace)
    {
      NoAnswers(conn, w.trace, evs);
    }
    forall conn: nat ensures Orderly(conn, w'.trace) {
      assert Orderly(conn, w.trace);
    }
    forall conn: nat | conn >= w'.server.conns ensures NothingYet(conn, w'.trace) {
      assert NothingYet(conn, w.trace);
    }
  }

  lemma ConnectKeepsAnswering(w: World, life: Option<nat>)
    requires Answering(w) && w.mode == Outer
    ensures Answering(Step(w, Accept(life)))
  {
    var w' := Step(w, Accept(life));
    forall conn: nat
      ensures AnswersOn(conn, w'.trace) == AnswersOn(conn, w.trace) && LinesOn(conn, w'.trace) == LinesOn(conn, w.trace)
    {
      NoAnswers(conn, w.trace, [Connected(w.server.conns)]);
    }
    forall conn: nat ensures Orderly(conn, w'.trace) {
      assert Orderly(conn, w.trace);
    }
    forall conn: nat | conn >= w'.server.conns ensures NothingYet(conn, w'.trace) {
      assert NothingYet(conn, w.trace);
    }
    assert NothingYet(w.server.conns, w.trace);
  }

  /** The events of handling a line, split into what precedes the answer and the answer. */
  lemma CommandRecord(tr: seq<Event>, s: Server, cmd: CmdMsg, e: Effect, conn: nat)
    requires Answers(s, cmd, e)
    ensures var last := e.events[|e.events| - 1];
            && AnswersOn(conn, tr + e.events) == AnswersOn(conn, tr) + (if conn == Peer(s) then [Answer(cmd, last.result, last.accepted)] else [])
            && LinesOn(conn, tr + e.events) == LinesOn(conn, tr)
  {
    var init, last := e.events[..|e.events| - 1], e.events[|e.events| - 1];
    NoAnswers(conn, tr, init);
    AnswersLast(conn, tr + init, last);
    assert (tr + init) + [last] == tr + e.events;
    assert LinesOn(conn, tr) + [] == LinesOn(conn, tr);
  }

  /** One more answer, to the first command line that has none. */
  lemma OrderlyAnswered(conn: nat, tr: seq<Event>, tr': seq<Event>, a: Answer, rest: seq<CmdMsg>)
    requires Orderly(conn, tr)
    requires AnswersOn(conn, tr') == AnswersOn(conn, tr) + [a] && LinesOn(conn, tr') == LinesOn(conn, tr)
    requires Asked(AnswersOn(conn, tr)) + ([a.cmd] + rest) == Commands(LinesOn(conn, tr))
    requires a.accepted ==> forall i :: 0 <= i < |AnswersOn(conn, tr)| ==> AnswersOn(conn, tr)[i].accepted
    ensures Orderly(conn, tr')
    ensures Asked(AnswersOn(conn, tr')) + rest == Commands(LinesOn(conn, tr'))
  {
    AskedLast(AnswersOn(conn, tr), a);
    assert Asked(AnswersOn(conn, tr)) + ([a.cmd] + rest) == (Asked(AnswersOn(conn, tr)) + [a.cmd]) + rest;
  }

  lemma CommandKeepsAnswering(w: World, w': World, cmd: CmdMsg, e: Effect)
    requires Answering(w) && w.mode == Serving && w'.mode == Serving
    requires w.lines != [] && w.lines[0] == Parsed(Cmd(cmd)) && w'.lines == w.lines[1..]
    requires Answers(w.server, cmd, e) && w'.server == e.server && w'.trace == w.trace + e.events
    ensures Answering(w')
  {
    var here := Peer(w.server);
    var last := e.events[|e.events| - 1];
    HeadCommand(w.lines);
    CommandRecord(w.trace, w.server, cmd, e, here);
    assert Orderly(here, w.trace);
    OrderlyAnswered(here, w.trace, w'.trace, Answer(cmd, last.result, last.accepted), Commands(w'.lines));
    forall conn: nat ensures Orderly(conn, w'.trace) {
      if conn != here {
        CommandElsewhere(w.trace, w.server, cmd, e, conn);
        assert Orderly(conn, w.trace);
      }
    }
    forall conn: nat | conn >= w'.server.conns ensures NothingYet(conn, w'.trace) {
      CommandElsewhere(w.trace, w.server, cmd, e, conn);
      assert NothingYet(conn, w.trace);
    }
  }

  lemma CommandElsewhere(tr: seq<Event>, s: Server, cmd: CmdMsg, e: Effect, conn: nat)
    requires Answers(s, cmd, e) && conn != Peer(s)
    ensures AnswersOn(conn, tr + e.events) == AnswersOn(conn, tr) && LinesOn(conn, tr + e.events) == LinesOn(conn, tr)
  {
    CommandRecord(tr, s, cmd, e, conn);
    assert AnswersOn(conn, tr) + [] == AnswersOn(conn, tr);
  }

  /** A line that is no command goes without an answer. */
  lemma OtherLineKeepsAnswering(w: World, w': World, e: Effect)
    requires Answering(w) && w.mode == Serving && w'.mode == Serving
    requires w.lines != [] && !(w.lines[0].Parsed? && w.lines[0].msg.Cmd?) && w'.lines == w.lines[1..]
    requires Silent(w.server, e) && w'.server == e.server && w'.trace == w.trace + e.events
    ensures Answering(w')
  {
    HeadCommand(w.lines);
    assert [] + Commands(w'.lines) == Commands(w'.lines);
    forall conn: nat
      ensures AnswersOn(conn, w'.trace) == AnswersOn(conn, w.trace) && LinesOn(conn, w'.trace) == LinesOn(conn, w.trace)
    {
      NoAnswers(conn, w.trace, e.events);
    }
    forall conn: nat ensures Orderly(conn, w'.trace) {
      assert Orderly(conn, w.trace);
    }
    forall conn: nat | conn >= w'.server.conns ensures NothingYet(conn, w'.trace) {
      assert NothingYet(conn, w.trace);
    }
  }

  lemma OrderlyArrived(conn: nat, tr: seq<Event>, e: Event)
    requires Orderly(conn, tr) && e.Arrived?
    ensures Orderly(conn, tr + [e])
    ensures AnswersOn(conn, tr + [e]) == AnswersOn(conn, tr)
    ensures LinesOn(conn, tr + [e]) == LinesOn(conn, tr) + LineOf(conn, e)
  {
    AnswersLast(conn, tr, e);
    CommandsAppend(LinesOn(conn, tr), LineOf(conn, e));
    assert AnswersOn(conn, tr) + [] == AnswersOn(conn, tr);
  }

  lemma LineAdded(asked: seq<CmdMsg>, lines: seq<Line>, all: seq<Line>, line: Line)
    requires asked + Commands(lines) == Commands(all)
    ensures asked + Commands(lines + [line]) == Commands(all + [line])
  {
    CommandsAppend(lines, [line]);
    CommandsAppend(all, [line]);
    assert asked + (Commands(lines) + Commands([line])) == (asked + Commands(lines)) + Commands([line]);
  }

  lemma ArrivalKeeps(w: World, w': World, line: Line)
    requires Answering(w) && w.mode == Serving
    requires w'.server == w.server && w'.lines == w.lines + [line]
    requires w'.trace == w.trace + [Arrived(Peer(w.server), line)]
    ensures Answering(w')
  {
    var e := Arrived(Peer(w.server), line);
    assert Orderly(Peer(w.server), w.trace);
    forall conn: nat ensures Orderly(conn, w'.trace) {
      OrderlyArrived(conn, w.trace, e);
    }
    forall conn: nat | conn >= w'.server.conns ensures NothingYet(conn, w'.trace) {
      OrderlyArrived(conn, w.trace, e);
      assert NothingYet(conn, w.trace);
    }
    ArrivalAtPeer(w, w', line);
  }

  lemma ArrivalAtPeer(w: World, w': World, line: Line)
    requires Orderly(Peer(w.server), w.trace) && Current(w) && w.mode == Serving
    requires w'.server == w.server && w'.lines == w.lines + [line]
    requires w'.trace == w.trace + [Arrived(Peer(w.server), line)]
    ensures Current(w')
  {
    var here := Peer(w.server);
    OrderlyArrived(here, w.trace, Arrived(here, line));
    LineAdded(Asked(AnswersOn(here, w.trace)), w.lines, LinesOn(here, w.trace), line);
  }

  lemma ArrivalKeepsAnswering(w: World, line: Line)
    requires Answering(w) && w.mode == Serving && !w.lineEof
    ensures Answering(Step(w, ClientWrites(line)))
  {
    ArrivalKeeps(w, Step(w, ClientWrites(line)), line);
  }

  lemma LineKeepsAnswering(w: World, env: Env)
    requires Answering(w) && w.mode == Serving && w.lines != [] && Timely(w, env) && !Panics(w.server, w.lines[0])
    ensures Answering(Step(w, TakeLine(env)))
  {
    var w', e := Step(w, TakeLine(env)), HandleLine(w.server, w.lines[0], env);
    match w.lines[0] {
      case Parsed(Cmd(cmd)) =>
        CommandAnswers(w.server, cmd, env);
        CommandKeepsAnswering(w, w', cmd, e);
      case Parsed(Stdin(_, _)) => OtherLineKeepsAnswering(w, w', e);
      case Garbage(_) => OtherLineKeepsAnswering(w, w', e);
    }
  }

  /** A step of the main task that handles no line and accepts nobody. */
  lemma EventsKeepAnswering(w: World, w': World, l: Label)
    requires Answering(w) && w' == Step(w, l) && w'.lines == w.lines && w'.server.conns == w.server.conns
    requires forall i :: 0 <= i < |NewEvents(w, l)| ==> !NewEvents(w, l)[i].Answered? && !NewEvents(w, l)[i].Arrived?
    requires w'.mode == Serving ==> w.mode == Serving && Follows(w.server, w'.server)
    ensures Answering(w')
  {
    StepTrace(w, l);
    SilentKeeps(w, w', NewEvents(w, l));
  }

  /** The end of a connection, and what happens beside the main task. */
  lemma QuietKeepsAnswering(w: World, l: Label)
    requires Answering(w) && !l.Accept? && !l.TakeRelay? && !l.TakeLine? && !l.ShutDown? && !l.ClientWrites?
    ensures Answering(Step(w, l))
  {
    StepTrace(w, l);
    SilentKeeps(w, Step(w, l), []);
  }

  lemma TakeLineKeepsAnswering(w: World, env: Env)
    requires Answering(w)
    ensures Answering(Step(w, TakeLine(env)))
  {
    if w.mode == Serving && w.lines != [] && Timely(w, env) && !Panics(w.server, w.lines[0]) {
      LineKeepsAnswering(w, env);
    }
  }

  lemma StepKeepsAnswering(w: World, l: Label)
    requires Answering(w)
    ensures Answering(Step(w, l))
  {
    match l {
      case Accept(life) =>
        if w.mode == Outer {
          ConnectKeepsAnswering(w, life);
        }
      case TakeRelay(env) =>
        if w.queue != [] {
          RelaySilent(w.server, w.queue[0], env);
          EventsKeepAnswering(w, Step(w, l), l);
        }
      case TakeLine(env) => TakeLineKeepsAnswering(w, env);
      case ShutDown(plan) =>
        KillAllSilent(w.server, plan);
        EventsKeepAnswering(w, Step(w, l), l);
      case ClientWrites(line) =>
        if w.mode == Serving && !w.lineEof {
          ArrivalKeepsAnswering(w, line);
        }
      case _ => QuietKeepsAnswering(w, l);
    }
  }

  lemma {:induction false} RunAnswering(o: Oracle, run: seq<Label>)
    ensures Answering(Run(o, run))
  {
    if run == [] {
      forall conn: nat ensures Orderly(conn, []) && NothingYet(conn, []) {
      }
    } else {
      RunAnswering(o, run[..|run| - 1]);
      StepKeepsAnswering(Run(o, run[..|run| - 1]), run[|run| - 1]);
    }
  }

  // ---- connections that are over ----

  /** Every command line read from an earlier connection was answered before it was closed. */
  ghost predicate PastAnswered(w: World) {
    forall conn: nat :: conn < w.server.conns && (w.mode == Outer || w.mode == Finished || conn != Peer(w.server)) ==>
      Asked(AnswersOn(conn, w.trace)) == Commands(LinesOn(conn, w.trace))
  }

  /** Only the current connection's record changes. */
  lemma OthersUnchanged(w: World, l: Label, conn: nat)
    requires w.mode == Serving ==> conn != Peer(w.server)
    ensures AnswersOn(conn, Step(w, l).trace) == AnswersOn(conn, w.trace)
    ensures LinesOn(conn, Step(w, l).trace) == LinesOn(conn, w.trace)
  {
    var evs := NewEvents(w, l);
    StepTrace(w, l);
    match l {
      case TakeLine(env) =>
        if evs != [] && w.lines[0].Parsed? && w.lines[0].msg.Cmd? {
          CommandAnswers(w.server, w.lines[0].msg.cmd, env);
          CommandRecord(w.trace, w.server, w.lines[0].msg.cmd, HandleLine(w.server, w.lines[0], env), conn);
          assert AnswersOn(conn, w.trace) + [] == AnswersOn(conn, w.trace);
        } else {
          NoAnswers(conn, w.trace, evs);
        }
      case ClientWrites(line) =>
        if evs != [] {
          AnswersLast(conn, w.trace, evs[0]);
          assert AnswersOn(conn, w.trace) + [] == AnswersOn(conn, w.trace);
          assert LinesOn(conn, w.trace) + [] == LinesOn(conn, w.trace);
        } else {
          NoAnswers(conn, w.trace, evs);
        }
      case TakeRelay(env) =>
        if evs != [] {
          RelaySilent(w.server, w.queue[0], env);
        }
        NoAnswers(conn, w.trace, evs);
      case ShutDown(plan) =>
        KillAllSilent(w.server, plan);
        NoAnswers(conn, w.trace, evs);
      case _ => NoAnswers(conn, w.trace, evs);
    }
  }

  /** Handling a line keeps the connection. */
  lemma LinePeer(s: Server, line: Line, env: Env)
    ensures Follows(s, HandleLine(s, line, env).server)
  {
    if line.Parsed? && line.msg.Cmd? {
      CommandAnswers(s, line.msg.cmd, env);
    }
  }

  lemma StepPeer(w: World, l: Label)
    ensures w.mode == Serving && Step(w, l).mode != Outer ==>
              Peer(Step(w, l).server) == Peer(w.server) && Step(w, l).server.conns == w.server.conns
    ensures !l.Accept? ==> Step(w, l).server.conns == w.server.conns
    ensures l.Accept? && w.mode == Outer ==>
              Peer(Step(w, l).server) == w.server.conns && Step(w, l).server.conns == w.server.conns + 1
  {
    match l {
      case TakeLine(env) =>
        if w.lines != [] {
          LinePeer(w.server, w.lines[0], env);
        }
      case TakeRelay(env) =>
        if w.queue != [] {
          RelaySilent(w.server, w.queue[0], env);
        }
      case ShutDown(plan) => KillAllSilent(w.server, plan);
      case _ =>
    }
  }

  /** A connection is left when its lines have been handled, and nothing happens after a panic. */
  lemma StepLeaves(w: World, l: Label)
    ensures w.mode == Crashed ==> Step(w, l).server == w.server && Step(w, l).mode == Crashed
    ensures w.mode == Serving && Step(w, l).mode == Outer ==> w.lines == [] && Step(w, l).trace == w.trace
  {
  }

  lemma StepKeepsPast(w: World, l: Label)
    requires Answering(w) && PastAnswered(w)
    ensures PastAnswered(Step(w, l))
  {
    var w' := Step(w, l);
    StepPeer(w, l);
    StepLeaves(w, l);
    forall conn: nat | conn < w'.server.conns && (w'.mode == Outer || w'.mode == Finished || conn != Peer(w'.server))
      ensures Asked(AnswersOn(conn, w'.trace)) == Commands(LinesOn(conn, w'.trace))
    {
      if w.mode == Serving && conn == Peer(w.server) {
        assert Asked(AnswersOn(conn, w.trace)) + Commands([]) == Asked(AnswersOn(conn, w.trace));
      } else {
        OthersUnchanged(w, l, conn);
      }
    }
  }

  lemma {:induction false} RunPast(o: Oracle, run: seq<Label>)
    ensures Answering(Run(o, run)) && PastAnswered(Run(o, run))
  {
    RunAnswering(o, run);
    if run != [] {
      RunPast(o, run[..|run| - 1]);
      StepKeepsPast(Run(o, run[..|run| - 1]), run[|run| - 1]);
    }
  }

  // ---- what follows for every run ----

  function AcceptedResults(answers: seq<Answer>): seq<ResultMsg>
  {
    if answers == [] then []
    else
      var last := answers[|answers| - 1];
      AcceptedResults(answers[..|answers| - 1]) + if last.accepted then [last.result] else []
  }

  lemma {:induction false} AcceptedFirst(answers: seq<Answer>)
    requires forall i, j :: 0 <= i < j < |answers| && answers[j].accepted ==> answers[i].accepted
    ensures |AcceptedResults(answers)| <= |answers|
    ensures forall i :: 0 <= i < |AcceptedResults(answers)| ==> AcceptedResults(answers)[i] == answers[i].result
    ensures |AcceptedResults(answers)| < |answers| ==> !answers[|answers| - 1].accepted
  {
    if answers != [] {
      AcceptedFirst(answers[..|answers| - 1]);
    }
  }

  /**
   On every connection of every run the accepted results answer the first command lines one by one: result `k`
   is the server's answer to command line `k`. Once the connection is over, every command line read from it has been answered.
   */
  lemma {:induction false} AnswersInOrder(o: Oracle, run: seq<Label>, conn: nat)
    ensures var w := Run(o, run);
            var answers, replies := AnswersOn(conn, w.trace), AcceptedResults(AnswersOn(conn, w.trace));
            && |replies| <= |answers| <= |Commands(LinesOn(conn, w.trace))|
            && (forall k :: 0 <= k < |answers| ==> answers[k].cmd == Commands(LinesOn(conn, w.trace))[k])
            && (forall k :: 0 <= k < |replies| ==> replies[k] == answers[k].result)
            && (conn < w.server.conns && (w.mode == Outer || w.mode == Finished) ==>
                  |answers| == |Commands(LinesOn(conn, w.trace))|)
  {
    RunPast(o, run);
    var w := Run(o, run);
    assert Orderly(conn, w.trace);
    AcceptedFirst(AnswersOn(conn, w.trace));
  }
}
