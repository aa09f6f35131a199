/**
 The Rust server and its clients together. A socket is a lossless queue: on every connection the
 client has heard a prefix of what the server's channel accepted, and the server has read a
 prefix of the lines the client has written.
 */
module EndToEnd {
  import opened Protocol
  import opened Sequences
  import opened StreamRelay
  import opened RustServer
  import opened RustRecord
  import opened RustMoves
  import opened RustWorld
  import opened RustRuns
  import opened RustStreams
  import opened RustIsolation
  import opened RustDepartures
  import opened RustTheorems
  import opened RustReplay
  import opened RustAnswers
  import L = RelayLog
  import Demux
  import Callers

  function OnWire(conn: nat, e: Event): seq<ServerMsg> {
    match e
    case Sent(c, _, msg) => if c == conn then [msg] else []
    case Answered(c, accepted, _, result) => if c == conn && accepted then [Result(result)] else []
    case _ => []
  }

  /** Everything a connection's channel has accepted. */
  function WireOn(conn: nat, tr: seq<Event>): seq<ServerMsg> {
    Collect((e: Event) => OnWire(conn, e), tr)
  }

  lemma WireLast(conn: nat, tr: seq<Event>, e: Event)
    ensures WireOn(conn, tr + [e]) == WireOn(conn, tr) + OnWire(conn, e)
  {
    CollectLast((e: Event) => OnWire(conn, e), tr, e);
  }

  // ---- requests and responses ----

  ghost predicate NoResultSent(tr: seq<Event>) {
    forall i :: 0 <= i < |tr| && tr[i].Sent? ==> !tr[i].msg.Result?
  }

  lemma WireResultsLast(conn: nat, tr: seq<Event>, e: Event)
    requires e.Sent? ==> !e.msg.Result?
    ensures Demux.Results(WireOn(conn, tr + [e])) ==
            Demux.Results(WireOn(conn, tr)) + if e.Answered? && e.conn == conn && e.accepted then [e.result] else []
  {
    WireLast(conn, tr, e);
    if OnWire(conn, e) != [] {
      Demux.ResultsLast(WireOn(conn, tr), OnWire(conn, e)[0]);
      assert OnWire(conn, e) == [OnWire(conn, e)[0]];
    } else {
      assert WireOn(conn, tr) + [] == WireOn(conn, tr);
    }
  }

  lemma AcceptedLast(conn: nat, tr: seq<Event>, e: Event)
    ensures AcceptedResults(AnswersOn(conn, tr + [e])) ==
            AcceptedResults(AnswersOn(conn, tr)) + if e.Answered? && e.conn == conn && e.accepted then [e.result] else []
  {
    AnswersLast(conn, tr, e);
    var answers := AnswersOn(conn, tr);
    if AnswerOf(conn, e) != [] {
      var a := AnswerOf(conn, e)[0];
      assert AnswerOf(conn, e) == [a];
      assert (answers + [a])[..|answers|] == answers;
    } else {
      assert answers + [] == answers;
    }
  }

  lemma {:induction false} WireResults(conn: nat, tr: seq<Event>)
    requires NoResultSent(tr)
    ensures Demux.Results(WireOn(conn, tr)) == AcceptedResults(AnswersOn(conn, tr))
  {
    if tr != [] {
      var init, e := tr[..|tr| - 1], tr[|tr| - 1];
      assert tr == init + [e];
      WireResults(conn, init);
      WireResultsLast(conn, init, e);
      AcceptedLast(conn, init, e);
    }
  }

  lemma {:induction false} ResultsPrefix(a: seq<ServerMsg>, b: seq<ServerMsg>)
    requires a <= b
    ensures Demux.Results(a) <= Demux.Results(b)
    decreases |b|
  {
    if a == b {
    } else {
      ResultsPrefix(a, b[..|b| - 1]);
    }
  }

  /** What a client has sent: whole lines, and what a torn one at the end may look like to a reader at end of file. */
  function SentLines(s: Callers.State, rest: seq<Line>): seq<Line> {
    s.lines + rest
  }

  /** At most one more line is read at end of file, and only if part of one had been sent; it may look like anything. */
  predicate TornRest(s: Callers.State, rest: seq<Line>) {
    rest == [] || (s.torn && |rest| == 1)
  }

  /**
   The client of connection `conn`: `heard` drives its demultiplexer, `acts` its callers. What it heard
   is a prefix of the wire, what the server read is a prefix of what it sent, and its responses are those heard.
   */
  ghost predicate Connection(w: World, conn: nat, heard: seq<Demux.Input>, acts: seq<Callers.Input>, rest: seq<Line>) {
    && Demux.Heard(heard) <= WireOn(conn, w.trace)
    && TornRest(Callers.Run(acts), rest) && LinesOn(conn, w.trace) <= SentLines(Callers.Run(acts), rest)
    && Callers.Run(acts).inbox <= Demux.Run(heard).responses
  }

  /** The responses a client has are the first of the results its channel accepted. */
  lemma ResponsesAreReplies(o: Oracle, run: seq<Label>, conn: nat, heard: seq<Demux.Input>,
        acts: seq<Callers.Input>, rest: seq<Line>)
    requires Connection(Run(o, run), conn, heard, acts, rest)
    ensures Callers.Run(acts).inbox <= AcceptedResults(AnswersOn(conn, Run(o, run).trace))
  {
    RunSents(o, run);
    WireResults(conn, Run(o, run).trace);
    Demux.ResponsesHeard(heard);
    ResultsPrefix(Demux.Heard(heard), WireOn(conn, Run(o, run).trace));
  }

  lemma CommandsPrefix(a: seq<Line>, b: seq<Line>)
    requires a <= b
    ensures Commands(a) <= Commands(b)
  {
    CommandsAppend(a, b[|a|..]);
    assert a + b[|a|..] == b;
  }

  /**
   A response taken by a call is the server's answer to command line number `g` of the connection, where `g`
   counts the answered calls before it. When the call is matched that line is its own. It is matched
   exactly when its line went out whole and the calls given up before it after sending theirs are
   as many as those answered after a spoiled line.
   */
  lemma {:induction false} RequestResponse(o: Oracle, run: seq<Label>, conn: nat, heard: seq<Demux.Input>,
        acts: seq<Callers.Input>, rest: seq<Line>, j: nat)
    requires Connection(Run(o, run), conn, heard, acts, rest)
    requires j < |Callers.Run(acts).calls| && Callers.Run(acts).calls[j].outcome.Got?
    ensures var calls := Callers.Run(acts).calls;
            var g := Callers.Answered(calls, j);
            var answers := AnswersOn(conn, Run(o, run).trace);
            && g < |answers|
            && calls[j].outcome.result == answers[g].result
            && g < |Commands(SentLines(Callers.Run(acts), rest))|
            && answers[g].cmd == Commands(SentLines(Callers.Run(acts), rest))[g]
            && (Callers.Matched(calls, j) ==> answers[g].cmd == calls[j].cmd)
            && (Callers.Matched(calls, j) <==>
                  calls[j].slot.Some? && Callers.Orphaned(calls, j) == Callers.Robbed(calls, j))
  {
    var s := Callers.Run(acts);
    Callers.RunKept(acts);
    Callers.MatchedExactly(acts, j);
    assert Callers.CallKept(s, j);
    ResponsesAreReplies(o, run, conn, heard, acts, rest);
    AnswersInOrder(o, run, conn);
    CommandsPrefix(LinesOn(conn, Run(o, run).trace), SentLines(s, rest));
    CommandsPrefix(s.lines, SentLines(s, rest));
  }

  /** When no write was torn and no earlier call was given up after sending its line, a response is the answer to that very command. */
  lemma {:induction false} ResponseIsOwn(o: Oracle, run: seq<Label>, conn: nat, heard: seq<Demux.Input>,
        acts: seq<Callers.Input>, rest: seq<Line>, j: nat)
    requires Connection(Run(o, run), conn, heard, acts, rest)
    requires j < |Callers.Run(acts).calls| && Callers.Run(acts).calls[j].outcome.Got?
    requires Callers.WholeWrites(acts)
    requires forall i :: 0 <= i < j ==> !Callers.Run(acts).calls[i].outcome.Abandoned?
    ensures var call := Callers.Run(acts).calls[j];
            var answers := AnswersOn(conn, Run(o, run).trace);
            call.slot.Some? && call.slot.value < |answers|
            && answers[call.slot.value] == Answer(call.cmd, call.outcome.result, answers[call.slot.value].accepted)
  {
    RequestResponse(o, run, conn, heard, acts, rest, j);
    Callers.MatchedUnlessOrphaned(acts, j);
  }

  // ---- what is sent, to whom, and of which process ----

  /** What is sent belongs to a process, carries its name, and goes to a connection there has been. */
  ghost predicate SentFits(w: World, e: Event)
    requires e.Sent?
  {
    && e.conn < w.server.conns
    && e.entry < |w.children|
    && NameOf(e.msg) == w.children[e.entry].name
    && !e.msg.Result?
  }

  /** Connections follow one another, and so do the processes of one name. */
  ghost predicate SentRising(tr: seq<Event>) {
    forall i, j :: 0 <= i < j < |tr| && tr[i].Sent? && tr[j].Sent? ==>
      && tr[i].conn <= tr[j].conn
      && (NameOf(tr[i].msg) == NameOf(tr[j].msg) ==> tr[i].entry <= tr[j].entry)
  }

  ghost predicate SentSound(w: World) {
    && (forall i :: 0 <= i < |w.trace| && w.trace[i].Sent? ==> SentFits(w, w.trace[i]))
    && SentRising(w.trace)
  }

  /** A newly sent message goes to the current connection and is the present entry's. */
  ghost predicate SentNow(w: World, e: Event)
    requires e.Sent?
  {
    && e.conn + 1 == w.server.conns
    && Present(w.server, NameOf(e.msg), e.entry)
    && !e.msg.Result?
  }

  lemma RelaySends(w: World, env: Env, i: nat)
    requires Identities(w.server) && w.queue != []
    requires i < |HandleRelay(w.server, w.queue[0], env).events| && HandleRelay(w.server, w.queue[0], env).events[i].Sent?
    ensures SentNow(w, HandleRelay(w.server, w.queue[0], env).events[i])
  {
  }

  lemma {:induction false} ReplaySends(s: Server, x: nat, msgs: seq<ServerMsg>, i: nat)
    requires i < |Replay(s, x, msgs).events| && Replay(s, x, msgs).events[i].Sent?
    ensures var e := Replay(s, x, msgs).events[i];
            e.conn == Peer(s) && e.entry == x && e.msg in msgs && s.client.Some?
  {
    var init := msgs[..|msgs| - 1];
    ReplayShape(s, x, init);
    if i < |Replay(s, x, init).events| {
      ReplaySends(s, x, init, i);
    }
  }

  lemma KillSendsNothing(s: Server, cmd: CmdMsg, env: Env)
    ensures forall i :: 0 <= i < |CmdKill(s, cmd, env).events| ==> !CmdKill(s, cmd, env).events[i].Sent?
  {
  }

  lemma SpawnSendsNothing(s: Server, cmd: CmdMsg, env: Env)
    ensures forall i :: 0 <= i < |CmdSpawn(s, cmd, env).events| ==> !CmdSpawn(s, cmd, env).events[i].Sent?
  {
  }

  lemma OthersSendNothing(s: Server, line: Line, env: Env)
    requires !(line.Parsed? && line.msg.Cmd? && line.msg.cmd.verb.Subscribe?)
    ensures forall i :: 0 <= i < |HandleLine(s, line, env).events| ==> !HandleLine(s, line, env).events[i].Sent?
  {
    if line.Parsed? && line.msg.Cmd? {
      match line.msg.cmd.verb {
        case Kill => KillSendsNothing(s, line.msg.cmd, env);
        case Spawn => SpawnSendsNothing(s, line.msg.cmd, env);
        case _ =>
      }
    }
  }

  lemma SubscribeSends(w: World, cmd: CmdMsg, i: nat)
    requires Identities(w.server)
    requires cmd.name in w.server.procs
    requires forall k :: 0 <= k < |w.server.procs[cmd.name].buffer| ==>
               NameOf(w.server.procs[cmd.name].buffer[k]) == cmd.name && !w.server.procs[cmd.name].buffer[k].Result?
    requires i < |CmdSubscribe(w.server, cmd).events| && CmdSubscribe(w.server, cmd).events[i].Sent?
    ensures SentNow(w, CmdSubscribe(w.server, cmd).events[i])
  {
    var e := w.server.procs[cmd.name];
    var drained := Put(w.server, cmd.name, e.(buffer := [], subscribed := true));
    ReplayShape(drained, e.child, e.buffer);
    assert i < |Replay(drained, e.child, e.buffer).events|;
    ReplaySends(drained, e.child, e.buffer, i);
  }

  lemma {:induction false} KillAllSendsNothing(s: Server, plan: seq<(Name, Env)>)
    ensures forall i :: 0 <= i < |KillAll(s, plan).events| ==> !KillAll(s, plan).events[i].Sent?
  {
    if plan != [] {
      KillAllSendsNothing(s, plan[..|plan| - 1]);
    }
  }

  /** Nothing logged is a result. */
  lemma LoggedPlain(o: Oracle, run: seq<Label>, x: nat, k: nat, msg: ServerMsg)
    requires k < |LoggedBy(x, Run(o, run).trace)| && LoggedBy(x, Run(o, run).trace)[k] == msg
    ensures !msg.Result?
  {
    var tr := Run(o, run).trace;
    AppendedFrom(x, tr, k);
    var i :| 0 <= i < |tr| && tr[i].Logged? && tr[i].entry == x && tr[i].msg == LoggedBy(x, tr)[k];
    IncarnationIsolation(o, run, i);
  }

  /** Nothing buffered is a result. */
  lemma BufferPlain(o: Oracle, run: seq<Label>, n: Name)
    requires n in Run(o, run).server.procs
    ensures forall k :: 0 <= k < |Run(o, run).server.procs[n].buffer| ==> !Run(o, run).server.procs[n].buffer[k].Result?
  {
    var e := Run(o, run).server.procs[n];
    var at := BufferSpan(o, run, n);
    forall k | 0 <= k < |e.buffer| ensures !e.buffer[k].Result? {
      LoggedPlain(o, run, e.child, at + k, e.buffer[k]);
    }
  }

  lemma NewSents(o: Oracle, run: seq<Label>, l: Label, i: nat)
    requires i < |NewEvents(Run(o, run), l)| && NewEvents(Run(o, run), l)[i].Sent?
    ensures SentNow(Run(o, run), NewEvents(Run(o, run), l)[i])
  {
    var w := Run(o, run);
    RunIdentities(o, run);
    match l {
      case TakeRelay(env) => RelaySends(w, env, i);
      case TakeLine(env) =>
        if w.lines[0].Parsed? && w.lines[0].msg.Cmd? && w.lines[0].msg.cmd.verb.Subscribe? {
          var cmd := w.lines[0].msg.cmd;
          if cmd.name in w.server.procs {
            BufferNames(o, run, cmd.name);
            BufferPlain(o, run, cmd.name);
            SubscribeSends(w, cmd, i);
          }
        } else {
          OthersSendNothing(w.server, w.lines[0], env);
        }
      case ShutDown(plan) => KillAllSendsNothing(w.server, plan);
      case _ =>
    }
  }

  lemma RunIdentities(o: Oracle, run: seq<Label>)
    ensures Identities(Run(o, run).server) && Subscriptions(Run(o, run).server) && Modes(Run(o, run)) && Family(Run(o, run)) && QueueFits(Run(o, run))
  {
    RunSettled(o, run);
  }

  lemma RunYoungest(o: Oracle, run: seq<Label>)
    ensures Youngest(Run(o, run))
  {
    RunRemembered(o, run);
  }

  lemma StepConns(w: World, l: Label)
    ensures w.server.conns <= Step(w, l).server.conns
  {
    StepPeer(w, l);
  }

  lemma SentsStep(w: World, w': World, evs: seq<Event>)
    requires SentSound(w) && Family(w) && Youngest(w) && Grows(w, w') && w.server.conns <= w'.server.conns
    requires w'.trace == w.trace + evs
    requires forall i :: 0 <= i < |evs| && evs[i].Sent? ==> SentNow(w, evs[i])
    ensures SentSound(w')
  {
    forall i | 0 <= i < |w'.trace| && w'.trace[i].Sent? ensures SentFits(w', w'.trace[i]) {
      if i < |w.trace| {
        assert SentFits(w, w.trace[i]);
      } else {
        assert SentNow(w, evs[i - |w.trace|]);
      }
    }
    forall i, j | 0 <= i < j < |w'.trace| && w'.trace[i].Sent? && w'.trace[j].Sent?
      ensures w'.trace[i].conn <= w'.trace[j].conn
      ensures NameOf(w'.trace[i].msg) == NameOf(w'.trace[j].msg) ==> w'.trace[i].entry <= w'.trace[j].entry
    {
      if j >= |w.trace| {
        assert SentNow(w, evs[j - |w.trace|]);
        if i < |w.trace| {
          assert SentFits(w, w.trace[i]);
        } else {
          assert SentNow(w, evs[i - |w.trace|]);
        }
      }
    }
  }

  lemma {:induction false} RunSents(o: Oracle, run: seq<Label>)
    ensures SentSound(Run(o, run)) && NoResultSent(Run(o, run).trace)
  {
    if run != [] {
      var init, l := run[..|run| - 1], run[|run| - 1];
      var w := Run(o, init);
      RunSents(o, init);
      RunIdentities(o, init);
      RunYoungest(o, init);
      StepGrows(w, l);
      StepTrace(w, l);
      StepConns(w, l);
      forall i | 0 <= i < |NewEvents(w, l)| && NewEvents(w, l)[i].Sent? ensures SentNow(w, NewEvents(w, l)[i]) {
        NewSents(o, init, l, i);
      }
      SentsStep(w, Step(w, l), NewEvents(w, l));
    }
    forall i | 0 <= i < |Run(o, run).trace| && Run(o, run).trace[i].Sent? ensures !Run(o, run).trace[i].msg.Result? {
      assert SentFits(Run(o, run), Run(o, run).trace[i]);
    }
  }

  // ---- handing a process from client to client ----

  function ByConn(n: Name, e: Event): seq<(nat, ServerMsg)> {
    if e.Sent? && !e.msg.Result? && NameOf(e.msg) == n then [(e.conn, e.msg)] else []
  }

  function ByEntry(n: Name, e: Event): seq<(nat, ServerMsg)> {
    if e.Sent? && !e.msg.Result? && NameOf(e.msg) == n then [(e.entry, e.msg)] else []
  }

  /** What was sent for a name, in order, with the connection it went to. */
  function NamedByConn(n: Name, tr: seq<Event>): seq<(nat, ServerMsg)> {
    Collect((e: Event) => ByConn(n, e), tr)
  }

  /** The same with the process it came from. */
  function NamedByEntry(n: Name, tr: seq<Event>): seq<(nat, ServerMsg)> {
    Collect((e: Event) => ByEntry(n, e), tr)
  }

  lemma NamedLast(n: Name, tr: seq<Event>, e: Event)
    ensures NamedByConn(n, tr + [e]) == NamedByConn(n, tr) + ByConn(n, e)
    ensures NamedByEntry(n, tr + [e]) == NamedByEntry(n, tr) + ByEntry(n, e)
  {
    CollectLast((e: Event) => ByConn(n, e), tr, e);
    CollectLast((e: Event) => ByEntry(n, e), tr, e);
  }

  lemma TaggedMore(items: seq<(nat, ServerMsg)>, more: seq<(nat, ServerMsg)>, t: nat)
    requires |more| <= 1
    ensures Tagged(items + more, t) == Tagged(items, t) + if more != [] && more[0].0 == t then [more[0].1] else []
    ensures Values(items + more) == Values(items) + if more != [] then [more[0].1] else []
  {
    if more == [] {
      assert items + more == items;
    } else {
      assert more == [more[0]];
      assert (items + more)[..|items|] == items;
      TaggedLast(items, more[0], t);
    }
  }

  lemma NamedWireLast(n: Name, tr: seq<Event>, e: Event, conn: nat)
    ensures Demux.Named(n, WireOn(conn, tr + [e])) ==
            Demux.Named(n, WireOn(conn, tr))
            + if e.Sent? && e.conn == conn && !e.msg.Result? && NameOf(e.msg) == n then [e.msg] else []
  {
    WireLast(conn, tr, e);
    if OnWire(conn, e) != [] {
      assert OnWire(conn, e) == [OnWire(conn, e)[0]];
      Demux.NamedLast(n, WireOn(conn, tr), OnWire(conn, e)[0]);
    } else {
      assert WireOn(conn, tr) + [] == WireOn(conn, tr);
    }
  }

  lemma {:induction false} NamedOnWire(n: Name, tr: seq<Event>, conn: nat)
    ensures Tagged(NamedByConn(n, tr), conn) == Demux.Named(n, WireOn(conn, tr))
  {
    if tr != [] {
      var init, e := tr[..|tr| - 1], tr[|tr| - 1];
      assert tr == init + [e];
      NamedOnWire(n, init, conn);
      NamedLast(n, init, e);
      TaggedMore(NamedByConn(n, init), ByConn(n, e), conn);
      NamedWireLast(n, init, e, conn);
    }
  }

  lemma {:induction false} SameValues(n: Name, tr: seq<Event>)
    ensures Values(NamedByConn(n, tr)) == Values(NamedByEntry(n, tr))
  {
    if tr != [] {
      var init, e := tr[..|tr| - 1], tr[|tr| - 1];
      assert tr == init + [e];
      SameValues(n, init);
      NamedLast(n, init, e);
      TaggedMore(NamedByConn(n, init), ByConn(n, e), 0);
      TaggedMore(NamedByEntry(n, init), ByEntry(n, e), 0);
    }
  }

  /** What process `x` sent under the name `n`, which is all it sent or nothing. */
  lemma {:induction false} NamedOfEntry(n: Name, tr: seq<Event>, x: nat, own: bool)
    requires forall i :: 0 <= i < |tr| && tr[i].Sent? ==> !tr[i].msg.Result?
    requires forall i :: 0 <= i < |tr| && tr[i].Sent? && tr[i].entry == x ==> (NameOf(tr[i].msg) == n <==> own)
    ensures Tagged(NamedByEntry(n, tr), x) == if own then SentBy(x, tr) else []
  {
    if tr != [] {
      var init, e := tr[..|tr| - 1], tr[|tr| - 1];
      assert tr == init + [e];
      NamedOfEntry(n, init, x, own);
      NamedLast(n, init, e);
      TaggedMore(NamedByEntry(n, init), ByEntry(n, e), x);
      SentLast(x, init, e);
    }
  }

  lemma SentLast(x: nat, tr: seq<Event>, e: Event)
    ensures SentBy(x, tr + [e]) == SentBy(x, tr) + if e.Sent? && e.entry == x then [e.msg] else []
  {
    MarksLast(x, tr, e);
    if MarkOf(x, e) != [] {
      var k := MarkOf(x, e)[0];
      assert MarkOf(x, e) == [k];
      CollectLast((k: L.Mark<ServerMsg>) => if k.Deliver? then [k.msg] else [], Marks(x, tr), k);
    }
  }

  lemma {:induction false} NamedBelow(n: Name, tr: seq<Event>, conns: nat, entries: nat)
    requires forall i :: 0 <= i < |tr| && tr[i].Sent? && NameOf(tr[i].msg) == n ==> tr[i].conn < conns && tr[i].entry < entries
    ensures forall i :: 0 <= i < |NamedByConn(n, tr)| ==> NamedByConn(n, tr)[i].0 < conns
    ensures forall i :: 0 <= i < |NamedByEntry(n, tr)| ==> NamedByEntry(n, tr)[i].0 < entries
  {
    if tr != [] {
      var init, e := tr[..|tr| - 1], tr[|tr| - 1];
      assert tr == init + [e];
      NamedBelow(n, init, conns, entries);
      NamedLast(n, init, e);
    }
  }

  lemma {:induction false} NamedRising(n: Name, tr: seq<Event>, conns: nat, entries: nat)
    requires SentRising(tr)
    requires forall i :: 0 <= i < |tr| && tr[i].Sent? && NameOf(tr[i].msg) == n ==> tr[i].conn < conns && tr[i].entry < entries
    ensures Rising(NamedByConn(n, tr), conns) && Rising(NamedByEntry(n, tr), entries)
  {
    NamedBelow(n, tr, conns, entries);
    if tr != [] {
      var init, e := tr[..|tr| - 1], tr[|tr| - 1];
      assert tr == init + [e];
      NamedRising(n, init, conns, entries);
      NamedLast(n, init, e);
      if ByConn(n, e) != [] {
        NamedBelow(n, init, e.conn + 1, e.entry + 1);
      }
    }
  }

  /** What the processes of a name sent, one process after the other, oldest first. */
  function Outputs(n: Name, children: seq<Child>, tr: seq<Event>, k: nat): seq<ServerMsg>
    requires k <= |children|
  {
    if k == 0 then []
    else Outputs(n, children, tr, k - 1) + if children[k - 1].name == n then SentBy(k - 1, tr) else []
  }

  lemma {:induction false} OutputsByEntry(n: Name, w: World, k: nat)
    requires SentSound(w) && k <= |w.children|
    ensures ByTag(NamedByEntry(n, w.trace), k) == Outputs(n, w.children, w.trace, k)
  {
    if k > 0 {
      OutputsByEntry(n, w, k - 1);
      forall i | 0 <= i < |w.trace| && w.trace[i].Sent?
        ensures !w.trace[i].msg.Result?
        ensures w.trace[i].entry == k - 1 ==> (NameOf(w.trace[i].msg) == n <==> w.children[k - 1].name == n)
      {
        assert SentFits(w, w.trace[i]);
      }
      NamedOfEntry(n, w.trace, k - 1, w.children[k - 1].name == n);
    }
  }

  /** The client of a connection registered the name before it heard anything, and kept it registered. */
  ghost predicate RegisteredThroughout(heard: seq<Demux.Input>, at: nat, n: Name) {
    && at < |heard| && heard[at] == Demux.Register(n)
    && Demux.Heard(heard[..at]) == []
    && Demux.Undisturbed(heard, at + 1, |heard|, n)
  }

  /** The queue handed out by that registration. */
  function QueueOf(heard: seq<Demux.Input>, at: nat): seq<Demux.QueueItem>
  {
    if at < |heard| && Demux.Registrations(heard[..at]) < |Demux.Run(heard).queues|
    then Demux.Run(heard).queues[Demux.Registrations(heard[..at])]
    else []
  }

  lemma QueueHeard(heard: seq<Demux.Input>, at: nat, n: Name)
    requires RegisteredThroughout(heard, at, n)
    ensures Demux.Payload(QueueOf(heard, at)) == Demux.Named(n, Demux.Heard(heard))
  {
    Demux.DemuxCorrect(heard, at, |heard|, n);
    assert heard[..at + 1][..at] == heard[..at];
    assert Demux.Heard(heard[..at + 1]) == [];
    Demux.GatherHeard(heard, at + 1, |heard|, n);
    assert heard[..|heard|] == heard;
  }

  lemma {:induction false} NamedPrefix(n: Name, a: seq<ServerMsg>, b: seq<ServerMsg>)
    requires a <= b
    ensures Demux.Named(n, a) <= Demux.Named(n, b)
    decreases |b|
  {
    if a != b {
      NamedPrefix(n, a, b[..|b| - 1]);
    }
  }

  /** A queue for a name registered throughout a connection holds, sentinel aside, a prefix of what the channel accepted for that name. */
  lemma {:induction false} QueueIsPrefix(o: Oracle, run: seq<Label>, conn: nat, heard: seq<Demux.Input>, at: nat, n: Name)
    requires Demux.Heard(heard) <= WireOn(conn, Run(o, run).trace) && RegisteredThroughout(heard, at, n)
    ensures Demux.Payload(QueueOf(heard, at)) <= Demux.Named(n, WireOn(conn, Run(o, run).trace))
  {
    QueueHeard(heard, at, n);
    NamedPrefix(n, Demux.Heard(heard), WireOn(conn, Run(o, run).trace));
  }

  /** What is in the clients' queues, connection by connection. */
  function Payloads(heard: seq<seq<Demux.Input>>, at: seq<nat>): (r: seq<seq<ServerMsg>>)
    requires |at| == |heard|
    ensures |r| == |heard|
  {
    seq(|heard|, c requires 0 <= c < |heard| => Demux.Payload(QueueOf(heard[c], at[c])))
  }

  /** The queues of all clients, one after the other. */
  function Joined(heard: seq<seq<Demux.Input>>, at: seq<nat>): seq<ServerMsg>
    requires |at| == |heard|
  {
    Concat(Payloads(heard, at), |heard|)
  }

  /** Every connection had a client that registered the name throughout and read all its channel accepted. */
  ghost predicate ReadByAll(w: World, heard: seq<seq<Demux.Input>>, at: seq<nat>, n: Name) {
    && |heard| == |at| == w.server.conns
    && forall c :: 0 <= c < |heard| ==> ReadBy(w, c, heard[c], at[c], n)
  }

  ghost predicate ReadBy(w: World, conn: nat, heard: seq<Demux.Input>, at: nat, n: Name) {
    RegisteredThroughout(heard, at, n) && Demux.Heard(heard) == WireOn(conn, w.trace)
  }

  lemma QueueOfConn(w: World, heard: seq<Demux.Input>, at: nat, n: Name, conn: nat)
    requires ReadBy(w, conn, heard, at, n)
    ensures Demux.Payload(QueueOf(heard, at)) == Tagged(NamedByConn(n, w.trace), conn)
  {
    QueueHeard(heard, at, n);
    NamedOnWire(n, w.trace, conn);
  }

  lemma JoinedByConn(w: World, heard: seq<seq<Demux.Input>>, at: seq<nat>, n: Name)
    requires ReadByAll(w, heard, at, n)
    ensures Joined(heard, at) == ByTag(NamedByConn(n, w.trace), |heard|)
  {
    var items := NamedByConn(n, w.trace);
    forall c | 0 <= c < |heard| ensures Payloads(heard, at)[c] == Tagged(items, c) {
      assert ReadBy(w, c, heard[c], at[c], n);
      QueueOfConn(w, heard[c], at[c], n, c);
    }
    ConcatByTag(Payloads(heard, at), items, |heard|);
  }

  /**
   Over any number of successive connections whose clients kept the name registered and read everything, the clients'
   queues joined together are exactly what the processes of that name sent, in order and without gap or duplicate.
   */
  lemma Handoff(o: Oracle, run: seq<Label>, heard: seq<seq<Demux.Input>>, at: seq<nat>, n: Name)
    requires ReadByAll(Run(o, run), heard, at, n)
    ensures var w := Run(o, run);
            Joined(heard, at) == Outputs(n, w.children, w.trace, |w.children|)
  {
    var w := Run(o, run);
    RunSents(o, run);
    forall i | 0 <= i < |w.trace| && w.trace[i].Sent? && NameOf(w.trace[i].msg) == n
      ensures w.trace[i].conn < w.server.conns && w.trace[i].entry < |w.children|
    {
      assert SentFits(w, w.trace[i]);
    }
    JoinedByConn(w, heard, at, n);
    NamedRising(n, w.trace, w.server.conns, |w.children|);
    SplitByTag(NamedByConn(n, w.trace), w.server.conns);
    SplitByTag(NamedByEntry(n, w.trace), |w.children|);
    SameValues(n, w.trace);
    OutputsByEntry(n, w, |w.children|);
  }

  lemma OutputsLast(n: Name, children: seq<Child>, tr: seq<Event>, k: nat)
    requires k < |children|
    ensures children[k].name != n ==> Outputs(n, children, tr, k + 1) == Outputs(n, children, tr, k)
    ensures children[k].name == n ==> Outputs(n, children, tr, k + 1) == Outputs(n, children, tr, k) + SentBy(k, tr)
  {
  }

  lemma {:induction false} OnlyOutput(n: Name, children: seq<Child>, tr: seq<Event>, k: nat, x: nat)
    requires k <= |children| && x < |children|
    requires forall c :: 0 <= c < |children| ==> (children[c].name == n <==> c == x)
    ensures Outputs(n, children, tr, k) == if x < k then SentBy(x, tr) else []
  {
    if k > 0 {
      OnlyOutput(n, children, tr, k - 1, x);
      OutputsLast(n, children, tr, k - 1);
      assert [] + SentBy(x, tr) == SentBy(x, tr);
    }
  }

  /**
   For a name spawned once, and when nothing was lost, the joined queues are the process's log up to the
   cursor, and together with the buffer the whole of what it was relayed.
   */
  lemma {:induction false} HandoffOfOne(o: Oracle, run: seq<Label>, heard: seq<seq<Demux.Input>>, at: seq<nat>, n: Name)
    requires ReadByAll(Run(o, run), heard, at, n) && n in Run(o, run).server.procs
    requires var w := Run(o, run);
             && (forall c :: 0 <= c < |w.children| && w.children[c].name == n ==> c == w.server.procs[n].child)
             && LostBy(w.server.procs[n].child, w.trace) == []
    ensures var w := Run(o, run);
            var e := w.server.procs[n];
            Joined(heard, at) + e.buffer == LoggedBy(e.child, w.trace)
  {
    var w := Run(o, run);
    Handoff(o, run, heard, at, n);
    EntryNames(o, run, n);
    OnlyOutput(n, w.children, w.trace, |w.children|, w.server.procs[n].child);
    NoLossNoGap(o, run, n);
  }

  /** The same for a process that has left the table, with what was forgotten then in place of the buffer. */
  lemma {:induction false} HandoffOfOneGone(o: Oracle, run: seq<Label>, heard: seq<seq<Demux.Input>>, at: seq<nat>, n: Name, x: nat)
    requires ReadByAll(Run(o, run), heard, at, n) && x < Run(o, run).server.spawns && !InTable(Run(o, run).server, x)
    requires var w := Run(o, run);
             && (forall c :: 0 <= c < |w.children| ==> (w.children[c].name == n <==> c == x))
             && LostBy(x, w.trace) == []
    ensures var tr := Run(o, run).trace;
            && |Forgets(x, tr)| == 1
            && Joined(heard, at) + Forgets(x, tr)[0] == LoggedBy(x, tr)
  {
    var w := Run(o, run);
    RunIdentities(o, run);
    Handoff(o, run, heard, at, n);
    OnlyOutput(n, w.children, w.trace, |w.children|, x);
    NoLossNoGapGone(o, run, x);
  }
}
