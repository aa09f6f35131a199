/** What a subscribe puts on the wire, and how it relates to the log and to a listing. */
module RustReplay {
  import opened Protocol
  import opened Sequences
  import opened StreamRelay
  import opened RustServer
  import opened RustRecord
  import opened RustMoves
  import opened RustHandlers
  import opened RustWorld
  import opened RustRuns
  import opened RustIsolation
  import opened RustTheorems
  import L = RelayLog

  lemma LoggedNames(o: Oracle, run: seq<Label>, x: nat, k: nat, msg: ServerMsg)
    requires k < |LoggedBy(x, Run(o, run).trace)| && LoggedBy(x, Run(o, run).trace)[k] == msg
    ensures x < |Run(o, run).children| && NameOf(msg) == Run(o, run).children[x].name
  {
    var tr := Run(o, run).trace;
    AppendedFrom(x, tr, k);
    var i :| 0 <= i < |tr| && tr[i].Logged? && tr[i].entry == x && tr[i].msg == LoggedBy(x, tr)[k];
    IncarnationIsolation(o, run, i);
  }

  lemma EntryNames(o: Oracle, run: seq<Label>, n: Name)
    requires n in Run(o, run).server.procs
    ensures var w := Run(o, run);
            w.server.procs[n].child < |w.children| && w.children[w.server.procs[n].child].name == n
  {
    RunSettled(o, run);
  }

  /** The buffer is a stretch of what was logged. */
  lemma BufferLogged(s: Server, tr: seq<Event>, n: Name) returns (at: nat)
    requires Refines(s, tr) && n in s.procs
    ensures var logged, b := LoggedBy(s.procs[n].child, tr), s.procs[n].buffer;
            at + |b| == |logged| && b == logged[at..]
  {
    L.MarksAccount(Marks(s.procs[n].child, tr), 0);
    assert Waiting(s.procs[n].child, tr) == s.procs[n].buffer;
    at := |LogOf(s.procs[n].child, tr).fates|;
  }

  lemma RunRefines(o: Oracle, run: seq<Label>)
    ensures Refines(Run(o, run).server, Run(o, run).trace)
  {
    RunSettled(o, run);
  }

  /** Every buffered message of a name was logged for its entry. */
  lemma BufferSpan(o: Oracle, run: seq<Label>, n: Name) returns (at: nat)
    requires n in Run(o, run).server.procs
    ensures var e, logged := Run(o, run).server.procs[n], LoggedBy(Run(o, run).server.procs[n].child, Run(o, run).trace);
            at + |e.buffer| == |logged| && forall k :: 0 <= k < |e.buffer| ==> e.buffer[k] == logged[at + k]
  {
    RunRefines(o, run);
    at := BufferLogged(Run(o, run).server, Run(o, run).trace, n);
  }

  /** Whatever is buffered for a name carries that name. */
  lemma BufferNames(o: Oracle, run: seq<Label>, n: Name)
    requires n in Run(o, run).server.procs
    ensures forall k :: 0 <= k < |Run(o, run).server.procs[n].buffer| ==>
              NameOf(Run(o, run).server.procs[n].buffer[k]) == n
  {
    var e := Run(o, run).server.procs[n];
    EntryNames(o, run, n);
    var at := BufferSpan(o, run, n);
    forall k | 0 <= k < |e.buffer| ensures NameOf(e.buffer[k]) == n {
      LoggedNames(o, run, e.child, at + k, e.buffer[k]);
    }
  }

  predicate NextIsSubscribe(w: World, env: Env, cmd: CmdMsg) {
    && w.mode == Serving && w.lines != [] && Timely(w, env)
    && w.lines[0] == Parsed(Cmd(cmd)) && cmd.verb == Subscribe
  }

  /** The channel takes `k` messages and a result. */
  predicate RoomFor(s: Server, k: nat) {
    s.client.Some? && (s.client.value.life.Some? ==> s.client.value.life.value > k)
  }

  /** The events of a subscribe: what the channel takes of the buffer, what it does not, and the answer. */
  lemma ReplayEvents(s: Server, cmd: CmdMsg)
    requires cmd.name in s.procs
    ensures var e := s.procs[cmd.name];
            var k := Room(s, |e.buffer|);
            CmdSubscribe(s, cmd).events ==
            Sents(Peer(s), e.child, e.buffer[..k]) + Losts(e.child, e.buffer[k..])
            + [Answered(Peer(s), RoomFor(s, |e.buffer|), cmd, SubscribeResult(cmd.name, e))]
  {
    var e := s.procs[cmd.name];
    ReplayExact(Put(s, cmd.name, e.(buffer := [], subscribed := true)), e.child, e.buffer);
  }

  lemma {:induction false} LoggedSame(x: nat, tr: seq<Event>, evs: seq<Event>)
    requires forall i :: 0 <= i < |evs| ==> !evs[i].Logged?
    ensures LoggedBy(x, tr + evs) == LoggedBy(x, tr)
  {
    if evs == [] {
      assert tr + evs == tr;
    } else {
      var init, e := evs[..|evs| - 1], evs[|evs| - 1];
      LoggedSame(x, tr, init);
      LastApart(tr, evs);
      MarksLast(x, tr + init, e);
      if MarkOf(x, e) != [] {
        CollectLast((m: L.Mark<ServerMsg>) => if m.Append? then [m.msg] else [], Marks(x, tr + init), MarkOf(x, e)[0]);
      }
    }
  }

  /** Draining moves the cursor to the end of the log and leaves the items alone. */
  lemma DrainedLog(s: Server, tr: seq<Event>, name: Name)
    requires Refines(s, tr) && name in s.procs
    ensures var e := s.procs[name];
            var tr' := tr + Replay(Put(s, name, e.(buffer := [], subscribed := true)), e.child, e.buffer).events;
            && L.Play(Marks(e.child, tr)).Some? && L.Play(Marks(e.child, tr')).Some?
            && L.Play(Marks(e.child, tr')).value.items == L.Play(Marks(e.child, tr)).value.items
            && L.Pending(L.Play(Marks(e.child, tr')).value) == []
  {
    var e := s.procs[name];
    var drained := Put(s, name, e.(buffer := [], subscribed := true));
    var evs := Replay(drained, e.child, e.buffer).events;
    ReplayShape(drained, e.child, e.buffer);
    ReplayDrains(drained, tr, e.child, e.buffer);
    LoggedSame(e.child, tr, evs);
    L.MarksAccount(Marks(e.child, tr), 0);
    L.MarksAccount(Marks(e.child, tr + evs), 0);
    assert Waiting(e.child, tr + evs) == [];
  }

  lemma SubscribeEvents(s: Server, cmd: CmdMsg) returns (answered: Event)
    requires cmd.name in s.procs
    ensures var e := s.procs[cmd.name];
            CmdSubscribe(s, cmd).events ==
            Replay(Put(s, cmd.name, e.(buffer := [], subscribed := true)), e.child, e.buffer).events + [answered]
    ensures answered.Answered?
  {
    var e := s.procs[cmd.name];
    var replay := Replay(Put(s, cmd.name, e.(buffer := [], subscribed := true)), e.child, e.buffer);
    answered := SendResult(replay.server, cmd, SubscribeResult(cmd.name, e)).events[0];
  }

  lemma AnswerUnmarked(x: nat, tr: seq<Event>, evs: seq<Event>, answered: Event)
    requires answered.Answered?
    ensures Marks(x, tr + (evs + [answered])) == Marks(x, tr + evs)
  {
    assert tr + (evs + [answered]) == (tr + evs) + [answered];
    MarksLast(x, tr + evs, answered);
  }

  lemma BufferPending(s: Server, tr: seq<Event>, name: Name)
    requires Refines(s, tr) && name in s.procs
    ensures var l := L.Play(Marks(s.procs[name].child, tr));
            l.Some? && s.procs[name].buffer == l.value.items[|l.value.fates|..]
  {
    assert Waiting(s.procs[name].child, tr) == s.procs[name].buffer;
  }

  lemma ReplayLog(s: Server, tr: seq<Event>, cmd: CmdMsg)
    requires Refines(s, tr) && cmd.name in s.procs
    ensures var x, tr' := s.procs[cmd.name].child, tr + CmdSubscribe(s, cmd).events;
            && L.Play(Marks(x, tr)).Some? && L.Play(Marks(x, tr')).Some?
            && L.Play(Marks(x, tr')).value.items == L.Play(Marks(x, tr)).value.items
            && L.Pending(L.Play(Marks(x, tr')).value) == []
  {
    var e := s.procs[cmd.name];
    DrainedLog(s, tr, cmd.name);
    var answered := SubscribeEvents(s, cmd);
    AnswerUnmarked(e.child, tr, Replay(Put(s, cmd.name, e.(buffer := [], subscribed := true)), e.child, e.buffer).events, answered);
  }

  /**
   Whatever the state of its channel, a subscribe puts the buffered messages on the wire as far as the channel
   takes them, all of that name and equal to the log from the cursor on, contiguously, and then its result, whose
   `replayed` counts the buffer; nothing comes in between. What the channel no longer takes is lost, and then so is
   the result. The log keeps its items, and its cursor moves to the end.
   */
  lemma {:induction false} ReplayFraming(o: Oracle, run: seq<Label>, env: Env, cmd: CmdMsg)
    requires NextIsSubscribe(Run(o, run), env, cmd) && cmd.name in Run(o, run).server.procs
    ensures var w := Run(o, run);
            var w' := Step(w, TakeLine(env));
            var e := w.server.procs[cmd.name];
            var conn, k, result := Peer(w.server), Room(w.server, |e.buffer|), SubscribeResult(cmd.name, e);
            && w'.trace == w.trace + (Sents(conn, e.child, e.buffer[..k]) + Losts(e.child, e.buffer[k..])
                                      + [Answered(conn, RoomFor(w.server, |e.buffer|), cmd, result)])
            && result.replayed == Some(|e.buffer|)
            && (RoomFor(w.server, |e.buffer|) ==> k == |e.buffer|)
            && (forall i :: 0 <= i < |e.buffer| ==> NameOf(e.buffer[i]) == cmd.name)
            && L.Play(Marks(e.child, w.trace)).Some? && L.Play(Marks(e.child, w'.trace)).Some?
            && var l, l' := L.Play(Marks(e.child, w.trace)).value, L.Play(Marks(e.child, w'.trace)).value;
               && e.buffer == l.items[|l.fates|..]
               && l'.items == l.items && |l'.fates| == |l.items|
  {
    var w := Run(o, run);
    BufferNames(o, run, cmd.name);
    ReplayEvents(w.server, cmd);
    StepTrace(w, TakeLine(env));
    RunRefines(o, run);
    BufferPending(w.server, w.trace, cmd.name);
    ReplayLog(w.server, w.trace, cmd);
  }

  // ---- later messages come later in the log ----

  lemma RunPlays(o: Oracle, run: seq<Label>, x: nat)
    ensures L.Play(Marks(x, Run(o, run).trace)).Some?
  {
    RunRefines(o, run);
  }

  function From(w: World, more: seq<Label>): World
  {
    if more == [] then w else Step(From(w, more[..|more| - 1]), more[|more| - 1])
  }

  lemma {:induction false} RunOn(o: Oracle, run: seq<Label>, more: seq<Label>)
    ensures Run(o, run + more) == From(Run(o, run), more)
    ensures Run(o, run).trace <= Run(o, run + more).trace
  {
    if more == [] {
      assert run + more == run;
    } else {
      var init, last := more[..|more| - 1], more[|more| - 1];
      RunOn(o, run, init);
      assert run + more == (run + init) + [last];
      assert (run + more)[..|run + more| - 1] == run + init;
      StepTrace(Run(o, run + init), last);
    }
  }

  /**
   As a run goes on, logs only grow at the end and fates are only handed out in log order: whatever leaves
   the server later stands later in the log.
   */
  lemma LogsOnlyGrow(o: Oracle, run: seq<Label>, more: seq<Label>, x: nat)
    ensures var before, after := L.Play(Marks(x, Run(o, run).trace)), L.Play(Marks(x, Run(o, run + more).trace));
            && before.Some? && after.Some?
            && before.value.items <= after.value.items
            && before.value.fates <= after.value.fates
  {
    RunOn(o, run, more);
    RunPlays(o, run, x);
    RunPlays(o, run + more, x);
    var tr, tr' := Run(o, run).trace, Run(o, run + more).trace;
    var tail := tr'[|tr|..];
    assert tr + tail == tr';
    CollectAppend((e: Event) => MarkOf(x, e), tr, tail);
    L.PlayGrows(Marks(x, tr), Marks(x, tail));
  }

  // ---- replayed counts what a listing counted ----

  /** The step relays a message for the name, or spawns, kills or subscribes to it. */
  predicate Touches(w: World, l: Label, n: Name) {
    || (l.TakeRelay? && w.queue != [] && w.queue[0].name == n)
    || (&& l.TakeLine? && w.lines != [] && w.lines[0].Parsed? && w.lines[0].msg.Cmd?
        && w.lines[0].msg.cmd.name == n
        && (w.lines[0].msg.cmd.verb.Spawn? || w.lines[0].msg.cmd.verb.Kill? || w.lines[0].msg.cmd.verb.Subscribe?))
  }

  ghost predicate SameBuffer(s: Server, s': Server, n: Name) {
    n in s.procs ==> n in s'.procs && s'.procs[n].child == s.procs[n].child && s'.procs[n].buffer == s.procs[n].buffer
  }

  lemma RelaySpares(s: Server, item: Relay, env: Env, n: Name)
    requires item.name != n
    ensures SameBuffer(s, HandleRelay(s, item, env).server, n)
  {
  }

  lemma LineSpares(s: Server, line: Line, env: Env, n: Name)
    requires line.Parsed? && line.msg.Cmd? && line.msg.cmd.name == n ==>
               !line.msg.cmd.verb.Spawn? && !line.msg.cmd.verb.Kill? && !line.msg.cmd.verb.Subscribe?
    ensures SameBuffer(s, HandleLine(s, line, env).server, n)
  {
    if line.Parsed? && line.msg.Cmd? {
      var cmd := line.msg.cmd;
      match cmd.verb {
        case Subscribe =>
          if cmd.name in s.procs {
            var e := s.procs[cmd.name];
            ReplayShape(Put(s, cmd.name, e.(buffer := [], subscribed := true)), e.child, e.buffer);
          }
        case Kill =>
        case Spawn =>
        case _ =>
      }
    }
  }

  lemma StepSpares(w: World, l: Label, n: Name)
    requires !Touches(w, l, n)
    ensures SameBuffer(w.server, Step(w, l).server, n)
  {
    match l {
      case TakeRelay(env) =>
        if w.queue != [] {
          RelaySpares(w.server, w.queue[0], env, n);
        }
      case TakeLine(env) =>
        if w.lines != [] {
          LineSpares(w.server, w.lines[0], env, n);
        }
      case ShutDown(plan) => KillAllSpares(w.server, plan);
      case _ =>
    }
  }

  lemma {:induction false} StretchSpares(w: World, more: seq<Label>, n: Name)
    requires forall k :: 0 <= k < |more| ==> !Touches(From(w, more[..k]), more[k], n)
    ensures SameBuffer(w.server, From(w, more).server, n)
  {
    if more != [] {
      var init := more[..|more| - 1];
      assert forall k :: 0 <= k < |init| ==> init[..k] == more[..k];
      StretchSpares(w, init, n);
      StepSpares(From(w, init), more[|more| - 1], n);
    }
  }

  predicate NextIs(w: World, env: Env, cmd: CmdMsg) {
    w.mode == Serving && w.lines != [] && Timely(w, env) && w.lines[0] == Parsed(Cmd(cmd))
  }

  /** The step ended with this answer. */
  ghost predicate LastAnswer(w: World, cmd: CmdMsg, result: ResultMsg) {
    && w.trace != []
    && var last := w.trace[|w.trace| - 1];
       last.Answered? && last.cmd == cmd && last.result == result
  }

  lemma ListAnswers(w: World, env: Env, cmd: CmdMsg)
    requires NextIs(w, env, cmd) && cmd.verb.List?
    ensures var w' := Step(w, TakeLine(env));
            && w'.server.procs == w.server.procs
            && LastAnswer(w', cmd, Ok("").(processes := Some(Listing(w.server.procs))))
  {
  }

  lemma SubscribeAnswered(w: World, env: Env, cmd: CmdMsg)
    requires NextIs(w, env, cmd) && cmd.verb.Subscribe? && cmd.name in w.server.procs
    ensures LastAnswer(Step(w, TakeLine(env)), cmd, SubscribeResult(cmd.name, w.server.procs[cmd.name]))
  {
    ReplayEvents(w.server, cmd);
    var w' := Step(w, TakeLine(env));
    assert w'.trace == w.trace + CmdSubscribe(w.server, cmd).events;
  }

  /**
   The `replayed` of a subscribe's answer equals the `buffered_msgs` for its name in the answer to an earlier
   listing, when in between no message was relayed for that name and it was neither spawned, killed nor
   subscribed to.
   */
  lemma {:induction false} ReplayedMatchesListing(
    w: World, env: Env, list: CmdMsg, more: seq<Label>, env': Env, cmd: CmdMsg)
    requires NextIs(w, env, list) && list.verb.List? && cmd.name in w.server.procs
    requires var w1 := Step(w, TakeLine(env));
             && (forall k :: 0 <= k < |more| ==> !Touches(From(w1, more[..k]), more[k], cmd.name))
             && NextIs(From(w1, more), env', cmd) && cmd.verb.Subscribe?
    ensures var w1 := Step(w, TakeLine(env));
            var w2 := Step(From(w1, more), TakeLine(env'));
            exists listed, subscribed ::
              && LastAnswer(w1, list, listed) && listed.processes.Some? && cmd.name in listed.processes.value
              && LastAnswer(w2, cmd, subscribed)
              && subscribed.replayed == Some(listed.processes.value[cmd.name].buffered)
  {
    var w1 := Step(w, TakeLine(env));
    var w2 := From(w1, more);
    ListAnswers(w, env, list);
    StretchSpares(w1, more, cmd.name);
    SubscribeAnswered(w2, env', cmd);
    assert LastAnswer(w1, list, Ok("").(processes := Some(Listing(w.server.procs))));
    assert LastAnswer(Step(w2, TakeLine(env')), cmd, SubscribeResult(cmd.name, w2.server.procs[cmd.name]));
  }
}
