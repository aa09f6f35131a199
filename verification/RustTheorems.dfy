/** What the Rust server guarantees, over every run. */
module RustTheorems {
  import opened Protocol
  import opened Sequences
  import opened StreamRelay
  import opened RustServer
  import opened RustRecord
  import opened RustMoves
  import opened RustWorld
  import opened RustRuns
  import opened RustDepartures
  import opened RustStreams
  import L = RelayLog

  // ---- the log and its cursor ----

  /** The messages relayed to entry `x` since it was spawned. */
  function LoggedBy(x: nat, tr: seq<Event>): seq<ServerMsg> {
    L.Appended(Marks(x, tr))
  }

  /** The messages of entry `x` that client channels accepted, over all connections. */
  function SentBy(x: nat, tr: seq<Event>): seq<ServerMsg> {
    L.Deliveries(Marks(x, tr))
  }

  function SentOn(conn: nat, x: nat, tr: seq<Event>): seq<ServerMsg> {
    L.DeliveriesTo(Marks(x, tr), conn)
  }

  function LostBy(x: nat, tr: seq<Event>): seq<ServerMsg> {
    L.Losses(Marks(x, tr))
  }

  /**
   In every run, what happened to every entry's output is a run of the reference log: each message
   was accepted by one connection or lost, in log order, up to the cursor. The log from the cursor on is
   the buffer of an entry in the table, and for an entry that has left it, what was forgotten then, once.
   */
  lemma {:induction false} LogRefinement(o: Oracle, run: seq<Label>, x: nat, conn: nat)
    ensures var s, tr := Run(o, run).server, Run(o, run).trace;
            && L.Play(Marks(x, tr)).Some?
            && var l := L.Play(Marks(x, tr)).value;
               && LoggedBy(x, tr) == l.items
               && SentBy(x, tr) == L.Kept(l, L.ANY)
               && SentOn(conn, x, tr) == L.Kept(l, L.To(conn))
               && LostBy(x, tr) == L.Kept(l, L.GONE)
               && (forall n :: Present(s, n, x) ==> s.procs[n].buffer == l.items[|l.fates|..])
               && Forgets(x, tr) == if x < s.spawns && !InTable(s, x) then [l.items[|l.fates|..]] else []
  {
    RunSettled(o, run);
    RunDepartures(o, run);
    assert LeftOnce(x, Run(o, run).server, Run(o, run).trace);
    L.MarksAccount(Marks(x, Run(o, run).trace), conn);
  }

  /** An entry that lost nothing has a log without gap, duplicate or reordering, up to its buffer. */
  lemma {:induction false} NoLossNoGap(o: Oracle, run: seq<Label>, n: Name)
    requires n in Run(o, run).server.procs
    ensures var w := Run(o, run);
            var e := w.server.procs[n];
            LostBy(e.child, w.trace) == [] ==> SentBy(e.child, w.trace) + e.buffer == LoggedBy(e.child, w.trace)
  {
    var w := Run(o, run);
    var x := w.server.procs[n].child;
    LogRefinement(o, run, x, 0);
    if LostBy(x, w.trace) == [] {
      L.GapFree(Marks(x, w.trace));
    }
  }

  /** The same for an entry that has left the table, up to what was forgotten with it. */
  lemma {:induction false} NoLossNoGapGone(o: Oracle, run: seq<Label>, x: nat)
    requires x < Run(o, run).server.spawns && !InTable(Run(o, run).server, x)
    ensures var tr := Run(o, run).trace;
            && |Forgets(x, tr)| == 1
            && (LostBy(x, tr) == [] ==> SentBy(x, tr) + Forgets(x, tr)[0] == LoggedBy(x, tr))
  {
    var tr := Run(o, run).trace;
    LogRefinement(o, run, x, 0);
    if LostBy(x, tr) == [] {
      L.GapFree(Marks(x, tr));
    }
  }

  // ---- what is lost, and when ----

  function Sents(conn: nat, x: nat, msgs: seq<ServerMsg>): (r: seq<Event>)
    ensures |r| == |msgs|
  {
    seq(|msgs|, i requires 0 <= i < |msgs| => Sent(conn, x, msgs[i]))
  }

  function Losts(x: nat, msgs: seq<ServerMsg>): (r: seq<Event>)
    ensures |r| == |msgs|
  {
    seq(|msgs|, i requires 0 <= i < |msgs| => Lost(x, msgs[i]))
  }

  /** How many of `k` sends the client's channel accepts. */
  function Room(s: Server, k: nat): (r: nat)
    ensures r <= k
  {
    if s.client.None? then 0
    else if s.client.value.life.None? || k <= s.client.value.life.value then k
    else s.client.value.life.value
  }

  /** Only the channel has changed, by what it had room for of `k` sends. */
  ghost predicate Spent(s: Server, r: Server, k: nat) {
    && r == s.(client := r.client)
    && Peer(r) == Peer(s)
    && (s.client.Some? <==> r.client.Some?)
    && (s.client.Some? && s.client.value.life.None? ==> r.client.value.life.None?)
    && (s.client.Some? && s.client.value.life.Some? ==> r.client.value.life == Some(s.client.value.life.value - Room(s, k)))
  }

  lemma {:induction false} ReplaySpends(s: Server, x: nat, msgs: seq<ServerMsg>)
    ensures Spent(s, Replay(s, x, msgs).server, |msgs|)
  {
    if msgs != [] {
      ReplaySpends(s, x, msgs[..|msgs| - 1]);
    }
  }

  /** A replay is accepted up to the moment the channel closes; the rest is lost. */
  lemma {:induction false} ReplayExact(s: Server, x: nat, msgs: seq<ServerMsg>)
    ensures var k := Room(s, |msgs|);
            Replay(s, x, msgs).events == Sents(Peer(s), x, msgs[..k]) + Losts(x, msgs[k..])
    ensures Spent(s, Replay(s, x, msgs).server, |msgs|)
  {
    ReplaySpends(s, x, msgs);
    if msgs != [] {
      var init, last := msgs[..|msgs| - 1], msgs[|msgs| - 1];
      ReplayExact(s, x, init);
      var k, k' := Room(s, |init|), Room(s, |msgs|);
      if k' == |msgs| {
        assert msgs[..k'] == init[..k] + [last];
        assert Sents(Peer(s), x, msgs[..k']) == Sents(Peer(s), x, init[..k]) + [Sent(Peer(s), x, last)];
      } else {
        assert k' == k && msgs[..k] == init[..k] && msgs[k..] == init[k..] + [last];
        assert Losts(x, msgs[k..]) == Losts(x, init[k..]) + [Lost(x, last)];
      }
    }
  }

  /** The step is a subscribe whose channel accepts fewer messages than are buffered. */
  ghost predicate SubscribesTooLate(w: World, l: Label) {
    && l.TakeLine? && w.mode == Serving && w.lines != [] && Timely(w, l.env)
    && w.lines[0].Parsed? && w.lines[0].msg.Cmd? && w.lines[0].msg.cmd.verb.Subscribe?
    && w.lines[0].msg.cmd.name in w.server.procs
    && var b := w.server.procs[w.lines[0].msg.cmd.name].buffer;
       Room(w.server, |b|) < |b|
  }

  /** The step takes an entry with unread output out of the table. */
  ghost predicate RemovesUnread(w: World, l: Label) {
    && l.TakeLine? && w.mode == Serving && w.lines != [] && Timely(w, l.env)
    && w.lines[0].Parsed? && w.lines[0].msg.Cmd? && TakesOut(w.server, w.lines[0].msg.cmd)
  }

  /** A kill of a name in the table, or a spawn under it when its process has exited, with messages still buffered. */
  ghost predicate TakesOut(s: Server, cmd: CmdMsg) {
    && cmd.name in s.procs && s.procs[cmd.name].buffer != []
    && (cmd.verb.Kill? || (cmd.verb.Spawn? && s.procs[cmd.name].status == Exited && cmd.cliArgs != []))
  }

  ghost predicate Loses(evs: seq<Event>) {
    exists i :: 0 <= i < |evs| && evs[i].Lost?
  }

  ghost predicate DropsUnread(evs: seq<Event>) {
    exists i :: 0 <= i < |evs| && evs[i].Forgotten? && evs[i].msgs != []
  }

  predicate Harmless(e: Event) {
    !e.Lost? && !e.Forgotten?
  }

  ghost predicate LosesNothing(evs: seq<Event>) {
    forall i :: 0 <= i < |evs| ==> Harmless(evs[i])
  }

  lemma SubscribeLoses(s: Server, cmd: CmdMsg)
    ensures Loses(CmdSubscribe(s, cmd).events)
            <==> cmd.name in s.procs && Room(s, |s.procs[cmd.name].buffer|) < |s.procs[cmd.name].buffer|
    ensures !DropsUnread(CmdSubscribe(s, cmd).events)
  {
    if cmd.name in s.procs {
      var e := s.procs[cmd.name];
      var drained := Put(s, cmd.name, e.(buffer := [], subscribed := true));
      var evs := Replay(drained, e.child, e.buffer).events;
      ReplayLoses(drained, e.child, e.buffer);
      var all := CmdSubscribe(s, cmd).events;
      assert |all| == |evs| + 1 && all[..|evs|] == evs && all[|evs|].Answered?;
      if Loses(evs) {
        var i :| 0 <= i < |evs| && evs[i].Lost?;
        assert all[i] == evs[i];
      }
    }
  }

  lemma ReplayLoses(s: Server, x: nat, msgs: seq<ServerMsg>)
    ensures var evs := Replay(s, x, msgs).events;
            && (Loses(evs) <==> Room(s, |msgs|) < |msgs|)
            && forall i :: 0 <= i < |evs| ==> !evs[i].Forgotten?
  {
    var k, evs := Room(s, |msgs|), Replay(s, x, msgs).events;
    ReplayExact(s, x, msgs);
    if k < |msgs| {
      assert evs[k] == Losts(x, msgs[k..])[0];
    }
  }

  lemma KillProcessLosesNothing(s: Server, name: Name, env: Env)
    ensures LosesNothing(KillProcess(s, name, env).events)
    ensures name in s.procs ==>
              var r := KillProcess(s, name, env).server.procs;
              name in r && r[name].child == s.procs[name].child && r[name].buffer == s.procs[name].buffer
  {
  }

  /** A kill forgets exactly what was buffered. */
  lemma KillForgets(s: Server, cmd: CmdMsg, env: Env)
    ensures var evs := CmdKill(s, cmd, env).events;
            && !Loses(evs)
            && (cmd.name in s.procs ==> Forgotten(s.procs[cmd.name].child, cmd.name, s.procs[cmd.name].buffer) in evs)
            && (DropsUnread(evs) <==> cmd.name in s.procs && s.procs[cmd.name].buffer != [])
  {
    if cmd.name in s.procs {
      var killed := KillProcess(s, cmd.name, env);
      KillProcessLosesNothing(s, cmd.name, env);
      var evs, k := CmdKill(s, cmd, env).events, |killed.events|;
      assert forall i :: 0 <= i < k ==> evs[i] == killed.events[i];
      assert evs[k] == Forgotten(s.procs[cmd.name].child, cmd.name, s.procs[cmd.name].buffer);
    }
  }

  lemma FreshLosesNothing(s: Server, cmd: CmdMsg, env: Env)
    ensures LosesNothing(SpawnFresh(s, cmd, env).events)
  {
  }

  /** So does a spawn under the name of a process that has exited, even one that fails. */
  lemma SpawnForgets(s: Server, cmd: CmdMsg, env: Env)
    ensures var evs := CmdSpawn(s, cmd, env).events;
            && !Loses(evs)
            && (cmd.name in s.procs && s.procs[cmd.name].status == Exited ==>
                  Forgotten(s.procs[cmd.name].child, cmd.name, s.procs[cmd.name].buffer) in evs)
            && (DropsUnread(evs) <==>
                  cmd.name in s.procs && s.procs[cmd.name].status == Exited && s.procs[cmd.name].buffer != [])
  {
    if !(cmd.name in s.procs && s.procs[cmd.name].status == Running) {
      var removed := Remove(s, cmd.name);
      FreshLosesNothing(removed.server, cmd, env);
      var evs := CmdSpawn(s, cmd, env).events;
      if cmd.name in s.procs {
        assert evs[0] == Forgotten(s.procs[cmd.name].child, cmd.name, s.procs[cmd.name].buffer);
      }
    }
  }

  lemma OthersLoseNothing(s: Server, line: Line, env: Env)
    requires line.Parsed? && line.msg.Cmd? ==>
               !line.msg.cmd.verb.Subscribe? && !line.msg.cmd.verb.Kill? && !line.msg.cmd.verb.Spawn?
    ensures LosesNothing(HandleLine(s, line, env).events)
  {
  }

  lemma RelayLosesNothing(s: Server, item: Relay, env: Env)
    ensures LosesNothing(HandleRelay(s, item, env).events)
  {
  }

  lemma {:induction false} KillAllLosesNothing(s: Server, plan: seq<(Name, Env)>)
    ensures LosesNothing(KillAll(s, plan).events)
  {
    if plan != [] {
      var before, last := KillAll(s, plan[..|plan| - 1]), plan[|plan| - 1];
      KillAllLosesNothing(s, plan[..|plan| - 1]);
      KillProcessLosesNothing(before.server, last.0, last.1);
    }
  }

  /** What a step adds to the record. */
  function NewEvents(w: World, l: Label): seq<Event>
  {
    match l
    case Accept(life) => if w.mode == Outer then Connect(w.server, life).events else []
    case TakeRelay(env) =>
      if (w.mode == Outer || w.mode == Serving) && w.queue != [] && Timely(w, env)
      then HandleRelay(w.server, w.queue[0], env).events else []
    case TakeLine(env) =>
      if w.mode == Serving && w.lines != [] && Timely(w, env) && !Panics(w.server, w.lines[0])
      then HandleLine(w.server, w.lines[0], env).events else []
    case ShutDown(plan) => if w.mode == Outer && Covers(plan, w.server.procs) then KillAll(w.server, plan).events else []
    case ClientWrites(line) => if w.mode == Serving && !w.lineEof then [Arrived(Peer(w.server), line)] else []
    case _ => []
  }

  lemma StepTrace(w: World, l: Label)
    ensures Step(w, l).trace == w.trace + NewEvents(w, l)
  {
  }

  lemma LineLosses(s: Server, line: Line, env: Env)
    requires !Panics(s, line)
    ensures var evs := HandleLine(s, line, env).events;
            && (Loses(evs) <==>
                  && line.Parsed? && line.msg.Cmd? && line.msg.cmd.verb.Subscribe? && line.msg.cmd.name in s.procs
                  && var b := s.procs[line.msg.cmd.name].buffer;
                     Room(s, |b|) < |b|)
            && (DropsUnread(evs) <==> line.Parsed? && line.msg.Cmd? && TakesOut(s, line.msg.cmd))
  {
    if line.Parsed? && line.msg.Cmd? {
      match line.msg.cmd.verb {
        case Subscribe => SubscribeLoses(s, line.msg.cmd);
        case Kill => KillForgets(s, line.msg.cmd, env);
        case Spawn => SpawnForgets(s, line.msg.cmd, env);
        case _ => OthersLoseNothing(s, line, env);
      }
    } else {
      OthersLoseNothing(s, line, env);
    }
  }

  /**
   A step loses messages on a closed channel exactly when it is a subscribe that comes too late for it. It takes
   unread messages out of reach exactly when it removes an entry with a nonempty buffer: a kill, or a spawn under
   the name of a process that has exited. No other step loses or forgets anything.
   */
  lemma {:induction false} LossExactly(w: World, l: Label)
    ensures w.trace <= Step(w, l).trace
    ensures Loses(Step(w, l).trace[|w.trace|..]) <==> SubscribesTooLate(w, l)
    ensures DropsUnread(Step(w, l).trace[|w.trace|..]) <==> RemovesUnread(w, l)
  {
    StepTrace(w, l);
    assert Step(w, l).trace[|w.trace|..] == NewEvents(w, l);
    match l {
      case TakeRelay(env) =>
        if w.queue != [] {
          RelayLosesNothing(w.server, w.queue[0], env);
        }
      case TakeLine(env) =>
        if w.mode == Serving && w.lines != [] && Timely(w, env) && !Panics(w.server, w.lines[0]) {
          LineLosses(w.server, w.lines[0], env);
        }
      case ShutDown(plan) => KillAllLosesNothing(w.server, plan);
      case _ =>
    }
  }

  // ---- subscriptions ----

  /**
   In every reachable state a subscribed entry has an empty buffer and there is a client channel;
   outside `handle_client` nothing is subscribed and there is no channel, so accepting a
   connection never finds an old client to drop.
   */
  lemma {:induction false} SubscriptionInvariant(o: Oracle, run: seq<Label>)
    ensures var w := Run(o, run);
            && (forall n :: n in w.server.procs && w.server.procs[n].subscribed ==>
                  w.server.procs[n].buffer == [] && w.server.client.Some?)
            && (w.mode == Serving ==> w.server.client.Some?)
            && (w.mode == Outer || w.mode == Finished ==>
                  w.server.client.None? && forall n :: n in w.server.procs ==> !w.server.procs[n].subscribed)
  {
    RunSettled(o, run);
  }

  // ---- running children ----

  /** A running entry's child is unreaped and has a pid: no run takes a branch for a missing pid. */
  lemma {:induction false} RunningIsUnreaped(o: Oracle, run: seq<Label>, n: Name)
    requires n in Run(o, run).server.procs
    ensures var w := Run(o, run);
            var e := w.server.procs[n];
            e.status == Running ==> e.Pid().Some? && Reaps(e.child, w.trace) == []
  {
    RunSettled(o, run);
    var w := Run(o, run);
    assert Known(w.server.procs[n], Reaps(w.server.procs[n].child, w.trace));
  }

  ghost predicate OnlyExits(s: Server, s': Server) {
    forall n :: n in s.procs && n in s'.procs && s'.procs[n].child == s.procs[n].child && s.procs[n].status == Exited ==>
      s'.procs[n].status == Exited
  }

  lemma OnlyExitsChain(s: Server, mid: Server, last: Server)
    requires forall n :: n in s.procs ==> s.procs[n].child < s.spawns
    requires Lineage(s, mid) && Lineage(mid, last) && OnlyExits(s, mid) && OnlyExits(mid, last)
    ensures OnlyExits(s, last)
  {
  }

  lemma MoveOnlyExits(s: Server, m: Move)
    requires Allowed(s, m)
    ensures OnlyExits(s, Do(s, m).server) && Lineage(s, Do(s, m).server)
  {
    if m.Drain? {
      var e := s.procs[m.name];
      ReplayShape(Put(s, m.name, e.(buffer := [], subscribed := true)), e.child, e.buffer);
    }
  }

  lemma {:induction false} ChainOnlyExits(s: Server, moves: seq<Move>)
    requires Legal(s, moves) && Identities(s)
    ensures OnlyExits(s, Chain(s, moves).server)
  {
    if moves != [] {
      var init, m := moves[..|moves| - 1], moves[|moves| - 1];
      var before := Chain(s, init).server;
      ChainOnlyExits(s, init);
      ChainLineage(s, init);
      MoveOnlyExits(before, m);
      OnlyExitsChain(s, before, Do(before, m).server);
    }
  }

  /** While an entry stays, its status never goes back from exited to running. */
  lemma {:induction false} StatusOnlyFalls(o: Oracle, run: seq<Label>, l: Label)
    ensures OnlyExits(Run(o, run).server, Step(Run(o, run), l).server)
  {
    RunSettled(o, run);
    var moves := StepMoves(Run(o, run), l);
    ChainOnlyExits(Run(o, run).server, moves);
  }

  // ---- exit codes ----

  /** The code, when there is one, is the status code with which the child of entry `x` was reaped, the only time it was. */
  ghost predicate TrueCode(x: nat, code: Option<int>, tr: seq<Event>) {
    code.Some? ==> Reaps(x, tr) == [code]
  }

  /** Every exit code the server ever logs for an entry, or would put into a listing or a subscribe result, is true. */
  lemma {:induction false} TruthfulExitCodes(o: Oracle, run: seq<Label>)
    ensures var w := Run(o, run);
            && (forall i :: 0 <= i < |w.trace| && w.trace[i].Logged? && w.trace[i].msg.Exit? ==>
                  TrueCode(w.trace[i].entry, w.trace[i].msg.code, w.trace))
            && (forall n :: n in w.server.procs ==>
                  && TrueCode(w.server.procs[n].child, Listing(w.server.procs)[n].exitCode, w.trace)
                  && TrueCode(w.server.procs[n].child, SubscribeResult(n, w.server.procs[n]).exitCode, w.trace))
  {
    RunSettled(o, run);
    var w := Run(o, run);
    forall n | n in w.server.procs
      ensures TrueCode(w.server.procs[n].child, w.server.procs[n].exitCode, w.trace)
    {
      assert Known(w.server.procs[n], Reaps(w.server.procs[n].child, w.trace));
    }
  }

  /** Every message in a log was logged for that entry. */
  lemma {:induction false} AppendedFrom(x: nat, tr: seq<Event>, k: nat)
    requires k < |LoggedBy(x, tr)|
    ensures exists i :: 0 <= i < |tr| && tr[i].Logged? && tr[i].entry == x && tr[i].msg == LoggedBy(x, tr)[k]
  {
    var init, last := tr[..|tr| - 1], tr[|tr| - 1];
    MarksLast(x, init, last);
    assert init + [last] == tr;
    if MarkOf(x, last) == [] {
      AppendedFrom(x, init, k);
    } else {
      CollectLast((m: L.Mark<ServerMsg>) => if m.Append? then [m.msg] else [], Marks(x, init), MarkOf(x, last)[0]);
      if k < |LoggedBy(x, init)| {
        AppendedFrom(x, init, k);
      } else {
        assert last.Logged? && last.entry == x && last.msg == LoggedBy(x, tr)[k];
      }
    }
  }
}
