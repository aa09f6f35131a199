/** When the Rust server calls a process idle. */
module RustIdle {
  import opened Protocol
  import opened StreamRelay
  import opened RustServer
  import opened RustMoves
  import opened RustWorld
  import opened RustRuns

  datatype Touch = Untouched | Given | Responded

  /** The event gives entry `x` work, or is a response from it; being spawned counts as a response. */
  function TouchOf(x: nat, e: Event): Touch {
    match e
    case StdinWritten(y, _) => if y == x then Given else Untouched
    case Spawned(y, _) => if y == x then Responded else Untouched
    case Logged(y, _, msg) => if y == x && msg.Stdout? then Responded else Untouched
    case _ => Untouched
  }

  /** The latest of these events. */
  function LatestTouch(x: nat, tr: seq<Event>): Touch
  {
    if tr == [] then Untouched
    else
      var last := TouchOf(x, tr[|tr| - 1]);
      if last == Untouched then LatestTouch(x, tr[..|tr| - 1]) else last
  }

  lemma TouchLast(x: nat, tr: seq<Event>, e: Event)
    ensures LatestTouch(x, tr + [e]) == if TouchOf(x, e) == Untouched then LatestTouch(x, tr) else TouchOf(x, e)
  {
    assert (tr + [e])[..|tr|] == tr;
  }

  lemma {:induction false} TouchNone(x: nat, tr: seq<Event>, evs: seq<Event>)
    requires forall i :: 0 <= i < |evs| ==> TouchOf(x, evs[i]) == Untouched
    ensures LatestTouch(x, tr + evs) == LatestTouch(x, tr)
  {
    if evs == [] {
      assert tr + evs == tr;
    } else {
      var init, last := evs[..|evs| - 1], evs[|evs| - 1];
      TouchNone(x, tr, init);
      TouchLast(x, tr + init, last);
      assert (tr + init) + [last] == tr + evs;
    }
  }

  /** A response makes the entry idle; when clock readings differ, being given work makes it busy. */
  ghost predicate Clocked(e: Entry, tr: seq<Event>, now: nat, strict: bool) {
    && e.lastStdin <= now && e.lastStdout <= now
    && LatestTouch(e.child, tr) != Untouched
    && (LatestTouch(e.child, tr) == Responded ==> e.Idle())
    && (strict && LatestTouch(e.child, tr) == Given ==> !e.Idle())
  }

  ghost predicate AllClocked(w: World, strict: bool) {
    forall n :: n in w.server.procs ==> Clocked(w.server.procs[n], w.trace, w.now, strict)
  }

  /** Entries keep their child and timestamps, and no event touches them. */
  ghost predicate Untimed(s: Server, e: Effect) {
    && (forall n :: n in e.server.procs ==>
          && n in s.procs
          && e.server.procs[n].child == s.procs[n].child
          && e.server.procs[n].lastStdin == s.procs[n].lastStdin
          && e.server.procs[n].lastStdout == s.procs[n].lastStdout)
    && (forall i, x :: 0 <= i < |e.events| ==> TouchOf(x, e.events[i]) == Untouched)
  }

  lemma UntimedKeeps(s: Server, e: Effect, tr: seq<Event>, now: nat, now': nat, strict: bool)
    requires Untimed(s, e) && now <= now'
    requires forall n :: n in s.procs ==> Clocked(s.procs[n], tr, now, strict)
    ensures forall n :: n in e.server.procs ==> Clocked(e.server.procs[n], tr + e.events, now', strict)
  {
    forall n | n in e.server.procs ensures Clocked(e.server.procs[n], tr + e.events, now', strict) {
      TouchNone(e.server.procs[n].child, tr, e.events);
      assert Clocked(s.procs[n], tr, now, strict);
    }
  }

  lemma PassUntimed(s: Server, item: Relay, msg: ServerMsg)
    requires !msg.Stdout?
    ensures Untimed(s, RelayOrBuffer(s, item, msg))
  {
  }

  lemma SettleUntimed(s: Server, name: Name, code: Option<int>, wait: Wait)
    requires name in s.procs
    ensures var settled := Settle(s.procs[name], code, wait);
            Untimed(s, Effect(Put(s, name, settled.0), settled.1))
  {
  }

  lemma EndedUntimed(s: Server, item: Relay, env: Env)
    requires item.body.Ended? && item.name in s.procs
    ensures Untimed(s, HandleRelay(s, item, env))
  {
    var settled := Settle(s.procs[item.name], item.body.code, env.soon);
    var first := Effect(Put(s, item.name, settled.0), settled.1);
    SettleUntimed(s, item.name, item.body.code, env.soon);
    PassUntimed(first.server, item, Exit(item.name, settled.0.exitCode));
    UntimedChain(s, first, RelayOrBuffer(first.server, item, Exit(item.name, settled.0.exitCode)));
  }

  lemma RelayUntimed(s: Server, item: Relay, env: Env)
    requires !item.body.OutLine? || item.name !in s.procs
    ensures Untimed(s, HandleRelay(s, item, env))
  {
    if item.name in s.procs {
      match item.body {
        case TextLine(text) => PassUntimed(s, item, Stderr(item.name, text));
        case Ended(code) => EndedUntimed(s, item, env);
      }
    }
  }

  lemma OutLineEffect(s: Server, item: Relay, env: Env)
    requires item.body.OutLine? && item.name in s.procs
    ensures var r := HandleRelay(s, item, env);
            && r.server.procs.Keys == s.procs.Keys
            && (forall n :: n in s.procs ==>
                  && r.server.procs[n].child == s.procs[n].child
                  && r.server.procs[n].lastStdin == s.procs[n].lastStdin
                  && r.server.procs[n].lastStdout == if n == item.name then env.t0 else s.procs[n].lastStdout)
            && |r.events| > 0
            && (forall x :: TouchOf(x, r.events[0]) == if x == s.procs[item.name].child then Responded else Untouched)
            && (forall i, x :: 1 <= i < |r.events| ==> TouchOf(x, r.events[i]) == Untouched)
  {
  }

  lemma RelayClocked(s: Server, item: Relay, env: Env, tr: seq<Event>, now: nat, strict: bool)
    requires Identities(s)
    requires now <= env.t0 <= env.t1
    requires forall n :: n in s.procs ==> Clocked(s.procs[n], tr, now, strict)
    ensures var r := HandleRelay(s, item, env);
            forall n :: n in r.server.procs ==> Clocked(r.server.procs[n], tr + r.events, env.t1, strict)
  {
    var r := HandleRelay(s, item, env);
    if item.body.OutLine? && item.name in s.procs {
      OutLineEffect(s, item, env);
      var first, rest := r.events[0], r.events[1..];
      assert tr + r.events == (tr + [first]) + rest;
      forall n | n in r.server.procs ensures Clocked(r.server.procs[n], tr + r.events, env.t1, strict) {
        assert Clocked(s.procs[n], tr, now, strict);
        TouchLast(s.procs[n].child, tr, first);
        TouchNone(s.procs[n].child, tr + [first], rest);
      }
    } else {
      RelayUntimed(s, item, env);
      UntimedKeeps(s, r, tr, now, env.t1, strict);
    }
  }

  lemma StdinClocked(s: Server, name: Name, data: Json, env: Env, tr: seq<Event>, now: nat, strict: bool)
    requires Identities(s)
    requires now <= env.t0 <= env.t1 && (strict ==> now < env.t0)
    requires forall n :: n in s.procs ==> Clocked(s.procs[n], tr, now, strict)
    ensures var r := HandleStdin(s, name, data, env);
            forall n :: n in r.server.procs ==> Clocked(r.server.procs[n], tr + r.events, env.t1, strict)
  {
    var r := HandleStdin(s, name, data, env);
    if r.events == [] {
      UntimedKeeps(s, r, tr, now, env.t1, strict);
    } else {
      forall n | n in r.server.procs ensures Clocked(r.server.procs[n], tr + r.events, env.t1, strict) {
        assert Clocked(s.procs[n], tr, now, strict);
        TouchLast(s.procs[n].child, tr, r.events[0]);
      }
    }
  }

  /** A fresh entry is idle. */
  lemma BornClocked(child: nat, pid: nat, name: Name, env: Env, tr: seq<Event>, last: Event, now: nat, strict: bool)
    requires now <= env.t0 <= env.t1 && last.Answered?
    ensures Clocked(NewEntry(child, pid, env.t0, env.t1), tr + [Spawned(child, name), last], env.t1, strict)
  {
    TouchLast(child, tr, Spawned(child, name));
    TouchLast(child, tr + [Spawned(child, name)], last);
    assert tr + [Spawned(child, name), last] == (tr + [Spawned(child, name)]) + [last];
  }

  lemma OtherClocked(e: Entry, child: nat, name: Name, tr: seq<Event>, last: Event, now: nat, now': nat, strict: bool)
    requires Clocked(e, tr, now, strict) && now <= now' && e.child != child && last.Answered?
    ensures Clocked(e, tr + [Spawned(child, name), last], now', strict)
  {
    TouchLast(e.child, tr, Spawned(child, name));
    TouchLast(e.child, tr + [Spawned(child, name)], last);
    assert tr + [Spawned(child, name), last] == (tr + [Spawned(child, name)]) + [last];
  }

  /** Spawning under a free name. */
  lemma FreshClocked(s: Server, cmd: CmdMsg, env: Env, tr: seq<Event>, now: nat, strict: bool)
    requires Identities(s) && now <= env.t0 <= env.t1 && cmd.name !in s.procs
    requires forall n :: n in s.procs ==> Clocked(s.procs[n], tr, now, strict)
    ensures var r := SpawnFresh(s, cmd, env);
            forall n :: n in r.server.procs ==> Clocked(r.server.procs[n], tr + r.events, env.t1, strict)
  {
    var r := SpawnFresh(s, cmd, env);
    match env.spawn {
      case SpawnFailed(_) => UntimedKeeps(s, r, tr, now, env.t1, strict);
      case Started(pid) =>
        var last := r.events[1];
        assert r.events == [Spawned(s.spawns, cmd.name), last];
        forall n | n in r.server.procs ensures Clocked(r.server.procs[n], tr + r.events, env.t1, strict) {
          if n == cmd.name {
            BornClocked(s.spawns, pid, cmd.name, env, tr, last, now, strict);
          } else {
            OtherClocked(s.procs[n], s.spawns, cmd.name, tr, last, now, env.t1, strict);
          }
        }
    }
  }

  lemma RemoveUntimed(s: Server, name: Name)
    ensures Untimed(s, Remove(s, name))
  {
  }

  lemma RunningUntimed(s: Server, cmd: CmdMsg, env: Env)
    requires cmd.name in s.procs && s.procs[cmd.name].status == Running
    ensures Untimed(s, CmdSpawn(s, cmd, env))
  {
  }

  lemma SpawnClocked(s: Server, cmd: CmdMsg, env: Env, tr: seq<Event>, now: nat, strict: bool)
    requires Identities(s)
    requires now <= env.t0 <= env.t1
    requires forall n :: n in s.procs ==> Clocked(s.procs[n], tr, now, strict)
    ensures var r := CmdSpawn(s, cmd, env);
            forall n :: n in r.server.procs ==> Clocked(r.server.procs[n], tr + r.events, env.t1, strict)
  {
    if cmd.name in s.procs && s.procs[cmd.name].status == Running {
      RunningUntimed(s, cmd, env);
      UntimedKeeps(s, CmdSpawn(s, cmd, env), tr, now, env.t1, strict);
    } else {
      var removed := Remove(s, cmd.name);
      RemoveUntimed(s, cmd.name);
      UntimedKeeps(s, removed, tr, now, now, strict);
      FreshClocked(removed.server, cmd, env, tr + removed.events, now, strict);
      var born := SpawnFresh(removed.server, cmd, env).events;
      assert tr + (removed.events + born) == (tr + removed.events) + born;
    }
  }

  lemma SubscribeUntimed(s: Server, cmd: CmdMsg)
    ensures Untimed(s, CmdSubscribe(s, cmd))
  {
    if cmd.name in s.procs {
      var e := s.procs[cmd.name];
      ReplayShape(Put(s, cmd.name, e.(buffer := [], subscribed := true)), e.child, e.buffer);
    }
  }

  lemma UntimedChain(s: Server, e: Effect, f: Effect)
    requires Untimed(s, e) && Untimed(e.server, f)
    ensures Untimed(s, After(e.events, f))
  {
  }

  lemma KillProcessUntimed(s: Server, name: Name, env: Env)
    ensures Untimed(s, KillProcess(s, name, env))
  {
    if name in s.procs {
      KillEntryTimes(s.procs[name], env);
    }
  }

  lemma KillEntryTimes(e: Entry, env: Env)
    ensures var r := KillEntry(e, env);
            && r.0.child == e.child && r.0.lastStdin == e.lastStdin && r.0.lastStdout == e.lastStdout
            && forall i, x :: 0 <= i < |r.1| ==> TouchOf(x, r.1[i]) == Untouched
  {
  }

  lemma AnswerUntimed(s: Server, cmd: CmdMsg, result: ResultMsg)
    ensures Untimed(s, SendResult(s, cmd, result))
  {
  }

  lemma KillUntimed(s: Server, cmd: CmdMsg, env: Env)
    ensures Untimed(s, CmdKill(s, cmd, env))
  {
    if cmd.name in s.procs {
      var killed := KillProcess(s, cmd.name, env);
      var removed := Remove(killed.server, cmd.name);
      KillProcessUntimed(s, cmd.name, env);
      RemoveUntimed(killed.server, cmd.name);
      UntimedChain(s, killed, removed);
      AnswerUntimed(removed.server, cmd, Ok(cmd.name));
      UntimedChain(s, After(killed.events, removed), SendResult(removed.server, cmd, Ok(cmd.name)));
    }
  }

  lemma QuietUntimed(s: Server, cmd: CmdMsg, env: Env)
    requires !cmd.verb.Spawn? && !cmd.verb.Subscribe? && !cmd.verb.Kill?
    ensures Untimed(s, HandleCommand(s, cmd, env))
  {
    match cmd.verb {
      case Unsubscribe => UnsubscribeUntimed(s, cmd);
      case Interrupt => InterruptUntimed(s, cmd, env);
      case _ =>
    }
  }

  lemma UnsubscribeUntimed(s: Server, cmd: CmdMsg)
    ensures Untimed(s, CmdUnsubscribe(s, cmd))
  {
  }

  lemma InterruptUntimed(s: Server, cmd: CmdMsg, env: Env)
    ensures Untimed(s, CmdInterrupt(s, cmd, env))
  {
  }

  lemma CommandClocked(s: Server, cmd: CmdMsg, env: Env, tr: seq<Event>, now: nat, strict: bool)
    requires Identities(s)
    requires now <= env.t0 <= env.t1
    requires forall n :: n in s.procs ==> Clocked(s.procs[n], tr, now, strict)
    ensures var r := HandleCommand(s, cmd, env);
            forall n :: n in r.server.procs ==> Clocked(r.server.procs[n], tr + r.events, env.t1, strict)
  {
    match cmd.verb {
      case Spawn => SpawnClocked(s, cmd, env, tr, now, strict);
      case Subscribe =>
        SubscribeUntimed(s, cmd);
        UntimedKeeps(s, CmdSubscribe(s, cmd), tr, now, env.t1, strict);
      case Kill =>
        KillUntimed(s, cmd, env);
        UntimedKeeps(s, CmdKill(s, cmd, env), tr, now, env.t1, strict);
      case Interrupt | Unsubscribe | List | Uptime | Unknown(_) =>
        QuietUntimed(s, cmd, env);
        UntimedKeeps(s, HandleCommand(s, cmd, env), tr, now, env.t1, strict);
    }
  }

  lemma LineClocked(s: Server, line: Line, env: Env, tr: seq<Event>, now: nat, strict: bool)
    requires Identities(s)
    requires now <= env.t0 <= env.t1 && (strict ==> now < env.t0)
    requires forall n :: n in s.procs ==> Clocked(s.procs[n], tr, now, strict)
    ensures var r := HandleLine(s, line, env);
            forall n :: n in r.server.procs ==> Clocked(r.server.procs[n], tr + r.events, env.t1, strict)
  {
    match line {
      case Garbage(_) => UntimedKeeps(s, HandleLine(s, line, env), tr, now, env.t1, strict);
      case Parsed(Cmd(cmd)) => CommandClocked(s, cmd, env, tr, now, strict);
      case Parsed(Stdin(name, data)) => StdinClocked(s, name, data, env, tr, now, strict);
    }
  }

  lemma {:induction false} KillAllUntimed(s: Server, plan: seq<(Name, Env)>)
    ensures Untimed(s, KillAll(s, plan))
  {
    if plan != [] {
      var before, last := KillAll(s, plan[..|plan| - 1]), plan[|plan| - 1];
      KillAllUntimed(s, plan[..|plan| - 1]);
      KillProcessUntimed(before.server, last.0, last.1);
      UntimedChain(s, before, KillProcess(before.server, last.0, last.1));
    }
  }

  /** The clock reading a step starts with is later than every reading before it. */
  predicate TicksStrictly(w: World, l: Label) {
    (l.TakeRelay? || l.TakeLine?) ==> w.now < l.env.t0
  }

  ghost predicate StrictClock(o: Oracle, run: seq<Label>) {
    forall k :: 0 <= k < |run| ==> TicksStrictly(Run(o, run[..k]), run[k])
  }

  lemma StepKeepsClocked(w: World, l: Label, strict: bool)
    requires Identities(w.server) && AllClocked(w, strict) && (strict ==> TicksStrictly(w, l))
    ensures AllClocked(Step(w, l), strict)
  {
    match l {
      case Accept(life) => UntimedKeeps(w.server, Connect(w.server, life), w.trace, w.now, w.now, strict);
      case TakeRelay(env) =>
        if w.queue != [] && Timely(w, env) {
          RelayClocked(w.server, w.queue[0], env, w.trace, w.now, strict);
        }
      case TakeLine(env) =>
        if w.lines != [] && Timely(w, env) {
          LineClocked(w.server, w.lines[0], env, w.trace, w.now, strict);
        }
      case TakeEof => UntimedKeeps(w.server, Disconnect(w.server), w.trace, w.now, w.now, strict);
      case ShutDown(plan) =>
        KillAllUntimed(w.server, plan);
        UntimedKeeps(w.server, Shutdown(w.server, plan), w.trace, w.now, w.now, strict);
      case ClientWrites(line) =>
        UntimedKeeps(w.server, Effect(w.server, [Arrived(Peer(w.server), line)]), w.trace, w.now, w.now, strict);
      case _ =>
    }
  }

  lemma {:induction false} RunClocked(o: Oracle, run: seq<Label>, strict: bool)
    requires strict ==> StrictClock(o, run)
    ensures AllClocked(Run(o, run), strict)
  {
    if run != [] {
      var init := run[..|run| - 1];
      if strict {
        assert TicksStrictly(Run(o, run[..|run| - 1]), run[|run| - 1]);
        assert forall k :: 0 <= k < |init| ==> init[..k] == run[..k];
      }
      RunClocked(o, init, strict);
      RunSettled(o, init);
      StepKeepsClocked(Run(o, init), run[|run| - 1], strict);
    }
  }

  /**
   In every run a busy entry was given work after its last response, or after its spawn. When
   every clock reading is later than the ones before, the converse holds too.
   */
  lemma {:induction false} IdleMeansAnswered(o: Oracle, run: seq<Label>, n: Name)
    requires n in Run(o, run).server.procs
    ensures var w := Run(o, run);
            var e := w.server.procs[n];
            && LatestTouch(e.child, w.trace) != Untouched
            && (!e.Idle() ==> LatestTouch(e.child, w.trace) == Given)
            && (StrictClock(o, run) ==> (!e.Idle() <==> LatestTouch(e.child, w.trace) == Given))
  {
    RunClocked(o, run, false);
    var w := Run(o, run);
    assert Clocked(w.server.procs[n], w.trace, w.now, false);
    if StrictClock(o, run) {
      RunClocked(o, run, true);
      assert Clocked(w.server.procs[n], w.trace, w.now, true);
    }
  }
}
