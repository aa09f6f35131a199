/**
 The Rust server's handlers broken into six kinds of moves, and what each move keeps.
 A handler keeps whatever its moves keep.
 */
module RustMoves {
  import opened Protocol
  import opened RustServer
  import opened RustRecord

  // ---- identities and subscriptions ----

  /** Entries are distinct spawned children, and the client is the newest connection. */
  ghost predicate Identities(s: Server) {
    && (forall n :: n in s.procs ==> s.procs[n].child < s.spawns)
    && (forall n, m :: n in s.procs && m in s.procs && n != m ==> s.procs[n].child != s.procs[m].child)
    && (s.client.Some? ==> s.client.value.conn + 1 == s.conns)
  }

  /** A subscribed entry has nothing buffered, and there is a client. */
  ghost predicate Subscriptions(s: Server) {
    forall n :: n in s.procs && s.procs[n].subscribed ==> s.procs[n].buffer == [] && s.client.Some?
  }

  // ---- every handler is a chain of moves ----

  /**
   What handlers are made of. `Quietly` leaves logs and children alone, `Pass` relays or buffers
   a message, `Learn` records what a wait returned, `Birth` adds an entry, `Forget` removes one,
   `Drain` replays a buffer.
   */
  datatype Move =
    | Quietly(to: Server, events: seq<Event>)
    | Pass(item: Relay, msg: ServerMsg)
    | Learn(name: Name, entry: Entry)
    | Birth(name: Name, entry: Entry)
    | Forget(name: Name)
    | Drain(name: Name)

  /** Events that touch neither a log, a child nor the table. */
  predicate Quiet(e: Event) {
    Neutral(e) && !e.Reaped? && !e.Spawned? && !e.Forgotten?
  }

  ghost predicate SameProcess(e: Entry, e': Entry) {
    && e'.child == e.child && e'.buffer == e.buffer
    && e'.status == e.status && e'.reaped == e.reaped && e'.exitCode == e.exitCode
  }

  ghost predicate Allowed(s: Server, m: Move)
  {
    match m
    case Quietly(to, events) =>
      && to.spawns == s.spawns && to.procs.Keys == s.procs.Keys
      && (forall n :: n in to.procs ==> SameProcess(s.procs[n], to.procs[n]))
      && (forall n :: n in to.procs && to.procs[n].subscribed ==> s.procs[n].subscribed && to.client.Some?)
      && (to.client.Some? ==> to.client.value.conn + 1 == to.conns)
      && (forall i :: 0 <= i < |events| ==> Quiet(events[i]))
    case Pass(item, msg) =>
      && item.name in s.procs
      && (msg.Exit? ==> msg.code == s.procs[item.name].exitCode)
    case Learn(name, entry) =>
      && name in s.procs
      && var e := s.procs[name];
         && entry.child == e.child && entry.buffer == e.buffer && entry.subscribed == e.subscribed
         && entry.status == Exited
         && (entry.reaped == e.reaped || (e.reaped.None? && entry.reaped.Some?))
         && entry.exitCode == (if entry.reaped.Some? then entry.reaped.value else None)
    case Birth(name, entry) =>
      && name !in s.procs && entry.child == s.spawns
      && entry.buffer == [] && !entry.subscribed && entry.status == Running
      && entry.reaped.None? && entry.exitCode.None?
    case Forget(name) => name in s.procs
    case Drain(name) => name in s.procs && s.client.Some?
  }

  function LearnEvents(e: Entry, e': Entry): seq<Event> {
    if e.reaped == e'.reaped || e'.reaped.None? then [] else [Reaped(e.child, e'.reaped.value)]
  }

  function Do(s: Server, m: Move): Effect
  {
    match m
    case Quietly(to, events) => Effect(to, events)
    case Pass(item, msg) => RelayOrBuffer(s, item, msg)
    case Learn(name, entry) =>
      Effect(Put(s, name, entry), if name in s.procs then LearnEvents(s.procs[name], entry) else [])
    case Birth(name, entry) =>
      Effect(Put(s, name, entry).(spawns := s.spawns + 1), [Spawned(s.spawns, name)])
    case Forget(name) => Remove(s, name)
    case Drain(name) =>
      if name !in s.procs then Effect(s, [])
      else
        var e := s.procs[name];
        Replay(Put(s, name, e.(buffer := [], subscribed := true)), e.child, e.buffer)
  }

  function Chain(s: Server, moves: seq<Move>): Effect
  {
    if moves == [] then Effect(s, [])
    else
      var before := Chain(s, moves[..|moves| - 1]);
      After(before.events, Do(before.server, moves[|moves| - 1]))
  }

  ghost predicate Legal(s: Server, moves: seq<Move>)
  {
    moves == []
    || (Legal(s, moves[..|moves| - 1]) && Allowed(Chain(s, moves[..|moves| - 1]).server, moves[|moves| - 1]))
  }

  lemma ChainLast(s: Server, moves: seq<Move>, m: Move)
    ensures Chain(s, moves + [m]) == After(Chain(s, moves).events, Do(Chain(s, moves).server, m))
    ensures Legal(s, moves + [m]) == (Legal(s, moves) && Allowed(Chain(s, moves).server, m))
  {
    assert (moves + [m])[..|moves|] == moves;
  }

  lemma ChainOne(s: Server, m: Move)
    ensures Chain(s, [m]) == Do(s, m)
    ensures Legal(s, [m]) == Allowed(s, m)
  {
    ChainLast(s, [], m);
    assert [] + [m] == [m];
    assert [] + Do(s, m).events == Do(s, m).events;
  }

  lemma ChainTwo(s: Server, m: Move, k: Move)
    ensures Chain(s, [m, k]) == After(Do(s, m).events, Do(Do(s, m).server, k))
    ensures Legal(s, [m, k]) == (Allowed(s, m) && Allowed(Do(s, m).server, k))
  {
    ChainOne(s, m);
    ChainLast(s, [m], k);
    assert [m] + [k] == [m, k];
  }

  // ---- what moves keep ----

  lemma {:induction false} ReplayShape(s: Server, x: nat, msgs: seq<ServerMsg>)
    ensures var r := Replay(s, x, msgs);
            && r.server == s.(client := r.server.client)
            && (r.server.client.Some? <==> s.client.Some?)
            && (s.client.Some? ==> r.server.client.value.conn == s.client.value.conn)
            && forall i :: 0 <= i < |r.events| ==> r.events[i].Sent? || r.events[i].Lost?
  {
    if msgs != [] {
      ReplayShape(s, x, msgs[..|msgs| - 1]);
    }
  }

  lemma DrainKeepsShape(s: Server, name: Name)
    requires Identities(s) && Subscriptions(s) && name in s.procs && s.client.Some?
    ensures Identities(Do(s, Drain(name)).server) && Subscriptions(Do(s, Drain(name)).server)
  {
    var e := s.procs[name];
    ReplayShape(Put(s, name, e.(buffer := [], subscribed := true)), e.child, e.buffer);
  }

  lemma PassKeepsShape(s: Server, item: Relay, msg: ServerMsg)
    requires Identities(s) && Subscriptions(s)
    ensures Identities(RelayOrBuffer(s, item, msg).server) && Subscriptions(RelayOrBuffer(s, item, msg).server)
  {
  }

  lemma MoveKeepsShape(s: Server, m: Move)
    requires Identities(s) && Subscriptions(s) && Allowed(s, m)
    ensures Identities(Do(s, m).server) && Subscriptions(Do(s, m).server)
  {
    match m {
      case Drain(name) => DrainKeepsShape(s, name);
      case Pass(item, msg) => PassKeepsShape(s, item, msg);
      case Quietly(_, _) =>
      case Learn(_, _) =>
      case Birth(_, _) =>
      case Forget(_) =>
    }
  }

  /** A message for a subscribed process on an open channel enters the log and leaves it at once. */
  lemma RelayedRefines(s: Server, s': Server, tr: seq<Event>, logged: Event, sent: Event)
    requires Refines(s, tr) && logged.Logged? && sent.Sent? && sent.entry == logged.entry && sent.msg == logged.msg
    requires s'.procs == s.procs && s'.spawns == s.spawns && logged.entry < s.spawns
    requires Waiting(logged.entry, tr) == []
    ensures Refines(s', tr + [logged, sent])
  {
    OnLogged(tr, logged);
    OnLeft(tr + [logged], sent);
    assert tr + [logged, sent] == (tr + [logged]) + [sent];
  }

  lemma BufferedRefines(s: Server, s': Server, tr: seq<Event>, logged: Event, name: Name)
    requires Identities(s) && Refines(s, tr) && logged.Logged? && name in s.procs && logged.entry == s.procs[name].child
    requires s'.spawns == s.spawns && s'.procs.Keys == s.procs.Keys
    requires forall n :: n in s.procs ==> s'.procs[n].child == s.procs[n].child
    requires forall n :: n in s.procs && n != name ==> s'.procs[n].buffer == s.procs[n].buffer
    requires s'.procs[name].buffer == s.procs[name].buffer + [logged.msg]
    ensures Refines(s', tr + [logged])
  {
    OnLogged(tr, logged);
  }

  lemma PassRefines(s: Server, tr: seq<Event>, item: Relay, msg: ServerMsg)
    requires Identities(s) && Subscriptions(s) && Refines(s, tr) && item.name in s.procs
    ensures Refines(RelayOrBuffer(s, item, msg).server, tr + RelayOrBuffer(s, item, msg).events)
  {
    var e, r := s.procs[item.name], RelayOrBuffer(s, item, msg);
    var logged := Logged(e.child, item, msg);
    if e.subscribed && Open(s) {
      assert Waiting(e.child, tr) == e.buffer;
      RelayedRefines(s, r.server, tr, logged, Sent(Peer(s), e.child, msg));
    } else {
      BufferedRefines(s, r.server, tr, logged, item.name);
    }
  }

  lemma BirthRefines(s: Server, tr: seq<Event>, name: Name, entry: Entry)
    requires Refines(s, tr) && Allowed(s, Birth(name, entry))
    ensures Refines(Do(s, Birth(name, entry)).server, tr + Do(s, Birth(name, entry)).events)
  {
    OnNeutral(tr, Do(s, Birth(name, entry)).events);
    assert Waiting(s.spawns, tr) == [];
  }

  lemma DrainRefines(s: Server, tr: seq<Event>, name: Name)
    requires Identities(s) && Refines(s, tr) && name in s.procs
    ensures Refines(Do(s, Drain(name)).server, tr + Do(s, Drain(name)).events)
  {
    var e := s.procs[name];
    var drained := Put(s, name, e.(buffer := [], subscribed := true));
    ReplayShape(drained, e.child, e.buffer);
    ReplayDrains(drained, tr, e.child, e.buffer);
  }

  lemma MoveRefines(s: Server, tr: seq<Event>, m: Move)
    requires Identities(s) && Subscriptions(s) && Allowed(s, m) && Refines(s, tr)
    ensures Refines(Do(s, m).server, tr + Do(s, m).events)
  {
    match m {
      case Quietly(_, _) => OnNeutral(tr, Do(s, m).events);
      case Learn(_, _) => OnNeutral(tr, Do(s, m).events);
      case Forget(_) => OnNeutral(tr, Do(s, m).events);
      case Birth(name, entry) => BirthRefines(s, tr, name, entry);
      case Pass(item, msg) => PassRefines(s, tr, item, msg);
      case Drain(name) => DrainRefines(s, tr, name);
    }
  }

  /** A replay takes the pending messages out of the log one by one. */
  lemma {:induction false} ReplayDrains(s: Server, tr: seq<Event>, x: nat, msgs: seq<ServerMsg>)
    requires Playable(tr) && msgs <= Waiting(x, tr)
    ensures var r := Replay(s, x, msgs);
            && Playable(tr + r.events)
            && Waiting(x, tr + r.events) == Waiting(x, tr)[|msgs|..]
            && forall y: nat :: y != x ==> Marks(y, tr + r.events) == Marks(y, tr)
  {
    if msgs == [] {
      assert tr + Replay(s, x, msgs).events == tr;
    } else {
      var init := msgs[..|msgs| - 1];
      ReplayDrains(s, tr, x, init);
      var before := Replay(s, x, init);
      var r := Replay(s, x, msgs);
      var last := r.events[|r.events| - 1];
      assert tr + r.events == (tr + before.events) + [last];
      OnLeft(tr + before.events, last);
    }
  }

  /** Only `Learn` adds to what is known about a child. */
  lemma MoveReaps(s: Server, tr: seq<Event>, m: Move, x: nat)
    requires Allowed(s, m)
    ensures Reaps(x, tr + Do(s, m).events) ==
            Reaps(x, tr)
            + if m.Learn? && s.procs[m.name].child == x && s.procs[m.name].reaped.None? && m.entry.reaped.Some?
              then [m.entry.reaped.value] else []
  {
    var r := Do(s, m);
    if m.Learn? && r.events != [] {
      ReapsLast(x, tr, r.events[0]);
    } else {
      if m.Drain? {
        var e := s.procs[m.name];
        ReplayShape(Put(s, m.name, e.(buffer := [], subscribed := true)), e.child, e.buffer);
      }
      ReapsSame(x, tr, r.events);
    }
  }

  /** Nothing is learned about any child. */
  ghost predicate SameKnowledge(s: Server, s': Server) {
    && s'.spawns == s.spawns
    && forall n :: n in s'.procs ==>
         && n in s.procs && s'.procs[n].child == s.procs[n].child && s'.procs[n].status == s.procs[n].status
         && s'.procs[n].reaped == s.procs[n].reaped && s'.procs[n].exitCode == s.procs[n].exitCode
  }

  lemma KnowledgeKept(s: Server, s': Server, tr: seq<Event>, tr': seq<Event>)
    requires Reaping(s, tr) && SameKnowledge(s, s') && forall x: nat :: Reaps(x, tr') == Reaps(x, tr)
    ensures Reaping(s', tr')
  {
    forall n | n in s'.procs ensures Known(s'.procs[n], Reaps(s'.procs[n].child, tr')) {
      assert Known(s.procs[n], Reaps(s.procs[n].child, tr));
    }
  }

  lemma MoveLearnsNothing(s: Server, m: Move)
    requires Allowed(s, m) && !m.Learn? && !m.Birth?
    ensures SameKnowledge(s, Do(s, m).server)
  {
    if m.Drain? {
      var e := s.procs[m.name];
      ReplayShape(Put(s, m.name, e.(buffer := [], subscribed := true)), e.child, e.buffer);
    }
  }

  lemma LearnKeepsReaping(s: Server, tr: seq<Event>, m: Move)
    requires Identities(s) && m.Learn? && Allowed(s, m) && Reaping(s, tr)
    ensures Reaping(Do(s, m).server, tr + Do(s, m).events)
  {
    var s', tr' := Do(s, m).server, tr + Do(s, m).events;
    forall n | n in s'.procs ensures Known(s'.procs[n], Reaps(s'.procs[n].child, tr')) {
      MoveReaps(s, tr, m, s.procs[n].child);
      assert Known(s.procs[n], Reaps(s.procs[n].child, tr));
    }
    forall x: nat | x >= s'.spawns ensures Reaps(x, tr') == [] {
      MoveReaps(s, tr, m, x);
    }
  }

  lemma BirthKeepsReaping(s: Server, tr: seq<Event>, m: Move)
    requires m.Birth? && Allowed(s, m) && Reaping(s, tr)
    ensures Reaping(Do(s, m).server, tr + Do(s, m).events)
  {
    var s', tr' := Do(s, m).server, tr + Do(s, m).events;
    forall x: nat ensures Reaps(x, tr') == Reaps(x, tr) {
      MoveReaps(s, tr, m, x);
    }
    forall n | n in s'.procs ensures Known(s'.procs[n], Reaps(s'.procs[n].child, tr')) {
      if n != m.name {
        assert Known(s.procs[n], Reaps(s.procs[n].child, tr));
      }
    }
  }

  lemma MoveKeepsReaping(s: Server, tr: seq<Event>, m: Move)
    requires Identities(s) && Allowed(s, m) && Reaping(s, tr)
    ensures Reaping(Do(s, m).server, tr + Do(s, m).events)
  {
    if m.Learn? {
      LearnKeepsReaping(s, tr, m);
    } else if m.Birth? {
      BirthKeepsReaping(s, tr, m);
    } else {
      MoveLearnsNothing(s, m);
      forall x: nat ensures Reaps(x, tr + Do(s, m).events) == Reaps(x, tr) {
        MoveReaps(s, tr, m, x);
      }
      KnowledgeKept(s, Do(s, m).server, tr, tr + Do(s, m).events);
    }
  }

  /** A child is reaped once. */
  lemma OldTruth(s: Server, tr: seq<Event>, m: Move, x: nat, code: Option<int>)
    requires Allowed(s, m) && Reaping(s, tr) && Reaps(x, tr) == [code]
    ensures Reaps(x, tr + Do(s, m).events) == [code]
  {
    MoveReaps(s, tr, m, x);
    if m.Learn? {
      assert Known(s.procs[m.name], Reaps(s.procs[m.name].child, tr));
    }
  }

  predicate LogsCode(e: Event) {
    e.Logged? && e.msg.Exit? && e.msg.code.Some?
  }

  /** A code that is logged is what the entry knows. */
  lemma NewTruth(s: Server, tr: seq<Event>, m: Move, e: Event)
    requires Allowed(s, m) && Reaping(s, tr) && e in Do(s, m).events && LogsCode(e)
    ensures Reaps(e.entry, tr) == [e.msg.code]
  {
    match m {
      case Pass(item, msg) => assert Known(s.procs[item.name], Reaps(s.procs[item.name].child, tr));
      case Drain(name) =>
        var mp := s.procs[name];
        ReplayShape(Put(s, name, mp.(buffer := [], subscribed := true)), mp.child, mp.buffer);
      case _ =>
    }
  }

  lemma MoveKeepsTruth(s: Server, tr: seq<Event>, m: Move)
    requires Allowed(s, m) && Reaping(s, tr) && Truthful(tr)
    ensures Truthful(tr + Do(s, m).events)
  {
    var tr' := tr + Do(s, m).events;
    forall i | 0 <= i < |tr'| && LogsCode(tr'[i]) ensures Reaps(tr'[i].entry, tr') == [tr'[i].msg.code] {
      if i >= |tr| {
        assert tr'[i] in Do(s, m).events;
        NewTruth(s, tr, m, tr'[i]);
      }
      OldTruth(s, tr, m, tr'[i].entry, tr'[i].msg.code);
    }
  }

  /** What holds between any two handlers. */
  ghost predicate Good(s: Server, tr: seq<Event>) {
    Identities(s) && Subscriptions(s) && Refines(s, tr) && Reaping(s, tr) && Truthful(tr)
  }

  lemma MoveKeeps(s: Server, tr: seq<Event>, m: Move)
    requires Good(s, tr) && Allowed(s, m)
    ensures Good(Do(s, m).server, tr + Do(s, m).events)
  {
    MoveKeepsShape(s, m);
    MoveRefines(s, tr, m);
    MoveKeepsReaping(s, tr, m);
    MoveKeepsTruth(s, tr, m);
  }

  /** The last move of a chain. */
  lemma ChainEnd(s: Server, tr: seq<Event>, moves: seq<Move>)
    requires moves != []
    ensures var before, m := Chain(s, moves[..|moves| - 1]), moves[|moves| - 1];
            var last := Do(before.server, m);
            && Chain(s, moves).server == last.server
            && tr + Chain(s, moves).events == (tr + before.events) + last.events
  {
    var before, m := Chain(s, moves[..|moves| - 1]), moves[|moves| - 1];
    assert tr + (before.events + Do(before.server, m).events) == (tr + before.events) + Do(before.server, m).events;
  }

  lemma {:induction false} ChainKeeps(s: Server, tr: seq<Event>, moves: seq<Move>)
    requires Good(s, tr) && Legal(s, moves)
    ensures Good(Chain(s, moves).server, tr + Chain(s, moves).events)
  {
    if moves == [] {
      assert tr + [] == tr;
    } else {
      var before, m := Chain(s, moves[..|moves| - 1]), moves[|moves| - 1];
      ChainKeeps(s, tr, moves[..|moves| - 1]);
      MoveKeeps(before.server, tr + before.events, m);
      ChainEnd(s, tr, moves);
    }
  }
}
