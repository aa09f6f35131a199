/** What becomes of entries that leave the table: their buffer is forgotten, and nothing else is. */
module RustDepartures {
  import opened Protocol
  import opened StreamRelay
  import opened RustServer
  import opened RustRecord
  import opened RustMoves
  import opened RustWorld
  import opened RustRuns

  ghost predicate InTable(s: Server, x: nat) {
    exists n :: n in s.procs && s.procs[n].child == x
  }

  function Holders(procs: map<Name, Entry>): map<Name, nat> {
    map n | n in procs :: procs[n].child
  }

  /** Every entry that has left the table was forgotten once, with what was pending of its log; the others never were. */
  ghost predicate Departed(s: Server, tr: seq<Event>) {
    Playable(tr) && forall x: nat :: LeftOnce(x, s, tr)
  }

  ghost predicate LeftOnce(x: nat, s: Server, tr: seq<Event>)
    requires Playable(tr)
  {
    Forgets(x, tr) == if x < s.spawns && !InTable(s, x) then [Waiting(x, tr)] else []
  }

  /** The record tells who is in the table. */
  ghost predicate Rostered(s: Server, tr: seq<Event>) {
    Held(tr) == Holders(s.procs)
  }

  // ---- moves that keep the table ----

  lemma TableKept(s: Server, s': Server, tr: seq<Event>, evs: seq<Event>)
    requires SameChildren(s, s') && Departed(s, tr) && Rostered(s, tr) && Playable(tr + evs)
    requires forall i :: 0 <= i < |evs| ==> Stays(evs[i])
    requires forall x: nat :: !InTable(s, x) ==> Marks(x, tr + evs) == Marks(x, tr)
    ensures Departed(s', tr + evs) && Rostered(s', tr + evs)
  {
    TableSame(0, tr, evs);
    assert Holders(s'.procs) == Holders(s.procs);
    forall x: nat ensures LeftOnce(x, s', tr + evs) {
      assert LeftOnce(x, s, tr);
      TableSame(x, tr, evs);
      SameTable(s, s', x);
    }
  }

  lemma SameTable(s: Server, s': Server, x: nat)
    requires SameChildren(s, s')
    ensures InTable(s', x) <==> InTable(s, x)
  {
    if InTable(s, x) {
      var n :| n in s.procs && s.procs[n].child == x;
      assert n in s'.procs && s'.procs[n].child == x;
    }
  }

  lemma {:induction false} ReplayEntry(s: Server, x: nat, msgs: seq<ServerMsg>)
    ensures forall i :: 0 <= i < |Replay(s, x, msgs).events| ==>
              Stays(Replay(s, x, msgs).events[i]) && forall y: nat :: y != x ==> MarkOf(y, Replay(s, x, msgs).events[i]) == []
  {
    if msgs != [] {
      ReplayEntry(s, x, msgs[..|msgs| - 1]);
    }
  }

  predicate Removes(m: Move) {
    m.Forget? || m.Birth?
  }

  /** Other moves leave the table alone and mark only entries in it. */
  lemma MoveStays(s: Server, m: Move)
    requires Allowed(s, m) && !Removes(m)
    ensures SameChildren(s, Do(s, m).server)
    ensures forall i :: 0 <= i < |Do(s, m).events| ==> Stays(Do(s, m).events[i])
    ensures forall i, x: nat :: 0 <= i < |Do(s, m).events| && !InTable(s, x) ==> MarkOf(x, Do(s, m).events[i]) == []
  {
    match m {
      case Quietly(_, _) =>
      case Learn(_, _) =>
      case Pass(item, msg) => assert InTable(s, s.procs[item.name].child);
      case Drain(name) =>
        var e := s.procs[name];
        assert InTable(s, e.child);
        ReplayShape(Put(s, name, e.(buffer := [], subscribed := true)), e.child, e.buffer);
        ReplayEntry(Put(s, name, e.(buffer := [], subscribed := true)), e.child, e.buffer);
    }
  }

  lemma MoveKeepsTable(s: Server, tr: seq<Event>, m: Move)
    requires Allowed(s, m) && !Removes(m) && Departed(s, tr) && Rostered(s, tr) && Playable(tr + Do(s, m).events)
    ensures Departed(Do(s, m).server, tr + Do(s, m).events) && Rostered(Do(s, m).server, tr + Do(s, m).events)
  {
    var evs := Do(s, m).events;
    MoveStays(s, m);
    forall x: nat | !InTable(s, x) ensures Marks(x, tr + evs) == Marks(x, tr) {
      MarksSkip(x, tr, evs);
    }
    TableKept(s, Do(s, m).server, tr, evs);
  }

  // ---- entries that come and go ----

  /** An event that neither removes nor marks entry `x` leaves it in the table or out of it. */
  lemma StillLeft(x: nat, s: Server, s': Server, tr: seq<Event>, e: Event)
    requires Playable(tr) && Playable(tr + [e]) && LeftOnce(x, s, tr)
    requires Marks(x, tr + [e]) == Marks(x, tr) && ForgetOf(x, e) == []
    requires (x < s'.spawns && !InTable(s', x)) == (x < s.spawns && !InTable(s, x))
    ensures LeftOnce(x, s', tr + [e])
  {
    TableLast(x, tr, e);
  }

  lemma BirthKeepsTable(s: Server, tr: seq<Event>, name: Name, entry: Entry)
    requires Allowed(s, Birth(name, entry)) && Departed(s, tr) && Rostered(s, tr)
    ensures var r := Do(s, Birth(name, entry));
            Departed(r.server, tr + r.events) && Rostered(r.server, tr + r.events)
  {
    var r, e := Do(s, Birth(name, entry)), Spawned(s.spawns, name);
    OnNeutral(tr, [e]);
    TableLast(0, tr, e);
    assert Holders(r.server.procs) == Holders(s.procs)[name := s.spawns];
    forall x: nat ensures LeftOnce(x, r.server, tr + [e]) {
      BirthLeavesOnce(s, tr, name, entry, x);
    }
  }

  lemma BirthLeavesOnce(s: Server, tr: seq<Event>, name: Name, entry: Entry, x: nat)
    requires Allowed(s, Birth(name, entry)) && Departed(s, tr) && Playable(tr + [Spawned(s.spawns, name)])
    requires Marks(x, tr + [Spawned(s.spawns, name)]) == Marks(x, tr)
    ensures LeftOnce(x, Do(s, Birth(name, entry)).server, tr + [Spawned(s.spawns, name)])
  {
    var s' := Do(s, Birth(name, entry)).server;
    assert LeftOnce(x, s, tr);
    Joins(s, s', name, x);
    StillLeft(x, s, s', tr, Spawned(s.spawns, name));
  }

  lemma Joins(s: Server, s': Server, name: Name, x: nat)
    requires name !in s.procs && s'.procs.Keys == s.procs.Keys + {name} && s'.procs[name].child == s.spawns
    requires forall n :: n in s.procs ==> s'.procs[n].child == s.procs[n].child
    ensures InTable(s', x) <==> InTable(s, x) || x == s.spawns
  {
    assert name in s'.procs;
    if InTable(s, x) {
      var n :| n in s.procs && s.procs[n].child == x;
      assert n in s'.procs;
    }
  }

  lemma Leaves(s: Server, name: Name, x: nat)
    requires Identities(s) && name in s.procs
    ensures InTable(Remove(s, name).server, x) <==> InTable(s, x) && x != s.procs[name].child
  {
    var s' := Remove(s, name).server;
    if InTable(s, x) && x != s.procs[name].child {
      var n :| n in s.procs && s.procs[n].child == x;
      assert n in s'.procs;
    }
  }

  lemma ForgetKeepsTable(s: Server, tr: seq<Event>, name: Name)
    requires Identities(s) && name in s.procs && Departed(s, tr) && Rostered(s, tr)
    requires Waiting(s.procs[name].child, tr) == s.procs[name].buffer
    ensures var r := Remove(s, name);
            Departed(r.server, tr + r.events) && Rostered(r.server, tr + r.events)
  {
    var r := Remove(s, name);
    var e := r.events[0];
    OnNeutral(tr, [e]);
    TableLast(0, tr, e);
    assert Holders(r.server.procs) == Holders(s.procs) - {name};
    assert InTable(s, s.procs[name].child);
    forall x: nat ensures LeftOnce(x, r.server, tr + [e]) {
      assert LeftOnce(x, s, tr);
      Leaves(s, name, x);
      if x == s.procs[name].child {
        TableLast(x, tr, e);
      } else {
        StillLeft(x, s, r.server, tr, e);
      }
    }
  }

  // ---- every run ----

  lemma MoveKeepsDepartures(s: Server, tr: seq<Event>, m: Move)
    requires Good(s, tr) && Allowed(s, m) && Departed(s, tr) && Rostered(s, tr)
    ensures Departed(Do(s, m).server, tr + Do(s, m).events) && Rostered(Do(s, m).server, tr + Do(s, m).events)
  {
    match m {
      case Birth(name, entry) => BirthKeepsTable(s, tr, name, entry);
      case Forget(name) => ForgetKeepsTable(s, tr, name);
      case _ =>
        MoveRefines(s, tr, m);
        MoveKeepsTable(s, tr, m);
    }
  }

  lemma {:induction false} ChainKeepsDepartures(s: Server, tr: seq<Event>, moves: seq<Move>)
    requires Good(s, tr) && Legal(s, moves) && Departed(s, tr) && Rostered(s, tr)
    ensures Departed(Chain(s, moves).server, tr + Chain(s, moves).events)
    ensures Rostered(Chain(s, moves).server, tr + Chain(s, moves).events)
  {
    if moves == [] {
      assert tr + [] == tr;
    } else {
      var init, m := moves[..|moves| - 1], moves[|moves| - 1];
      var before := Chain(s, init);
      ChainKeepsDepartures(s, tr, init);
      ChainKeeps(s, tr, init);
      MoveKeepsDepartures(before.server, tr + before.events, m);
      ChainEnd(s, tr, moves);
    }
  }

  lemma StartDepartures(o: Oracle)
    ensures Departed(Start(o).server, Start(o).trace) && Rostered(Start(o).server, Start(o).trace)
  {
  }

  lemma {:induction false} RunDepartures(o: Oracle, run: seq<Label>)
    ensures Departed(Run(o, run).server, Run(o, run).trace) && Rostered(Run(o, run).server, Run(o, run).trace)
  {
    if run == [] {
      StartDepartures(o);
    } else {
      var w, l := Run(o, run[..|run| - 1]), run[|run| - 1];
      RunDepartures(o, run[..|run| - 1]);
      RunSettled(o, run[..|run| - 1]);
      var moves := StepMoves(w, l);
      ChainKeepsDepartures(w.server, w.trace, moves);
    }
  }
}
