/** Reading the record of a run: what it says about one entry's log and about one child's exit. */
module RustRecord {
  import opened Protocol
  import opened Sequences
  import opened RustServer
  import L = RelayLog

  // ---- the marks of one entry ----

  function MarkOf(x: nat, e: Event): seq<L.Mark<ServerMsg>>
  {
    match e
    case Logged(y, _, msg) => if y == x then [L.Append(msg)] else []
    case Sent(conn, y, msg) => if y == x then [L.Deliver(conn, msg)] else []
    case Lost(y, msg) => if y == x then [L.Lose(msg)] else []
    case _ => []
  }

  /** What happened to the output of entry `x`, as marks for the reference log. */
  function Marks(x: nat, tr: seq<Event>): seq<L.Mark<ServerMsg>> {
    Collect((e: Event) => MarkOf(x, e), tr)
  }

  lemma MarksLast(x: nat, tr: seq<Event>, e: Event)
    ensures Marks(x, tr + [e]) == Marks(x, tr) + MarkOf(x, e)
    ensures MarkOf(x, e) == [] ==> Marks(x, tr + [e]) == Marks(x, tr)
  {
    CollectLast((e: Event) => MarkOf(x, e), tr, e);
  }

  predicate Neutral(e: Event) {
    !e.Logged? && !e.Sent? && !e.Lost?
  }

  lemma NeutralMarks(x: nat, tr: seq<Event>, evs: seq<Event>)
    requires forall i :: 0 <= i < |evs| ==> Neutral(evs[i])
    ensures Marks(x, tr + evs) == Marks(x, tr)
  {
    MarksSkip(x, tr, evs);
  }

  // ---- who is in the table, and what left it unread ----

  /** The names in the table and their entries, told from the record alone. */
  function Held(tr: seq<Event>): map<Name, nat>
  {
    if tr == [] then map[] else HeldAfter(Held(tr[..|tr| - 1]), tr[|tr| - 1])
  }

  function HeldAfter(before: map<Name, nat>, e: Event): map<Name, nat> {
    match e
    case Spawned(x, n) => before[n := x]
    case Forgotten(_, n, _) => before - {n}
    case _ => before
  }

  function ForgetOf(x: nat, e: Event): seq<seq<ServerMsg>> {
    if e.Forgotten? && e.entry == x then [e.msgs] else []
  }

  /** What was still buffered for entry `x` at each of its removals. */
  function Forgets(x: nat, tr: seq<Event>): seq<seq<ServerMsg>> {
    Collect((e: Event) => ForgetOf(x, e), tr)
  }

  lemma TableLast(x: nat, tr: seq<Event>, e: Event)
    ensures Forgets(x, tr + [e]) == Forgets(x, tr) + ForgetOf(x, e)
    ensures ForgetOf(x, e) == [] ==> Forgets(x, tr + [e]) == Forgets(x, tr)
    ensures Held(tr + [e]) == HeldAfter(Held(tr), e)
  {
    CollectLast((e: Event) => ForgetOf(x, e), tr, e);
    assert (tr + [e])[..|tr|] == tr;
  }

  /** The table is the same before and after. */
  predicate Stays(e: Event) {
    !e.Spawned? && !e.Forgotten?
  }

  lemma {:induction false} TableSame(x: nat, tr: seq<Event>, evs: seq<Event>)
    requires forall i :: 0 <= i < |evs| ==> Stays(evs[i])
    ensures Forgets(x, tr + evs) == Forgets(x, tr) && Held(tr + evs) == Held(tr)
  {
    if evs == [] {
      assert tr + evs == tr;
    } else {
      var init, e := evs[..|evs| - 1], evs[|evs| - 1];
      TableSame(x, tr, init);
      TableLast(x, tr + init, e);
      LastApart(tr, evs);
    }
  }

  /** Events that say nothing about entry `x` leave its marks alone. */
  lemma {:induction false} MarksSkip(x: nat, tr: seq<Event>, evs: seq<Event>)
    requires forall i :: 0 <= i < |evs| ==> MarkOf(x, evs[i]) == []
    ensures Marks(x, tr + evs) == Marks(x, tr)
  {
    if evs == [] {
      assert tr + evs == tr;
    } else {
      var init, e := evs[..|evs| - 1], evs[|evs| - 1];
      MarksSkip(x, tr, init);
      MarksLast(x, tr + init, e);
      LastApart(tr, evs);
    }
  }

  // ---- the buffer is the pending part of the log ----

  /** What happened to every entry is a run of the reference log. */
  ghost predicate Playable(tr: seq<Event>) {
    forall x: nat :: L.Play(Marks(x, tr)).Some?
  }

  /** The log of entry `x`. */
  ghost function LogOf(x: nat, tr: seq<Event>): (l: L.Log<ServerMsg>)
    requires Playable(tr)
    ensures |l.fates| <= |l.items|
  {
    L.Play(Marks(x, tr)).value
  }

  /** The part of the log that has not left the server. */
  ghost function Waiting(x: nat, tr: seq<Event>): seq<ServerMsg>
    requires Playable(tr)
  {
    L.Pending(LogOf(x, tr))
  }

  lemma OnLogged(tr: seq<Event>, e: Event)
    requires Playable(tr) && e.Logged?
    ensures Playable(tr + [e])
    ensures forall y: nat :: y != e.entry ==> Marks(y, tr + [e]) == Marks(y, tr)
    ensures forall y: nat :: Waiting(y, tr + [e]) == Waiting(y, tr) + if y == e.entry then [e.msg] else []
  {
    forall y: nat
      ensures L.Play(Marks(y, tr + [e])).Some?
      ensures y != e.entry ==> Marks(y, tr + [e]) == Marks(y, tr)
      ensures L.Pending(L.Play(Marks(y, tr + [e])).value) == Waiting(y, tr) + if y == e.entry then [e.msg] else []
    {
      MarksLast(y, tr, e);
      if y == e.entry {
        L.PlayLast(Marks(y, tr), L.Append(e.msg));
      }
    }
  }

  lemma LeftOf(y: nat, tr: seq<Event>, e: Event)
    requires L.Play(Marks(y, tr)).Some? && (e.Sent? || e.Lost?)
    requires y == e.entry ==>
               var p := L.Pending(L.Play(Marks(y, tr)).value);
               p != [] && p[0] == e.msg
    ensures L.Play(Marks(y, tr + [e])).Some?
    ensures y != e.entry ==> Marks(y, tr + [e]) == Marks(y, tr)
    ensures var p := L.Pending(L.Play(Marks(y, tr)).value);
            L.Pending(L.Play(Marks(y, tr + [e])).value) == if y == e.entry then p[1..] else p
  {
    MarksLast(y, tr, e);
    if y == e.entry {
      L.PlayLast(Marks(y, tr), MarkOf(y, e)[0]);
    }
  }

  lemma OnLeft(tr: seq<Event>, e: Event)
    requires Playable(tr) && (e.Sent? || e.Lost?)
    requires Waiting(e.entry, tr) != [] && Waiting(e.entry, tr)[0] == e.msg
    ensures Playable(tr + [e])
    ensures forall y: nat :: y != e.entry ==> Marks(y, tr + [e]) == Marks(y, tr)
    ensures forall y: nat :: Waiting(y, tr + [e]) == if y == e.entry then Waiting(y, tr)[1..] else Waiting(y, tr)
  {
    forall y: nat
      ensures L.Play(Marks(y, tr + [e])).Some?
      ensures y != e.entry ==> Marks(y, tr + [e]) == Marks(y, tr)
      ensures L.Pending(L.Play(Marks(y, tr + [e])).value) == if y == e.entry then Waiting(y, tr)[1..] else Waiting(y, tr)
    {
      LeftOf(y, tr, e);
    }
  }

  lemma OnNeutral(tr: seq<Event>, evs: seq<Event>)
    requires Playable(tr)
    requires forall i :: 0 <= i < |evs| ==> Neutral(evs[i])
    ensures Playable(tr + evs)
    ensures forall y: nat :: Marks(y, tr + evs) == Marks(y, tr)
    ensures forall y: nat :: Waiting(y, tr + evs) == Waiting(y, tr)
  {
    forall y: nat ensures Marks(y, tr + evs) == Marks(y, tr) {
      NeutralMarks(y, tr, evs);
    }
  }

  ghost predicate Refines(s: Server, tr: seq<Event>) {
    && Playable(tr)
    && (forall x: nat :: x >= s.spawns ==> Marks(x, tr) == [])
    && (forall n :: n in s.procs ==> Waiting(s.procs[n].child, tr) == s.procs[n].buffer)
  }

  // ---- exit codes come from the reaped child ----

  function ReapOf(x: nat, e: Event): seq<Option<int>> {
    if e.Reaped? && e.entry == x then [e.code] else []
  }

  /** The exit statuses that waits for child `x` have returned. */
  function Reaps(x: nat, tr: seq<Event>): seq<Option<int>> {
    Collect((e: Event) => ReapOf(x, e), tr)
  }

  lemma ReapsLast(x: nat, tr: seq<Event>, e: Event)
    ensures Reaps(x, tr + [e]) == Reaps(x, tr) + ReapOf(x, e)
    ensures ReapOf(x, e) == [] ==> Reaps(x, tr + [e]) == Reaps(x, tr)
  {
    CollectLast((e: Event) => ReapOf(x, e), tr, e);
  }

  lemma {:induction false} ReapsSame(x: nat, tr: seq<Event>, evs: seq<Event>)
    requires forall i :: 0 <= i < |evs| ==> !evs[i].Reaped?
    ensures Reaps(x, tr + evs) == Reaps(x, tr)
  {
    if evs == [] {
      assert tr + evs == tr;
    } else {
      var init := evs[..|evs| - 1];
      ReapsSame(x, tr, init);
      ReapsLast(x, tr + init, evs[|evs| - 1]);
      assert (tr + init) + [evs[|evs| - 1]] == tr + evs;
    }
  }

  /** The code of the one wait that succeeded; a child not reaped, or ended by a signal, has none. */
  function CodeOf(reaps: seq<Option<int>>): Option<int> {
    if reaps == [] then None else reaps[0]
  }

  /** What the entry knows of its child is what waits have returned; a running child is unreaped. */
  ghost predicate Known(e: Entry, reaps: seq<Option<int>>) {
    && (e.status == Running ==> e.reaped.None? && e.exitCode.None?)
    && reaps == (if e.reaped.None? then [] else [e.reaped.value])
    && e.exitCode == CodeOf(reaps)
  }

  ghost predicate Reaping(s: Server, tr: seq<Event>) {
    && (forall n :: n in s.procs ==> Known(s.procs[n], Reaps(s.procs[n].child, tr)))
    && (forall x: nat :: x >= s.spawns ==> Reaps(x, tr) == [])
  }

  /** A logged exit code is the one with which the entry's child was reaped. */
  ghost predicate Truthful(tr: seq<Event>) {
    forall i :: 0 <= i < |tr| && tr[i].Logged? && tr[i].msg.Exit? && tr[i].msg.code.Some? ==>
      Reaps(tr[i].entry, tr) == [tr[i].msg.code]
  }
}
