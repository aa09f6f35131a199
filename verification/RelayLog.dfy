/**
 The reference specification of what a server does with one process's output:
 an append-only log, and a cursor that only moves forward. Everything before the
 cursor has left the server, either accepted by a connection or lost; everything
 after it waits in the buffer.
 */
module RelayLog {
  import opened Protocol
  import opened Sequences

  datatype Mark<M> = Append(msg: M) | Deliver(conn: nat, msg: M) | Lose(msg: M)

  datatype Fate = Delivered(conn: nat) | Lost

  /** The fate of `items[i]` is `fates[i]`; items without a fate are pending. */
  datatype Log<M> = Log(items: seq<M>, fates: seq<Fate>)

  ghost predicate Sound<M>(l: Log<M>) {
    |l.fates| <= |l.items|
  }

  function Pending<M>(l: Log<M>): seq<M>
    requires |l.fates| <= |l.items|
  {
    l.items[|l.fates|..]
  }

  /** One step of the specification; `None` when the step is not one it allows. */
  function Advance<M(==)>(l: Log<M>, k: Mark<M>): (r: Option<Log<M>>)
    requires |l.fates| <= |l.items|
    ensures r.Some? ==> |r.value.fates| <= |r.value.items|
  {
    match k
    case Append(m) => Some(l.(items := l.items + [m]))
    case Deliver(c, m) => Settle(l, m, Delivered(c))
    case Lose(m) => Settle(l, m, Lost)
  }

  /** Only the message at the cursor can leave. */
  function Settle<M(==)>(l: Log<M>, m: M, f: Fate): (r: Option<Log<M>>)
    requires |l.fates| <= |l.items|
    ensures r.Some? ==> |r.value.fates| <= |r.value.items|
  {
    if |l.fates| < |l.items| && l.items[|l.fates|] == m
    then Some(l.(fates := l.fates + [f]))
    else None
  }

  /** The specification run from the empty log. */
  function Play<M(==)>(marks: seq<Mark<M>>): (r: Option<Log<M>>)
    ensures r.Some? ==> |r.value.fates| <= |r.value.items|
  {
    if marks == [] then Some(Log([], []))
    else
      var before := Play(marks[..|marks| - 1]);
      if before.None? then None else Advance(before.value, marks[|marks| - 1])
  }

  lemma PlayLast<M>(marks: seq<Mark<M>>, k: Mark<M>)
    ensures Play(marks + [k]) ==
            if Play(marks).None? then None else Advance(Play(marks).value, k)
  {
    assert (marks + [k])[..|marks|] == marks;
  }

  // ---- what a run of the specification says about its marks ----

  function Appended<M>(marks: seq<Mark<M>>): seq<M> {
    Collect((k: Mark<M>) => if k.Append? then [k.msg] else [], marks)
  }

  function Deliveries<M>(marks: seq<Mark<M>>): seq<M> {
    Collect((k: Mark<M>) => if k.Deliver? then [k.msg] else [], marks)
  }

  function DeliveriesTo<M>(marks: seq<Mark<M>>, conn: nat): seq<M> {
    Collect((k: Mark<M>) => if k.Deliver? && k.conn == conn then [k.msg] else [], marks)
  }

  function Losses<M>(marks: seq<Mark<M>>): seq<M> {
    Collect((k: Mark<M>) => if k.Lose? then [k.msg] else [], marks)
  }

  lemma CountsAppend<M>(a: seq<Mark<M>>, b: seq<Mark<M>>)
    ensures Appended(a + b) == Appended(a) + Appended(b)
    ensures Losses(a + b) == Losses(a) + Losses(b)
  {
    CollectAppend((k: Mark<M>) => if k.Append? then [k.msg] else [], a, b);
    CollectAppend((k: Mark<M>) => if k.Lose? then [k.msg] else [], a, b);
  }

  /** The items of the log whose fate is picked by `which`, in log order. */
  function Kept<M>(l: Log<M>, which: Fate -> bool): seq<M>
    requires |l.fates| <= |l.items|
    decreases |l.fates|
  {
    if l.fates == [] then []
    else
      var n := |l.fates| - 1;
      Kept(Log(l.items, l.fates[..n]), which) + if which(l.fates[n]) then [l.items[n]] else []
  }

  lemma {:induction false} KeptIgnoresTail<M>(l: Log<M>, m: M, which: Fate -> bool)
    requires Sound(l)
    ensures Kept(Log(l.items + [m], l.fates), which) == Kept(l, which)
    decreases |l.fates|
  {
    if l.fates != [] {
      KeptIgnoresTail(Log(l.items, l.fates[..|l.fates| - 1]), m, which);
    }
  }

  lemma {:induction false} KeptAll<M>(l: Log<M>, which: Fate -> bool)
    requires Sound(l)
    requires forall i :: 0 <= i < |l.fates| ==> which(l.fates[i])
    ensures Kept(l, which) == l.items[..|l.fates|]
    decreases |l.fates|
  {
    if l.fates != [] {
      KeptAll(Log(l.items, l.fates[..|l.fates| - 1]), which);
    }
  }

  const ANY := (f: Fate) => f.Delivered?
  const GONE := (f: Fate) => f.Lost?

  function To(conn: nat): Fate -> bool {
    (f: Fate) => f == Delivered(conn)
  }

  /**
   The marks and the log agree: what was appended is the log, what any connection (or one
   given connection) took is the matching part of the log in log order, and what was lost is the rest.
   */
  lemma {:induction false} MarksAccount<M>(marks: seq<Mark<M>>, conn: nat)
    requires Play(marks).Some?
    ensures var l := Play(marks).value;
            && Appended(marks) == l.items
            && Deliveries(marks) == Kept(l, ANY)
            && DeliveriesTo(marks, conn) == Kept(l, To(conn))
            && Losses(marks) == Kept(l, GONE)
  {
    if marks != [] {
      var init, k := marks[..|marks| - 1], marks[|marks| - 1];
      MarksAccount(init, conn);
      var l := Play(init).value;
      if k.Append? {
        KeptIgnoresTail(l, k.msg, ANY);
        KeptIgnoresTail(l, k.msg, To(conn));
        KeptIgnoresTail(l, k.msg, GONE);
      } else {
        var l' := Play(marks).value;
        assert l'.fates[..|l'.fates| - 1] == l.fates;
      }
    }
  }

  lemma {:induction false} NoGoneFates<M>(l: Log<M>)
    requires Sound(l) && Kept(l, GONE) == []
    ensures forall i :: 0 <= i < |l.fates| ==> l.fates[i].Delivered?
    decreases |l.fates|
  {
    if l.fates != [] {
      NoGoneFates(Log(l.items, l.fates[..|l.fates| - 1]));
    }
  }

  /**
   With nothing lost, deliveries are exactly the log up to the cursor and the
   pending part is exactly the rest: no gap, no duplicate, no reordering.
   */
  lemma GapFree<M>(marks: seq<Mark<M>>)
    requires Play(marks).Some? && Losses(marks) == []
    ensures var l := Play(marks).value;
            && Deliveries(marks) == l.items[..|l.fates|]
            && Deliveries(marks) + Pending(l) == Appended(marks)
  {
    MarksAccount(marks, 0);
    NoGoneFates(Play(marks).value);
    KeptAll(Play(marks).value, ANY);
  }

  /** A longer run of the specification has only added to the log and to the fates. */
  lemma {:induction false} PlayGrows<M>(marks: seq<Mark<M>>, more: seq<Mark<M>>)
    requires Play(marks + more).Some?
    ensures Play(marks).Some?
    ensures Play(marks).value.items <= Play(marks + more).value.items
    ensures Play(marks).value.fates <= Play(marks + more).value.fates
  {
    if more == [] {
      assert marks + more == marks;
    } else {
      var init, last := more[..|more| - 1], more[|more| - 1];
      assert marks + more == (marks + init) + [last];
      PlayLast(marks + init, last);
      PlayGrows(marks, init);
    }
  }
}
