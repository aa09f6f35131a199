/** What every step of the Python server keeps: each process's output is a run of the reference log. */
module PyRuns {
  import opened Protocol
  import opened Sequences
  import opened StreamRelay
  import opened PyServer
  import L = RelayLog

  // ---- the marks of one process ----

  function MarkOf(p: nat, e: Event): seq<L.Mark<ServerMsg>>
  {
    match e
    case Emitted(q, msg) => if q == p then [L.Append(msg)] else []
    case Wrote(q, w, msg) => if q == p then [L.Deliver(w, msg)] else []
    case Dropped(q, msg) => if q == p then [L.Lose(msg)] else []
    case _ => []
  }

  /** What happened to the output of process `p`, as marks for the reference log. */
  function Marks(p: nat, tr: seq<Event>): seq<L.Mark<ServerMsg>> {
    Collect((e: Event) => MarkOf(p, e), tr)
  }

  lemma MarksLast(p: nat, tr: seq<Event>, e: Event)
    ensures Marks(p, tr + [e]) == Marks(p, tr) + MarkOf(p, e)
    ensures MarkOf(p, e) == [] ==> Marks(p, tr + [e]) == Marks(p, tr)
  {
    CollectLast((e: Event) => MarkOf(p, e), tr, e);
  }

  /** Events that say nothing about process `p` leave its marks alone. */
  lemma {:induction false} MarksSkip(p: nat, tr: seq<Event>, evs: seq<Event>)
    requires forall i :: 0 <= i < |evs| ==> MarkOf(p, evs[i]) == []
    ensures Marks(p, tr + evs) == Marks(p, tr)
  {
    if evs == [] {
      assert tr + evs == tr;
    } else {
      var init, e := evs[..|evs| - 1], evs[|evs| - 1];
      MarksSkip(p, tr, init);
      LastApart(tr, evs);
      MarksLast(p, tr + init, e);
    }
  }

  /** Some fates and then `k` times the fate `f`. */
  function Extend(fates: seq<L.Fate>, f: L.Fate, k: nat): (r: seq<L.Fate>)
    ensures |r| == |fates| + k
    ensures forall i :: 0 <= i < |r| ==> r[i] == if i < |fates| then fates[i] else f
  {
    if k == 0 then fates else Extend(fates, f, k - 1) + [f]
  }

  function Leaving(p: nat, f: L.Fate, msg: ServerMsg): Event {
    match f
    case Delivered(w) => Wrote(p, w, msg)
    case Lost => Dropped(p, msg)
  }

  lemma OneAppended(p: nat, tr: seq<Event>, l: L.Log<ServerMsg>, msg: ServerMsg)
    requires L.Sound(l) && L.Play(Marks(p, tr)) == Some(l)
    ensures L.Play(Marks(p, tr + [Emitted(p, msg)])) == Some(L.Log(l.items + [msg], l.fates))
  {
    MarksLast(p, tr, Emitted(p, msg));
    L.PlayLast(Marks(p, tr), L.Append(msg));
  }

  /** The message at the cursor leaves. */
  lemma OneLeaves(p: nat, tr: seq<Event>, l: L.Log<ServerMsg>, e: Event, f: L.Fate)
    requires L.Play(Marks(p, tr)) == Some(l) && |l.fates| < |l.items| && e == Leaving(p, f, l.items[|l.fates|])
    ensures L.Play(Marks(p, tr + [e])) == Some(L.Log(l.items, l.fates + [f]))
  {
    MarksLast(p, tr, e);
    L.PlayLast(Marks(p, tr), MarkOf(p, e)[0]);
  }

  /** The process's log stands at `l`. */
  ghost predicate StandsAt(p: nat, tr: seq<Event>, l: L.Log<ServerMsg>) {
    L.Play(Marks(p, tr)) == Some(l)
  }

  /** The log with the next `k` messages gone the way of `f`. */
  function Moved(l: L.Log<ServerMsg>, f: L.Fate, k: nat): L.Log<ServerMsg> {
    L.Log(l.items, Extend(l.fates, f, k))
  }

  lemma BlockLast(p: nat, tr: seq<Event>, l: L.Log<ServerMsg>, e: Event, f: L.Fate, k: nat)
    requires |l.fates| + k < |l.items| && e == Leaving(p, f, l.items[|l.fates| + k])
    requires StandsAt(p, tr, Moved(l, f, k))
    ensures StandsAt(p, tr + [e], Moved(l, f, k + 1))
  {
    OneLeaves(p, tr, Moved(l, f, k), e, f);
  }

  /** A block of messages at the cursor leaves with one fate. */
  lemma BlockLeaves(p: nat, tr: seq<Event>, l: L.Log<ServerMsg>, evs: seq<Event>, f: L.Fate)
    requires StandsAt(p, tr, l) && |l.fates| + |evs| <= |l.items|
    requires forall i :: 0 <= i < |evs| ==> evs[i] == Leaving(p, f, l.items[|l.fates| + i])
    ensures StandsAt(p, tr + evs, Moved(l, f, |evs|))
  {
    var now := tr;
    for k := 0 to |evs|
      invariant now == tr + evs[..k] && StandsAt(p, now, Moved(l, f, k))
    {
      BlockLast(p, now, l, evs[k], f, k);
      now := now + [evs[k]];
    }
    assert evs[..|evs|] == evs;
  }

  // ---- the fates of one process's messages, in order ----

  /**
   Connections took messages in the order they were accepted, and nothing is lost between two
   messages that one connection took: only the connection that is still current may take more.
   */
  ghost predicate Orderly(fates: seq<L.Fate>, writer: Option<nat>, conns: nat) {
    && (forall i :: 0 <= i < |fates| && fates[i].Delivered? ==> fates[i].conn < conns)
    && (forall i, k :: 0 <= i < k < |fates| && fates[i].Delivered? && fates[k].Delivered? ==> fates[i].conn <= fates[k].conn)
    && (forall i, j, k :: 0 <= i < j < k < |fates| && fates[i].Delivered? && fates[j].Lost? && fates[k].Delivered? ==>
          fates[i].conn < fates[k].conn)
    && (forall i, j :: 0 <= i < j < |fates| && fates[i].Delivered? && fates[j].Lost? && writer.Some? ==>
          fates[i].conn < writer.value)
  }

  lemma OrderlyDeliver(fates: seq<L.Fate>, w: nat, k: nat)
    requires Orderly(fates, Some(w), w + 1)
    ensures Orderly(Extend(fates, L.Delivered(w), k), Some(w), w + 1)
  {
  }

  lemma OrderlyLose(fates: seq<L.Fate>, conns: nat, k: nat)
    requires Orderly(fates, None, conns)
    ensures Orderly(Extend(fates, L.Lost, k), None, conns)
  {
  }

  /** What goes to the current writer, or is lost because there is none. */
  lemma OrderlyOnwards(fates: seq<L.Fate>, w: Option<nat>, conns: nat, f: L.Fate, k: nat)
    requires Orderly(fates, w, conns)
    requires match w case Some(n) => f == L.Delivered(n) && conns == n + 1 case None => f == L.Lost
    ensures Orderly(Extend(fates, f, k), w, conns)
  {
    if w.Some? {
      OrderlyDeliver(fates, w.value, k);
    } else {
      OrderlyLose(fates, conns, k);
    }
  }

  // ---- the invariant ----

  /** The log of process `p`. */
  ghost function LogOf(p: nat, tr: seq<Event>): (l: L.Log<ServerMsg>)
    requires L.Play(Marks(p, tr)).Some?
    ensures |l.fates| <= |l.items|
  {
    L.Play(Marks(p, tr)).value
  }

  ghost predicate Tracked(p: nat, mp: Process, tr: seq<Event>, writer: Option<nat>, conns: nat) {
    && L.Play(Marks(p, tr)).Some?
    && mp.buffer == L.Pending(LogOf(p, tr))
    && (mp.subscribed ==> mp.buffer == [])
    && Orderly(LogOf(p, tr).fates, writer, conns)
  }

  ghost predicate Named(s: Server) {
    forall n :: n in s.procs ==> s.procs[n] < |s.all| && s.all[s.procs[n]].name == n
  }

  ghost predicate Settled(s: Server) {
    && Named(s)
    && (s.writer.Some? ==> s.writer.value + 1 == |s.handlers|)
    && (forall p :: 0 <= p < |s.all| ==> Tracked(p, s.all[p], s.trace, s.writer, |s.handlers|))
    && (forall p: nat :: p >= |s.all| ==> Marks(p, s.trace) == [])
  }

  // ---- steps that touch no buffer ----

  predicate Neutral(e: Event) {
    e.Answered? || e.Unanswered? || e.StdinWritten?
  }

  /** No buffer changes, nothing gets subscribed, and the writer stays or goes. */
  ghost predicate Quiet(s: Server, s': Server) {
    && |s'.all| == |s.all|
    && (forall p :: 0 <= p < |s.all| ==>
          && s'.all[p].buffer == s.all[p].buffer && s'.all[p].name == s.all[p].name
          && (s'.all[p].subscribed ==> s.all[p].subscribed))
    && s.trace <= s'.trace && (forall i :: |s.trace| <= i < |s'.trace| ==> Neutral(s'.trace[i]))
    && |s'.handlers| == |s.handlers|
    && (s'.writer == s.writer || s'.writer.None?)
    && (forall n :: n in s'.procs ==> n in s.procs && s'.procs[n] == s.procs[n])
  }

  lemma QuietTracked(p: nat, mp: Process, mp': Process, tr: seq<Event>, tr': seq<Event>, w: Option<nat>, w': Option<nat>, conns: nat)
    requires Tracked(p, mp, tr, w, conns) && mp'.buffer == mp.buffer && (mp'.subscribed ==> mp.subscribed)
    requires tr <= tr' && (forall i :: |tr| <= i < |tr'| ==> Neutral(tr'[i])) && (w' == w || w'.None?)
    ensures Tracked(p, mp', tr', w', conns)
  {
    assert tr' == tr + tr'[|tr|..];
    MarksSkip(p, tr, tr'[|tr|..]);
  }

  lemma QuietKeeps(s: Server, s': Server)
    requires Settled(s) && Quiet(s, s')
    ensures Settled(s')
  {
    forall p | 0 <= p < |s.all| ensures Tracked(p, s'.all[p], s'.trace, s'.writer, |s'.handlers|) {
      QuietTracked(p, s.all[p], s'.all[p], s.trace, s'.trace, s.writer, s'.writer, |s.handlers|);
    }
    forall p: nat | p >= |s.all| ensures Marks(p, s'.trace) == [] {
      assert s'.trace == s.trace + s'.trace[|s.trace|..];
      MarksSkip(p, s.trace, s'.trace[|s.trace|..]);
    }
  }

  lemma QuietTwice(s: Server, mid: Server, s': Server)
    requires Quiet(s, mid) && Quiet(mid, s')
    ensures Quiet(s, s')
  {
  }

  lemma AnswerQuiet(s: Server, c: nat, r: ResultMsg)
    requires c < |s.handlers|
    ensures Quiet(s, Answer(s, c, r))
  {
  }

  lemma RetireQuiet(s: Server, w: nat)
    ensures Quiet(s, Retire(s, w))
  {
  }

  lemma SetQuiet(s: Server, p: nat, mp: Process)
    requires p < |s.all| && mp.buffer == s.all[p].buffer && mp.name == s.all[p].name
    requires mp.subscribed ==> s.all[p].subscribed
    ensures Quiet(s, Set(s, p, mp))
  {
  }

  lemma ThenAnswer(s: Server, mid: Server, c: nat, r: ResultMsg)
    requires Quiet(s, mid) && c < |mid.handlers|
    ensures Quiet(s, Answer(mid, c, r))
  {
    AnswerQuiet(mid, c, r);
    QuietTwice(s, mid, Answer(mid, c, r));
  }

  lemma AtQuiet(s: Server, c: nat, h: Handler)
    requires c < |s.handlers|
    ensures Quiet(s, At(s, c, h))
  {
  }

  // ---- an emission ----

  /** The events of a step that concern only process `p` leave the others tracked. */
  lemma OthersTracked(s: Server, s': Server, p: nat)
    requires Settled(s) && p < |s.all| && |s'.all| == |s.all| && |s'.handlers| == |s.handlers| && s'.writer == s.writer
    requires forall q :: 0 <= q < |s.all| && q != p ==> s'.all[q] == s.all[q]
    requires s.trace <= s'.trace
    requires forall i, q: nat :: |s.trace| <= i < |s'.trace| && q != p ==> MarkOf(q, s'.trace[i]) == []
    ensures forall q :: 0 <= q < |s.all| && q != p ==> Tracked(q, s'.all[q], s'.trace, s'.writer, |s'.handlers|)
    ensures forall q: nat :: q >= |s.all| ==> Marks(q, s'.trace) == []
  {
    var evs := s'.trace[|s.trace|..];
    assert s'.trace == s.trace + evs;
    forall q: nat | q != p ensures Marks(q, s'.trace) == Marks(q, s.trace) {
      MarksSkip(q, s.trace, evs);
    }
    forall q | 0 <= q < |s.all| && q != p ensures Tracked(q, s'.all[q], s'.trace, s'.writer, |s'.handlers|) {
      assert Tracked(q, s.all[q], s.trace, s.writer, |s.handlers|);
    }
  }

  lemma BufferedTracked(p: nat, mp: Process, tr: seq<Event>, w: Option<nat>, conns: nat, msg: ServerMsg)
    requires Tracked(p, mp, tr, w, conns) && !mp.subscribed
    ensures Tracked(p, mp.(buffer := mp.buffer + [msg]), tr + [Emitted(p, msg)], w, conns)
  {
    OneAppended(p, tr, LogOf(p, tr), msg);
  }

  lemma OnePasses(p: nat, tr: seq<Event>, l: L.Log<ServerMsg>, msg: ServerMsg, f: L.Fate)
    requires L.Play(Marks(p, tr)) == Some(l) && |l.fates| == |l.items|
    ensures L.Play(Marks(p, tr + [Emitted(p, msg), Leaving(p, f, msg)])) == Some(L.Log(l.items + [msg], l.fates + [f]))
  {
    var e := Leaving(p, f, msg);
    OneAppended(p, tr, l, msg);
    OneLeaves(p, tr + [Emitted(p, msg)], L.Log(l.items + [msg], l.fates), e, f);
    LastApart(tr, [Emitted(p, msg), e]);
    assert [Emitted(p, msg), e][..1] == [Emitted(p, msg)];
  }

  /** An emission that leaves at once: to the current writer, or lost because there is none. */
  lemma RelayedTracked(p: nat, mp: Process, tr: seq<Event>, w: Option<nat>, conns: nat, msg: ServerMsg, f: L.Fate)
    requires Tracked(p, mp, tr, w, conns) && mp.subscribed
    requires match w case Some(n) => f == L.Delivered(n) && conns == n + 1 case None => f == L.Lost
    ensures Tracked(p, mp, tr + [Emitted(p, msg), Leaving(p, f, msg)], w, conns)
  {
    var l := LogOf(p, tr);
    assert |l.fates| == |l.items| by {
      assert |L.Pending(l)| == 0;
    }
    OnePasses(p, tr, l, msg, f);
    assert Extend(l.fates, f, 1) == Extend(l.fates, f, 0) + [f];
    OrderlyOnwards(l.fates, w, conns, f, 1);
  }

  lemma EmissionTracked(s: Server, p: nat, msg: ServerMsg)
    requires Settled(s) && p < |s.all|
    ensures var s' := RelayOrBuffer(s, p, msg);
            Tracked(p, s'.all[p], s'.trace, s'.writer, |s'.handlers|)
  {
    var mp := s.all[p];
    if !mp.subscribed {
      BufferedTracked(p, mp, s.trace, s.writer, |s.handlers|, msg);
    } else {
      var f := if s.writer.Some? then L.Delivered(s.writer.value) else L.Lost;
      RelayedTracked(p, mp, s.trace, s.writer, |s.handlers|, msg, f);
    }
  }

  /** Emitting and flushing change one process and record only what concerns it. */
  ghost predicate Touches(s: Server, s': Server, p: nat)
  {
    && |s'.all| == |s.all| && s'.handlers == s.handlers && s'.writer == s.writer && s'.procs == s.procs
    && (forall q :: 0 <= q < |s.all| && q != p ==> s'.all[q] == s.all[q])
    && (p < |s.all| ==> s'.all[p].name == s.all[p].name)
    && s.trace <= s'.trace
    && (forall i, q: nat :: |s.trace| <= i < |s'.trace| && q != p ==> MarkOf(q, s'.trace[i]) == [])
  }

  lemma TouchesKeeps(s: Server, s': Server, p: nat)
    requires Settled(s) && p < |s.all| && Touches(s, s', p)
    requires Tracked(p, s'.all[p], s'.trace, s'.writer, |s'.handlers|)
    ensures Settled(s')
  {
    OthersTracked(s, s', p);
  }

  lemma EmissionTouches(s: Server, p: nat, msg: ServerMsg)
    requires p < |s.all|
    ensures Touches(s, RelayOrBuffer(s, p, msg), p)
  {
  }

  lemma EmissionKeeps(s: Server, p: nat, msg: ServerMsg)
    requires Settled(s) && p < |s.all|
    ensures Settled(RelayOrBuffer(s, p, msg))
  {
    EmissionTracked(s, p, msg);
    EmissionTouches(s, p, msg);
    TouchesKeeps(s, RelayOrBuffer(s, p, msg), p);
  }

  // ---- a subscribe ----

  lemma FlushedLog(p: nat, l: L.Log<ServerMsg>, tr: seq<Event>, evs: seq<Event>, f: L.Fate)
    requires |l.fates| <= |l.items| && L.Play(Marks(p, tr)) == Some(l)
    requires |evs| == |L.Pending(l)| && forall i :: 0 <= i < |evs| ==> evs[i] == Leaving(p, f, L.Pending(l)[i])
    ensures L.Play(Marks(p, tr + evs)) == Some(L.Log(l.items, Extend(l.fates, f, |evs|)))
  {
    assert forall i :: 0 <= i < |evs| ==> L.Pending(l)[i] == l.items[|l.fates| + i];
    BlockLeaves(p, tr, l, evs, f);
  }

  lemma FlushedTracked(p: nat, mp: Process, tr: seq<Event>, w: Option<nat>, conns: nat, evs: seq<Event>, f: L.Fate)
    requires Tracked(p, mp, tr, w, conns)
    requires match w case Some(n) => f == L.Delivered(n) && conns == n + 1 case None => f == L.Lost
    requires |evs| == |mp.buffer| && forall i :: 0 <= i < |evs| ==> evs[i] == Leaving(p, f, mp.buffer[i])
    ensures Tracked(p, mp.(buffer := [], subscribed := true), tr + evs, w, conns)
  {
    var l := LogOf(p, tr);
    FlushedLog(p, l, tr, evs, f);
    assert L.Pending(L.Log(l.items, Extend(l.fates, f, |evs|))) == [];
    OrderlyOnwards(l.fates, w, conns, f, |evs|);
  }

  lemma FlushTouches(s: Server, p: nat)
    requires p < |s.all|
    ensures Touches(s, Flush(s, p), p)
  {
    var evs := if s.writer.Some? then Wrotes(p, s.writer.value, s.all[p].buffer) else Drops(p, s.all[p].buffer);
    assert forall i, q: nat :: 0 <= i < |evs| && q != p ==> MarkOf(q, evs[i]) == [];
    assert Flush(s, p).trace == s.trace + evs;
  }

  lemma FlushKeeps(s: Server, p: nat)
    requires Settled(s) && p < |s.all|
    ensures Settled(Flush(s, p))
  {
    var mp := s.all[p];
    var f := if s.writer.Some? then L.Delivered(s.writer.value) else L.Lost;
    var evs := if s.writer.Some? then Wrotes(p, s.writer.value, mp.buffer) else Drops(p, mp.buffer);
    FlushedTracked(p, mp, s.trace, s.writer, |s.handlers|, evs, f);
    FlushTouches(s, p);
    TouchesKeeps(s, Flush(s, p), p);
  }

  // ---- connections and new processes ----

  lemma ConnectKeeps(s: Server)
    requires Settled(s)
    ensures Settled(Connect(s))
  {
    var s' := Connect(s);
    forall p | 0 <= p < |s.all| ensures Tracked(p, s'.all[p], s'.trace, s'.writer, |s'.handlers|) {
      assert Tracked(p, s.all[p], s.trace, s.writer, |s.handlers|);
    }
  }

  lemma NewTracked(p: nat, name: Name, pid: nat, tr: seq<Event>, w: Option<nat>, conns: nat)
    requires Marks(p, tr) == []
    ensures Tracked(p, NewProcess(name, pid), tr, w, conns)
  {
  }

  lemma CreateTracked(s: Server, all: seq<Process>, name: Name, pid: nat)
    requires forall p :: 0 <= p < |s.all| ==> Tracked(p, s.all[p], s.trace, s.writer, |s.handlers|)
    requires Marks(|s.all|, s.trace) == [] && all == s.all + [NewProcess(name, pid)]
    ensures forall p :: 0 <= p < |all| ==> Tracked(p, all[p], s.trace, s.writer, |s.handlers|)
  {
    forall p | 0 <= p < |all| ensures Tracked(p, all[p], s.trace, s.writer, |s.handlers|) {
      if p < |s.all| {
        QuietTracked(p, s.all[p], all[p], s.trace, s.trace, s.writer, s.writer, |s.handlers|);
      } else {
        NewTracked(p, name, pid, s.trace, s.writer, |s.handlers|);
      }
    }
  }

  lemma CreateKeeps(s: Server, name: Name, pid: nat)
    requires Settled(s)
    ensures Settled(s.(all := s.all + [NewProcess(name, pid)], procs := s.procs[name := |s.all|]))
  {
    CreateTracked(s, s.all + [NewProcess(name, pid)], name, pid);
  }

  // ---- every step ----

  /** An emission between two changes that touch no buffer. */
  lemma EmitBetween(s: Server, p: nat, before: Process, msg: ServerMsg, after: Process)
    requires Settled(s) && p < |s.all|
    requires before.buffer == s.all[p].buffer && before.name == s.all[p].name && before.subscribed == s.all[p].subscribed
    requires var sent := RelayOrBuffer(Set(s, p, before), p, msg);
             after.buffer == sent.all[p].buffer && after.name == sent.all[p].name && after.subscribed == sent.all[p].subscribed
    ensures Settled(Set(RelayOrBuffer(Set(s, p, before), p, msg), p, after))
  {
    SetQuiet(s, p, before);
    QuietKeeps(s, Set(s, p, before));
    EmissionKeeps(Set(s, p, before), p, msg);
    var sent := RelayOrBuffer(Set(s, p, before), p, msg);
    SetQuiet(sent, p, after);
    QuietKeeps(sent, Set(sent, p, after));
  }

  lemma EmitOutKeeps(s: Server, p: nat, body: Body, now: nat)
    requires Settled(s) && p < |s.all|
    ensures Settled(EmitOut(s, p, body, now))
  {
    var before := if body.OutLine? then s.all[p].(lastStdout := now) else s.all[p];
    assert Set(s, p, s.all[p]) == s;
    EmitBetween(s, p, before, Message(s.all[p].name, body), EmitOut(s, p, body, now).all[p]);
  }

  lemma TakeStdoutKeeps(s: Server, o: Oracle, p: nat, ev: ReadEvent, now: nat)
    requires Settled(s) && p < |s.all|
    ensures Settled(TakeStdout(s, o, p, ev, now))
  {
    if ev.Text? {
      var line := o.trim(ev.line);
      match o.parse(line) {
        case Some(v) => EmitOutKeeps(s, p, OutLine(Wrap(v)), now);
        case None =>
          if line != "" {
            EmitOutKeeps(s, p, TextLine(line), now);
          }
      }
    } else {
      QuietKeeps(s, TakeStdout(s, o, p, ev, now));
    }
  }

  lemma TakeStderrKeeps(s: Server, o: Oracle, p: nat, ev: ReadEvent)
    requires Settled(s) && p < |s.all|
    ensures Settled(TakeStderr(s, o, p, ev))
  {
    var s' := TakeStderr(s, o, p, ev);
    if ev.Text? && o.trim(ev.line) != "" {
      var msg := Stderr(s.all[p].name, o.trim(ev.line));
      EmissionKeeps(s, p, msg);
      QuietKeeps(RelayOrBuffer(s, p, msg), s');
    } else {
      QuietKeeps(s, s');
    }
  }

  lemma ReapKeeps(s: Server, p: nat, code: Option<int>)
    requires Settled(s) && p < |s.all|
    ensures Settled(Reap(s, p, code))
  {
    var before := s.all[p].(status := Exited, exitCode := code);
    EmitBetween(s, p, before, Exit(s.all[p].name, code), Reap(s, p, code).all[p]);
  }

  lemma DrainedQuiet(s: Server, p: nat, out: bool, ok: bool)
    requires p < |s.all|
    ensures Quiet(s, Drained(s, p, out, ok))
  {
    var task := if out then s.all[p].out else s.all[p].err;
    if task.Draining? || task.Parting? {
      var s1 := if ok then s else Retire(s, task.writer);
      RetireQuiet(s, task.writer);
      var next := if task.Draining? then Listening else Over;
      var mp := if out then s1.all[p].(out := next) else s1.all[p].(err := next);
      SetQuiet(s1, p, mp);
      QuietTwice(s, s1, Set(s1, p, mp));
    }
  }

  lemma HandlesSubscribe(s: Server, c: nat, cmd: CmdMsg, env: Env)
    requires c < |s.handlers| && cmd.verb.Subscribe? && Find(s, cmd.name).Some?
    ensures var p := Find(s, cmd.name).value;
            var count := |s.all[p].buffer|;
            HandleCommand(s, c, cmd, env) ==
            if s.writer.Some? then At(Flush(s, p), c, Replaying(p, s.writer.value, cmd.name, count))
            else Answer(Flush(s, p), c, SubscribeResult(cmd.name, s.all[p], count))
  {
  }

  lemma SubscribeKeeps(s: Server, c: nat, cmd: CmdMsg, env: Env)
    requires Settled(s) && c < |s.handlers| && cmd.verb.Subscribe? && Find(s, cmd.name).Some?
    ensures Settled(HandleCommand(s, c, cmd, env))
  {
    var name, p := cmd.name, Find(s, cmd.name).value;
    var flushed, count := Flush(s, p), |s.all[p].buffer|;
    FlushKeeps(s, p);
    if s.writer.Some? {
      AtQuiet(flushed, c, Replaying(p, s.writer.value, name, count));
    } else {
      AnswerQuiet(flushed, c, SubscribeResult(name, s.all[p], count));
    }
    HandlesSubscribe(s, c, cmd, env);
    QuietKeeps(flushed, HandleCommand(s, c, cmd, env));
  }

  lemma CommandKeeps(s: Server, c: nat, cmd: CmdMsg, env: Env)
    requires Settled(s) && c < |s.handlers|
    ensures Settled(HandleCommand(s, c, cmd, env))
  {
    if cmd.verb.Subscribe? && Find(s, cmd.name).Some? {
      SubscribeKeeps(s, c, cmd, env);
    } else {
      CommandQuiet(s, c, cmd, env);
      QuietKeeps(s, HandleCommand(s, c, cmd, env));
    }
  }

  lemma CommandQuiet(s: Server, c: nat, cmd: CmdMsg, env: Env)
    requires c < |s.handlers| && !(cmd.verb.Subscribe? && Find(s, cmd.name).Some?)
    ensures Quiet(s, HandleCommand(s, c, cmd, env))
  {
    match cmd.verb {
      case Spawn => SpawnQuiet(s, c, cmd.name);
      case Kill => KillQuiet(s, c, cmd.name, env);
      case Interrupt => InterruptQuiet(s, c, cmd.name, env);
      case Unsubscribe => UnsubscribeQuiet(s, c, cmd.name);
      case Subscribe => AnswerQuiet(s, c, Err(cmd.name, "not found"));
      case List => AnswerQuiet(s, c, Ok("").(processes := Some(Listing(s))));
      case Uptime => AnswerQuiet(s, c, Ok("").(uptime := Some(env.uptime)));
      case Unknown(text) => AnswerQuiet(s, c, Err("", "unknown command: " + text));
    }
  }

  lemma SpawnQuiet(s: Server, c: nat, name: Name)
    requires c < |s.handlers|
    ensures Quiet(s, CmdSpawn(s, c, name))
  {
    var p := Find(s, name);
    if p.Some? && s.all[p.value].status == Running {
      AnswerQuiet(s, c, Ok(name).(pid := Some(s.all[p.value].pid), alreadyRunning := Some(true)));
    }
  }

  lemma FinishKillQuiet(s: Server, p: nat, code: Option<int>)
    requires p < |s.all|
    ensures Quiet(s, FinishKill(s, p, code))
  {
  }

  lemma ForgetQuiet(s: Server, mid: Server, c: nat, name: Name)
    requires Quiet(s, mid) && c < |mid.handlers|
    ensures Quiet(s, Forget(mid, c, name))
  {
    ThenAnswer(s, mid.(procs := mid.procs - {name}), c, Ok(name));
  }

  lemma KillQuiet(s: Server, c: nat, name: Name, env: Env)
    requires c < |s.handlers|
    ensures Quiet(s, CmdKill(s, c, name, env))
  {
    match Find(s, name) {
      case None => AnswerQuiet(s, c, Err(name, "not found"));
      case Some(p) =>
        ForgetQuiet(s, s, c, name);
        FinishKillQuiet(s, p, env.code);
        ForgetQuiet(s, FinishKill(s, p, env.code), c, name);
        AtQuiet(s, c, Killing(p, name));
    }
  }

  lemma InterruptQuiet(s: Server, c: nat, name: Name, env: Env)
    requires c < |s.handlers|
    ensures Quiet(s, CmdInterrupt(s, c, name, env))
  {
    AnswerQuiet(s, c, Err(name, "not running"));
    AnswerQuiet(s, c, Ok(name));
    if env.signal.Some? {
      AnswerQuiet(s, c, Err(name, env.signal.value));
    }
  }

  lemma UnsubscribeQuiet(s: Server, c: nat, name: Name)
    requires c < |s.handlers|
    ensures Quiet(s, CmdUnsubscribe(s, c, name))
  {
    match Find(s, name) {
      case None => AnswerQuiet(s, c, Err(name, "not found"));
      case Some(p) =>
        var mp := s.all[p].(subscribed := false);
        SetQuiet(s, p, mp);
        ThenAnswer(s, Set(s, p, mp), c, Ok(name));
    }
  }

  lemma ResumeKeeps(s: Server, c: nat, ok: bool, env: Env)
    requires Settled(s) && c < |s.handlers|
    ensures Settled(ResumeHandler(s, c, ok, env))
  {
    var s' := ResumeHandler(s, c, ok, env);
    var h := s.handlers[c];
    if h.Spawning? && env.spawn.Started? {
      CreateKeeps(s, h.name, env.spawn.pid);
      QuietKeeps(s.(all := s.all + [NewProcess(h.name, env.spawn.pid)], procs := s.procs[h.name := |s.all|]), s');
    } else {
      ResumeQuiet(s, c, ok, env);
      QuietKeeps(s, s');
    }
  }

  lemma ReplayQuiet(s: Server, c: nat, h: Handler, ok: bool)
    requires c < |s.handlers| && h.Replaying?
    ensures Quiet(s, FinishSubscribe(s, c, h, ok))
  {
    LeavesWriter(s, c, h.writer, Reading);
    if h.proc < |s.all| {
      AnswerQuiet(s, c, SubscribeResult(h.name, s.all[h.proc], h.count));
    }
  }

  lemma FeedQuiet(s: Server, c: nat, p: nat, ok: bool, now: nat)
    requires c < |s.handlers|
    ensures Quiet(s, FinishStdin(s, c, p, ok, now))
  {
    var fed := if ok && p < |s.all| then Set(s, p, s.all[p].(lastStdin := now)) else s;
    AtQuiet(fed, c, Reading);
    QuietTwice(s, fed, At(fed, c, Reading));
  }

  lemma ResumeQuiet(s: Server, c: nat, ok: bool, env: Env)
    requires c < |s.handlers| && !(s.handlers[c].Spawning? && env.spawn.Started?)
    ensures Quiet(s, ResumeHandler(s, c, ok, env))
  {
    match s.handlers[c] {
      case Answering(w) => LeavesWriter(s, c, w, Reading);
      case Replaying(_, _, _, _) => ReplayQuiet(s, c, s.handlers[c], ok);
      case Spawning(name) =>
        if env.spawn.SpawnFailed? {
          AnswerQuiet(s, c, Err(name, env.spawn.error));
        }
      case Killing(p, name) =>
        var killed := if p < |s.all| then FinishKill(s, p, env.code) else s;
        ForgetQuiet(s, killed, c, name);
      case Feeding(p) => FeedQuiet(s, c, p, ok, env.now);
      case _ =>
    }
  }

  /** A handler goes on after a drain, which may have made its writer retire. */
  lemma LeavesWriter(s: Server, c: nat, w: nat, h: Handler)
    requires c < |s.handlers|
    ensures Quiet(s, At(s, c, h)) && Quiet(s, At(Retire(s, w), c, h))
  {
    RetireQuiet(s, w);
    AtQuiet(s, c, h);
    AtQuiet(Retire(s, w), c, h);
    QuietTwice(s, Retire(s, w), At(Retire(s, w), c, h));
  }

  lemma StdinQuiet(s: Server, c: nat, name: Name, data: Json)
    requires c < |s.handlers|
    ensures Quiet(s, HandleStdin(s, c, name, data))
  {
    if Find(s, name).Some? {
      AtQuiet(s, c, Feeding(Find(s, name).value));
    }
  }

  lemma LineKeeps(s: Server, c: nat, line: Line, env: Env)
    requires Settled(s) && c < |s.handlers|
    ensures Settled(HandleLine(s, c, line, env))
  {
    match line {
      case Parsed(Cmd(cmd)) => CommandKeeps(s, c, cmd, env);
      case Parsed(Stdin(name, data)) =>
        StdinQuiet(s, c, name, data);
        QuietKeeps(s, HandleStdin(s, c, name, data));
      case Garbage(_) =>
    }
  }

  lemma RelayStepKeeps(s: Server, o: Oracle, l: Label)
    requires Settled(s) && (l.ReadOut? || l.ReadErr? || l.ChildGone?)
    ensures Settled(Step(s, o, l))
  {
    if Free(s, l.proc) {
      match l {
        case ReadOut(p, ev, now) => TakeStdoutKeeps(s, o, p, ev, now);
        case ReadErr(p, ev) => TakeStderrKeeps(s, o, p, ev);
        case ChildGone(p, code) => ReapKeeps(s, p, code);
      }
    }
  }

  lemma HandlerStepKeeps(s: Server, o: Oracle, l: Label)
    requires Settled(s) && (l.Line? || l.Resume?)
    ensures Settled(Step(s, o, l))
  {
    if l.conn < |s.handlers| {
      match l {
        case Line(c, line, env) => LineKeeps(s, c, line, env);
        case Resume(c, ok, env) => ResumeKeeps(s, c, ok, env);
      }
    }
  }

  predicate Simple(l: Label) {
    !l.Accept? && !l.Line? && !l.Resume? && !l.ReadOut? && !l.ReadErr? && !l.ChildGone?
  }

  lemma KillNextQuiet(s: Server, p: nat, env: Env)
    requires s.shutdown.Stopping? && p < |s.all|
    ensures Quiet(s, KillNext(s, p, env))
  {
    FinishKillQuiet(s, p, env.code);
  }

  lemma ShutdownQuiet(s: Server, o: Oracle, l: Label)
    requires l.BeginShutdown? || l.ShutdownNext? || l.ShutdownGone? || l.EndShutdown?
    ensures Quiet(s, Step(s, o, l))
  {
    match l {
      case ShutdownNext(p, env) => if s.shutdown.Stopping? && p < |s.all| { KillNextQuiet(s, p, env); }
      case ShutdownGone(code) =>
        if s.shutdown.Stopping? && s.shutdown.now.Some? && s.shutdown.now.value < |s.all| {
          FinishKillQuiet(s, s.shutdown.now.value, code);
        }
      case _ =>
    }
  }

  lemma SimpleQuiet(s: Server, o: Oracle, l: Label)
    requires Simple(l)
    ensures Quiet(s, Step(s, o, l))
  {
    match l {
      case Depart(c) => if c < |s.handlers| { LeavesWriter(s, c, c, Left); }
      case DrainEnds(p, out, ok) => if Free(s, p) { DrainedQuiet(s, p, out, ok); }
      case Greeted(c) => if c < |s.handlers| { AtQuiet(s, c, Reading); }
      case Vanish(c) => if c < |s.handlers| { AtQuiet(s, c, Left); }
      case Cancel(p, out) =>
      case _ => ShutdownQuiet(s, o, l);
    }
  }

  lemma StepKeeps(s: Server, o: Oracle, l: Label)
    requires Settled(s)
    ensures Settled(Step(s, o, l))
  {
    if l.Accept? {
      ConnectKeeps(s);
    } else if l.Line? || l.Resume? {
      HandlerStepKeeps(s, o, l);
    } else if l.ReadOut? || l.ReadErr? || l.ChildGone? {
      RelayStepKeeps(s, o, l);
    } else {
      SimpleQuiet(s, o, l);
      QuietKeeps(s, Step(s, o, l));
    }
  }

  lemma {:induction false} RunSettled(o: Oracle, run: seq<Label>)
    ensures Settled(Run(o, run))
  {
    if run != [] {
      RunSettled(o, run[..|run| - 1]);
      StepKeeps(Run(o, run[..|run| - 1]), o, run[|run| - 1]);
    }
  }
}
