/**
 The client's demultiplexer: it routes what arrives on the socket into per-process queues and a
 response queue, while callers register and unregister processes.
 */
module Demux {
  import opened Protocol

  datatype QueueItem = Item(msg: ServerMsg) | ConnectionLost

  /** Reading the socket; out of the loop with the sentinels still to send; or ended. */
  datatype Phase = Reading | Leaving | Ended

  /** `queues` holds every queue ever handed out; `table` says which one a name is registered to. */
  datatype State = State(
    table: map<Name, nat>,
    queues: seq<seq<QueueItem>>,
    responses: seq<ResultMsg>,
    phase: Phase,
    closed: bool)

  const FRESH := State(map[], [], [], Reading, false)

  /** `Ends` is end of file or a read error, `Flush` the sentinels, `Abort` the loss of the demultiplexer itself. */
  datatype Input =
    | Register(name: Name)
    | Unregister(name: Name)
    | Arrive(msg: ServerMsg)
    | Unparsed
    | Ends
    | Flush
    | Abort

  function Route(s: State, msg: ServerMsg): State
  {
    if msg.Result? then s.(responses := s.responses + [msg.result])
    else if NameOf(msg) in s.table && s.table[NameOf(msg)] < |s.queues| then
      var q := s.table[NameOf(msg)];
      s.(queues := s.queues[q := s.queues[q] + [Item(msg)]])
    else s
  }

  function SendSentinels(s: State): State {
    s.(queues := seq(|s.queues|, q requires 0 <= q < |s.queues| =>
                   if q in s.table.Values then s.queues[q] + [ConnectionLost] else s.queues[q]),
       phase := Ended)
  }

  function Step(s: State, i: Input): State
  {
    match i
    case Register(n) => s.(table := s.table[n := |s.queues|], queues := s.queues + [[]])
    case Unregister(n) => s.(table := s.table - {n})
    case Arrive(msg) => if s.phase == Reading then Route(s, msg) else s
    case Unparsed => s
    case Ends => if s.phase == Reading then s.(phase := Leaving, closed := true) else s
    case Flush => if s.phase == Leaving then SendSentinels(s) else s
    case Abort => s.(phase := Ended, closed := true)
  }

  function Run(ins: seq<Input>): State
  {
    if ins == [] then FRESH else Step(Run(ins[..|ins| - 1]), ins[|ins| - 1])
  }

  lemma RunLast(ins: seq<Input>, k: nat)
    requires k < |ins|
    ensures Run(ins[..k + 1]) == Step(Run(ins[..k]), ins[k])
  {
    assert ins[..k + 1][..k] == ins[..k];
  }

  // ---- what a queue should hold, told from the inputs alone ----

  /** How far the demultiplexer has got after these inputs. */
  function PhaseAfter(ins: seq<Input>): Phase
  {
    if ins == [] then Reading
    else
      var before := PhaseAfter(ins[..|ins| - 1]);
      match ins[|ins| - 1]
      case Ends => if before == Reading then Leaving else before
      case Flush => if before == Leaving then Ended else before
      case Abort => Ended
      case _ => before
  }

  /** What an input met in phase `p` adds to the queue registered to `n`. */
  function Share(p: Phase, i: Input, n: Name): seq<QueueItem>
  {
    match i
    case Arrive(msg) => if p == Reading && !msg.Result? && NameOf(msg) == n then [Item(msg)] else []
    case Flush => if p == Leaving then [ConnectionLost] else []
    case _ => []
  }

  function Contribution(ins: seq<Input>, k: nat, n: Name): seq<QueueItem>
    requires k < |ins|
  {
    Share(PhaseAfter(ins[..k]), ins[k], n)
  }

  /** The contributions of inputs `lo` to `hi` to a queue of `n`, in order. */
  function Gather(ins: seq<Input>, lo: nat, hi: nat, n: Name): seq<QueueItem>
    requires hi <= |ins|
  {
    if hi <= lo then [] else Gather(ins, lo, hi - 1, n) + Contribution(ins, hi - 1, n)
  }

  function Registrations(ins: seq<Input>): nat
  {
    if ins == [] then 0 else Registrations(ins[..|ins| - 1]) + if ins[|ins| - 1].Register? then 1 else 0
  }

  /** No input from `lo` to `hi` registers or unregisters `n`. */
  predicate Undisturbed(ins: seq<Input>, lo: nat, hi: nat, n: Name) {
    forall k :: lo <= k < hi && k < |ins| ==> ins[k] != Register(n) && ins[k] != Unregister(n)
  }

  // ---- the queues hold that ----

  ghost predicate Sound(s: State) {
    && (forall n :: n in s.table ==> s.table[n] < |s.queues|)
    && (forall n, m :: n in s.table && m in s.table && n != m ==> s.table[n] != s.table[m])
  }

  lemma StepSound(s: State, i: Input)
    requires Sound(s)
    ensures Sound(Step(s, i)) && |Step(s, i).queues| == |s.queues| + if i.Register? then 1 else 0
  {
  }

  lemma {:induction false} RunSound(ins: seq<Input>)
    ensures Sound(Run(ins)) && |Run(ins).queues| == Registrations(ins) && Run(ins).phase == PhaseAfter(ins)
  {
    if ins != [] {
      RunSound(ins[..|ins| - 1]);
      StepSound(Run(ins[..|ins| - 1]), ins[|ins| - 1]);
    }
  }

  lemma StepOwn(s: State, i: Input, n: Name)
    requires Sound(s) && n in s.table && i != Register(n) && i != Unregister(n)
    ensures n in Step(s, i).table && Step(s, i).table[n] == s.table[n] < |Step(s, i).queues|
    ensures Step(s, i).queues[s.table[n]] == s.queues[s.table[n]] + Share(s.phase, i, n)
  {
    if i.Flush? && s.phase == Leaving {
      assert s.table[n] in s.table.Values;
    }
  }

  lemma QueueBorn(ins: seq<Input>, i: nat, n: Name)
    requires i < |ins| && ins[i] == Register(n)
    ensures var s, q := Run(ins[..i + 1]), Registrations(ins[..i]);
            n in s.table && s.table[n] == q && q < |s.queues| && s.queues[q] == []
  {
    RunSound(ins[..i]);
    RunLast(ins, i);
  }

  /** The queue registered to `n` takes what the next input gives it. */
  lemma QueueTakes(ins: seq<Input>, k: nat, n: Name, q: nat)
    requires k < |ins| && ins[k] != Register(n) && ins[k] != Unregister(n)
    requires n in Run(ins[..k]).table && Run(ins[..k]).table[n] == q && q < |Run(ins[..k]).queues|
    ensures var s := Run(ins[..k + 1]);
            && n in s.table && s.table[n] == q && q < |s.queues|
            && s.queues[q] == Run(ins[..k]).queues[q] + Contribution(ins, k, n)
  {
    RunSound(ins[..k]);
    RunLast(ins, k);
    StepOwn(Run(ins[..k]), ins[k], n);
  }

  /** While a name stays registered to a queue, the queue holds what was gathered for it since. */
  lemma {:induction false} QueueWhileRegistered(ins: seq<Input>, i: nat, k: nat, n: Name)
    requires i < k <= |ins| && ins[i] == Register(n) && Undisturbed(ins, i + 1, k, n)
    ensures var s, q := Run(ins[..k]), Registrations(ins[..i]);
            && n in s.table && s.table[n] == q && q < |s.queues|
            && s.queues[q] == Gather(ins, i + 1, k, n)
  {
    if k == i + 1 {
      QueueBorn(ins, i, n);
    } else {
      QueueWhileRegistered(ins, i, k - 1, n);
      QueueTakes(ins, k - 1, n, Registrations(ins[..i]));
    }
  }

  /** A queue that is not registered stays as it is. */
  lemma QueueStays(ins: seq<Input>, k: nat, q: nat)
    requires k < |ins| && q !in Run(ins[..k]).table.Values && q < |Run(ins[..k]).queues|
    ensures var s := Run(ins[..k + 1]);
            q !in s.table.Values && q < |s.queues| && s.queues[q] == Run(ins[..k]).queues[q]
  {
    RunSound(ins[..k]);
    RunLast(ins, k);
    StepSpares(Run(ins[..k]), ins[k], q);
  }

  /** The queue leaves the table. */
  lemma QueueReplaced(ins: seq<Input>, i: nat, j: nat, n: Name)
    requires i < j < |ins| && ins[i] == Register(n) && Undisturbed(ins, i + 1, j, n)
    requires ins[j] == Register(n) || ins[j] == Unregister(n)
    ensures var s, q := Run(ins[..j + 1]), Registrations(ins[..i]);
            && q !in s.table.Values && q < |s.queues|
            && s.queues[q] == Gather(ins, i + 1, j, n)
  {
    RunSound(ins[..j]);
    RunLast(ins, j);
    QueueWhileRegistered(ins, i, j, n);
    StepReplaces(Run(ins[..j]), ins[j], n);
  }

  /** Once its name is registered anew or unregistered, a queue never changes. */
  lemma {:induction false} QueueAfterwards(ins: seq<Input>, i: nat, j: nat, k: nat, n: Name)
    requires i < j < k <= |ins| && ins[i] == Register(n) && Undisturbed(ins, i + 1, j, n)
    requires ins[j] == Register(n) || ins[j] == Unregister(n)
    ensures var s, q := Run(ins[..k]), Registrations(ins[..i]);
            && q !in s.table.Values && q < |s.queues|
            && s.queues[q] == Gather(ins, i + 1, j, n)
  {
    if k == j + 1 {
      QueueReplaced(ins, i, j, n);
    } else {
      QueueAfterwards(ins, i, j, k - 1, n);
      QueueStays(ins, k - 1, Registrations(ins[..i]));
    }
  }

  lemma StepReplaces(s: State, i: Input, n: Name)
    requires Sound(s) && n in s.table && (i == Register(n) || i == Unregister(n))
    ensures var q := s.table[n];
            q < |Step(s, i).queues| && Step(s, i).queues[q] == s.queues[q] && q !in Step(s, i).table.Values
  {
    var q := s.table[n];
    forall m | m in Step(s, i).table ensures Step(s, i).table[m] != q {
    }
  }

  lemma StepSpares(s: State, i: Input, q: nat)
    requires Sound(s) && q < |s.queues| && q !in s.table.Values
    ensures q < |Step(s, i).queues| && Step(s, i).queues[q] == s.queues[q] && q !in Step(s, i).table.Values
  {
    forall m | m in Step(s, i).table ensures Step(s, i).table[m] != q {
      if m in s.table {
        assert s.table[m] in s.table.Values;
      }
    }
    if i.Arrive? && NameOf(i.msg) in s.table {
      assert s.table[NameOf(i.msg)] in s.table.Values;
    }
  }

  /**
   For every sequence of arrivals, registrations and endings, a queue holds exactly what arrived for
   its name while it was the registered one, in order, and the sentinel if it was registered when the
   demultiplexer sent the sentinels.
   */
  lemma DemuxCorrect(ins: seq<Input>, i: nat, j: nat, n: Name)
    requires i < j <= |ins| && ins[i] == Register(n) && Undisturbed(ins, i + 1, j, n)
    requires j == |ins| || ins[j] == Register(n) || ins[j] == Unregister(n)
    ensures Registrations(ins[..i]) < |Run(ins).queues|
    ensures Run(ins).queues[Registrations(ins[..i])] == Gather(ins, i + 1, j, n)
  {
    assert ins[..|ins|] == ins;
    if j == |ins| {
      QueueWhileRegistered(ins, i, j, n);
    } else {
      QueueAfterwards(ins, i, j, |ins|, n);
    }
  }

  // ---- the sentinel ----

  lemma {:induction false} PhaseMonotone(ins: seq<Input>, a: nat, b: nat)
    requires a <= b <= |ins|
    ensures PhaseAfter(ins[..a]) == Ended ==> PhaseAfter(ins[..b]) == Ended
    ensures PhaseAfter(ins[..a]) == Leaving ==> PhaseAfter(ins[..b]) != Reading
  {
    if a < b {
      PhaseMonotone(ins, a, b - 1);
      assert ins[..b][..b - 1] == ins[..b - 1];
    }
  }

  /** After the end nothing is gathered, and a sentinel is gathered only in ending. */
  lemma ContributionPhase(ins: seq<Input>, k: nat, n: Name)
    requires k < |ins|
    ensures var c := Contribution(ins, k, n);
            && |c| <= 1
            && (PhaseAfter(ins[..k]) == Ended ==> c == [])
            && (c == [ConnectionLost] ==> PhaseAfter(ins[..k + 1]) == Ended)
  {
    assert ins[..k + 1][..k] == ins[..k];
  }

  predicate Sealed(g: seq<QueueItem>) {
    g != [] && g[|g| - 1].ConnectionLost?
  }

  ghost predicate SentinelOnlyLast(g: seq<QueueItem>) {
    forall k :: 0 <= k < |g| && g[k].ConnectionLost? ==> k == |g| - 1
  }

  lemma SentinelAppended(g: seq<QueueItem>, c: seq<QueueItem>)
    requires |c| <= 1 && SentinelOnlyLast(g) && (Sealed(g) ==> c == [])
    ensures SentinelOnlyLast(g + c)
  {
    if c == [] {
      assert g + c == g;
    }
  }

  lemma SealedLater(g: seq<QueueItem>, c: seq<QueueItem>)
    requires |c| <= 1 && Sealed(g + c)
    ensures if c == [] then Sealed(g) else c == [ConnectionLost]
  {
    if c == [] {
      assert g + c == g;
    }
  }

  /** Once a queue has gathered the sentinel the demultiplexer has ended. */
  lemma {:induction false} SealedMeansEnded(ins: seq<Input>, lo: nat, hi: nat, n: Name)
    requires hi <= |ins| && Sealed(Gather(ins, lo, hi, n))
    ensures PhaseAfter(ins[..hi]) == Ended
  {
    var g, c := Gather(ins, lo, hi - 1, n), Contribution(ins, hi - 1, n);
    ContributionPhase(ins, hi - 1, n);
    SealedLater(g, c);
    if c == [] {
      SealedMeansEnded(ins, lo, hi - 1, n);
      PhaseMonotone(ins, hi - 1, hi);
    }
  }

  /** A queue gathers at most one sentinel, and nothing after it. */
  lemma {:induction false} SentinelLast(ins: seq<Input>, lo: nat, hi: nat, n: Name)
    requires hi <= |ins|
    ensures var g := Gather(ins, lo, hi, n);
            SentinelOnlyLast(g) && (Sealed(g) ==> PhaseAfter(ins[..hi]) == Ended)
  {
    if hi > lo {
      var g, c := Gather(ins, lo, hi - 1, n), Contribution(ins, hi - 1, n);
      SentinelLast(ins, lo, hi - 1, n);
      ContributionPhase(ins, hi - 1, n);
      SentinelAppended(g, c);
      if Sealed(g + c) {
        SealedMeansEnded(ins, lo, hi, n);
      }
    }
  }

  /** Queues registered when the sentinels go out end with exactly one. */
  lemma {:induction false} SentinelSent(ins: seq<Input>, lo: nat, f: nat, hi: nat, n: Name)
    requires lo <= f < hi <= |ins| && ins[f] == Flush && PhaseAfter(ins[..f]) == Leaving
    ensures var g := Gather(ins, lo, hi, n);
            g != [] && g[|g| - 1] == ConnectionLost && forall k :: 0 <= k < |g| - 1 ==> g[k].Item?
  {
    SentinelLast(ins, lo, hi, n);
    if hi > f + 1 {
      SentinelSent(ins, lo, f, hi - 1, n);
      assert ins[..f + 1][..f] == ins[..f];
      PhaseMonotone(ins, f + 1, hi - 1);
      assert Contribution(ins, hi - 1, n) == [];
    }
  }

  // ---- what a queue's owner reads ----

  /** The messages that arrived while the demultiplexer was reading. */
  function Heard(ins: seq<Input>): seq<ServerMsg>
  {
    if ins == [] then []
    else
      var last := ins[|ins| - 1];
      Heard(ins[..|ins| - 1])
      + if last.Arrive? && PhaseAfter(ins[..|ins| - 1]) == Reading then [last.msg] else []
  }

  /** Process messages of one name. */
  function Named(n: Name, msgs: seq<ServerMsg>): seq<ServerMsg>
  {
    if msgs == [] then []
    else
      var last := msgs[|msgs| - 1];
      Named(n, msgs[..|msgs| - 1]) + if !last.Result? && NameOf(last) == n then [last] else []
  }

  /** The messages in a queue, sentinel dropped. */
  function Payload(q: seq<QueueItem>): seq<ServerMsg>
  {
    if q == [] then [] else Payload(q[..|q| - 1]) + if q[|q| - 1].Item? then [q[|q| - 1].msg] else []
  }

  lemma PayloadLast(q: seq<QueueItem>, x: QueueItem)
    ensures Payload(q + [x]) == Payload(q) + if x.Item? then [x.msg] else []
  {
    assert (q + [x])[..|q|] == q;
  }

  lemma PayloadAppend(q: seq<QueueItem>, c: seq<QueueItem>)
    requires |c| <= 1
    ensures Payload(q + c) == Payload(q) + if c != [] && c[0].Item? then [c[0].msg] else []
  {
    if c == [] {
      assert q + c == q;
    } else {
      assert c == [c[0]];
      PayloadLast(q, c[0]);
    }
  }

  lemma NamedLast(n: Name, msgs: seq<ServerMsg>, m: ServerMsg)
    ensures Named(n, msgs + [m]) == Named(n, msgs) + if !m.Result? && NameOf(m) == n then [m] else []
  {
    assert (msgs + [m])[..|msgs|] == msgs;
  }

  /** What one more input lets be heard for a name is what it gives the queue of that name, sentinel dropped. */
  lemma HeardLast(n: Name, ins: seq<Input>, i: Input)
    ensures var c := Share(PhaseAfter(ins), i, n);
            Named(n, Heard(ins + [i])) == Named(n, Heard(ins)) + if c != [] && c[0].Item? then [c[0].msg] else []
  {
    assert (ins + [i])[..|ins|] == ins;
    if i.Arrive? && PhaseAfter(ins) == Reading {
      NamedLast(n, Heard(ins), i.msg);
      assert Heard(ins + [i]) == Heard(ins) + [i.msg];
    } else {
      assert Heard(ins + [i]) == Heard(ins) + [];
      assert Heard(ins) + [] == Heard(ins);
    }
  }

  /** A queue registered before anything was heard gathers all that is heard for its name. */
  lemma {:induction false} GatherHeard(ins: seq<Input>, lo: nat, hi: nat, n: Name)
    requires lo <= hi <= |ins| && Heard(ins[..lo]) == []
    ensures Payload(Gather(ins, lo, hi, n)) == Named(n, Heard(ins[..hi]))
  {
    if lo < hi {
      GatherHeard(ins, lo, hi - 1, n);
      assert ins[..hi] == ins[..hi - 1] + [ins[hi - 1]];
      HeardLast(n, ins[..hi - 1], ins[hi - 1]);
      PayloadAppend(Gather(ins, lo, hi - 1, n), Contribution(ins, hi - 1, n));
    }
  }

  /** Results heard, in order, are the responses handed to callers. */
  lemma {:induction false} ResponsesHeard(ins: seq<Input>)
    ensures Run(ins).responses == Results(Heard(ins))
  {
    if ins != [] {
      var init, last := ins[..|ins| - 1], ins[|ins| - 1];
      ResponsesHeard(init);
      RunSound(init);
      StepResponses(Run(init), last);
      if last.Arrive? && PhaseAfter(init) == Reading {
        ResultsLast(Heard(init), last.msg);
      } else {
        assert Heard(init) + [] == Heard(init);
      }
    }
  }

  lemma StepResponses(s: State, i: Input)
    ensures Step(s, i).responses ==
            if i.Arrive? && s.phase == Reading && i.msg.Result? then s.responses + [i.msg.result] else s.responses
  {
  }

  function Results(msgs: seq<ServerMsg>): seq<ResultMsg>
  {
    if msgs == [] then []
    else
      var last := msgs[|msgs| - 1];
      Results(msgs[..|msgs| - 1]) + if last.Result? then [last.result] else []
  }

  lemma ResultsLast(msgs: seq<ServerMsg>, m: ServerMsg)
    ensures Results(msgs + [m]) == Results(msgs) + if m.Result? then [m.result] else []
  {
    assert (msgs + [m])[..|msgs|] == msgs;
  }
}
