/**
 The Python client. Its demultiplexer sends the sentinels in a `finally` block, so leaving the loop
 and sending them is one step, also when the connection is closed on purpose; and `writer.write`
 takes a whole line or none. Both sides are runs of the machines of `Demux` and `Callers`.
 */
module PyClient {
  import opened Protocol
  import opened Sequences
  import D = Demux
  import C = Callers

  // ---- the demultiplexer ----

  /** Not yet run for the first time, in its loop, or finished. */
  datatype Task = Created | Looping | Finished

  /** `cancelled` says that `close` has asked the demultiplexer to stop. */
  datatype State = State(
    table: map<Name, nat>,
    queues: seq<seq<D.QueueItem>>,
    responses: seq<ResultMsg>,
    task: Task,
    cancelled: bool,
    closed: bool)

  const FRESH := State(map[], [], [], Created, false, false)

  /** `Ends` is end of file or an exception in the loop; `Cancelled` is the demultiplexer noticing `Close`. */
  datatype Input =
    | Start
    | Register(name: Name)
    | Unregister(name: Name)
    | Arrive(msg: ServerMsg)
    | Unparsed
    | Ends
    | Close
    | Cancelled

  /** The part that both clients have. */
  function Common(s: State): D.State {
    D.State(s.table, s.queues, s.responses, if s.task.Finished? then D.Ended else D.Reading, s.closed)
  }

  function Route(s: State, msg: ServerMsg): State {
    var d := D.Route(Common(s), msg);
    s.(queues := d.queues, responses := d.responses)
  }

  /** The `finally` block. */
  function Finally(s: State): State {
    s.(queues := D.SendSentinels(Common(s)).queues, task := Finished, closed := true)
  }

  function Step(s: State, i: Input): State
  {
    match i
    case Start => if s.task.Created? && !s.cancelled then s.(task := Looping) else s
    case Register(n) => s.(table := s.table[n := |s.queues|], queues := s.queues + [[]])
    case Unregister(n) => s.(table := s.table - {n})
    case Arrive(msg) => if s.task.Looping? && !s.cancelled then Route(s, msg) else s
    case Unparsed => s
    case Ends => if s.task.Looping? && !s.cancelled then Finally(s) else s
    case Close => s.(closed := true, cancelled := true)
    case Cancelled =>
      if !s.cancelled then s
      else
        match s.task
        case Created => s.(task := Finished)
        case Looping => Finally(s)
        case Finished => s
  }

  function Run(ins: seq<Input>): State
  {
    if ins == [] then FRESH else Step(Run(ins[..|ins| - 1]), ins[|ins| - 1])
  }

  // ---- it is a run of the common machine ----

  /** What a step is for the machine that both clients share. */
  function Shared(s: State, i: Input): seq<D.Input>
  {
    match i
    case Start => []
    case Register(n) => [D.Register(n)]
    case Unregister(n) => [D.Unregister(n)]
    case Arrive(msg) => if s.task.Looping? && !s.cancelled then [D.Arrive(msg)] else []
    case Unparsed => [D.Unparsed]
    case Ends => if s.task.Looping? && !s.cancelled then [D.Ends, D.Flush] else []
    case Close => []
    case Cancelled =>
      if !s.cancelled then []
      else
        match s.task
        case Created => [D.Abort]
        case Looping => [D.Ends, D.Flush]
        case Finished => []
  }

  function SharedRun(ins: seq<Input>): seq<D.Input>
  {
    if ins == [] then []
    else
      var init := ins[..|ins| - 1];
      SharedRun(init) + Shared(Run(init), ins[|ins| - 1])
  }

  ghost predicate Mirrors(s: State, d: D.State) {
    d.(closed := s.closed) == Common(s)
  }

  /** Running the shared machine two inputs further. */
  lemma RunMore(ins: seq<D.Input>, more: seq<D.Input>)
    requires |more| <= 2
    ensures more == [] ==> D.Run(ins + more) == D.Run(ins)
    ensures |more| == 1 ==> D.Run(ins + more) == D.Step(D.Run(ins), more[0])
    ensures |more| == 2 ==> D.Run(ins + more) == D.Step(D.Step(D.Run(ins), more[0]), more[1])
  {
    var all := ins + more;
    if |more| > 0 {
      assert all[..|all| - 1] == ins + more[..|more| - 1];
    }
    if |more| == 2 {
      assert (ins + more[..1])[..|ins|] == ins;
    }
    assert ins + [] == ins;
  }

  lemma StepMirrors(s: State, i: Input, ins: seq<D.Input>)
    requires Mirrors(s, D.Run(ins))
    ensures Mirrors(Step(s, i), D.Run(ins + Shared(s, i)))
  {
    var d := D.Run(ins);
    RunMore(ins, Shared(s, i));
    match i {
      case Arrive(msg) => ArriveMirrors(s, d, msg);
      case Ends => FinallyMirrors(s, d);
      case Cancelled => FinallyMirrors(s, d); TableMirrors(s, d, "");
      case Register(n) => TableMirrors(s, d, n);
      case Unregister(n) => TableMirrors(s, d, n);
      case Start =>
      case Unparsed =>
      case Close =>
    }
  }

  lemma TableMirrors(s: State, d: D.State, n: Name)
    requires Mirrors(s, d)
    ensures Mirrors(Step(s, Register(n)), D.Step(d, D.Register(n)))
    ensures Mirrors(Step(s, Unregister(n)), D.Step(d, D.Unregister(n)))
    ensures Mirrors(s.(task := Finished), D.Step(d, D.Abort))
  {
  }

  lemma ArriveMirrors(s: State, d: D.State, msg: ServerMsg)
    requires Mirrors(s, d)
    ensures s.task != Finished ==> Mirrors(Route(s, msg), D.Step(d, D.Arrive(msg)))
  {
  }

  lemma FinallyMirrors(s: State, d: D.State)
    requires Mirrors(s, d)
    ensures s.task != Finished ==> Mirrors(Finally(s), D.Step(D.Step(d, D.Ends), D.Flush))
  {
  }

  /** Every run of the Python client is a run of the shared machine, so what holds of its queues holds here. */
  lemma {:induction false} RunMirrors(ins: seq<Input>)
    ensures Mirrors(Run(ins), D.Run(SharedRun(ins)))
  {
    if ins != [] {
      RunMirrors(ins[..|ins| - 1]);
      StepMirrors(Run(ins[..|ins| - 1]), ins[|ins| - 1], SharedRun(ins[..|ins| - 1]));
    }
  }

  /**
   A queue holds exactly what arrived for its name while it was the registered one, in order, and the
   sentinel if it was registered when the loop was left.
   */
  lemma QueueExact(ins: seq<Input>, i: nat, j: nat, n: Name)
    requires var shared := SharedRun(ins);
             && i < j <= |shared| && shared[i] == D.Register(n) && D.Undisturbed(shared, i + 1, j, n)
             && (j == |shared| || shared[j] == D.Register(n) || shared[j] == D.Unregister(n))
    ensures var shared := SharedRun(ins);
            var q := D.Registrations(shared[..i]);
            q < |Run(ins).queues| && Run(ins).queues[q] == D.Gather(shared, i + 1, j, n)
  {
    RunMirrors(ins);
    D.DemuxCorrect(SharedRun(ins), i, j, n);
  }

  // ---- the sentinel ----

  predicate NoSentinel(q: seq<D.QueueItem>) {
    forall k :: 0 <= k < |q| ==> q[k].Item?
  }

  /** Messages, then one sentinel. */
  predicate Closed(q: seq<D.QueueItem>) {
    q != [] && q[|q| - 1].ConnectionLost? && NoSentinel(q[..|q| - 1])
  }

  ghost predicate Sound(s: State) {
    && (forall n :: n in s.table ==> s.table[n] < |s.queues|)
    && (forall q :: 0 <= q < |s.queues| ==>
          NoSentinel(s.queues[q]) || (s.task.Finished? && Closed(s.queues[q])))
  }

  lemma {:induction false} RunSound(ins: seq<Input>)
    ensures Sound(Run(ins))
  {
    if ins != [] {
      RunSound(ins[..|ins| - 1]);
      StepSound(Run(ins[..|ins| - 1]), ins[|ins| - 1]);
    }
  }

  lemma FinallySound(s: State)
    requires Sound(s) && !s.task.Finished?
    ensures Sound(Finally(s))
    ensures forall n :: n in s.table ==> Closed(Finally(s).queues[s.table[n]])
  {
    forall q | 0 <= q < |s.queues| && q in s.table.Values ensures Closed(Finally(s).queues[q]) {
      assert Finally(s).queues[q][..|s.queues[q]|] == s.queues[q];
    }
    forall n | n in s.table ensures Closed(Finally(s).queues[s.table[n]]) {
      assert s.table[n] in s.table.Values;
    }
  }

  lemma StepSound(s: State, i: Input)
    requires Sound(s)
    ensures Sound(Step(s, i))
  {
    if Step(s, i) == Finally(s) && !s.task.Finished? {
      FinallySound(s);
    }
  }

  /** The step leaves the loop, by end of file, an exception, or `close`. */
  predicate LeavesLoop(s: State, i: Input) {
    s.task.Looping? && if s.cancelled then i.Cancelled? else i.Ends?
  }

  lemma FinishedRests(s: State, i: Input, q: nat)
    requires s.task.Finished? && q < |s.queues|
    ensures var s' := Step(s, i);
            s'.task.Finished? && q < |s'.queues| && s'.queues[q] == s.queues[q]
  {
  }

  lemma LoopLeft(s: State, i: Input, n: Name)
    requires Sound(s) && LeavesLoop(s, i) && n in s.table
    ensures var s', q := Step(s, i), s.table[n];
            && s'.task.Finished? && q < |s.queues| == |s'.queues|
            && s'.queues[q] == s.queues[q] + [D.ConnectionLost] && Closed(s'.queues[q])
  {
    assert s.table[n] in s.table.Values;
    FinallySound(s);
  }

  /**
   However the loop is left, `close` included, every queue registered then ends in the one sentinel
   it will ever hold, and never changes again.
   */
  lemma {:induction false} SentinelOnceAndLast(ins: seq<Input>, f: nat, n: Name)
    requires f < |ins| && LeavesLoop(Run(ins[..f]), ins[f]) && n in Run(ins[..f]).table
    ensures var q := Run(ins[..f]).table[n];
            && q < |Run(ins[..f]).queues| && q < |Run(ins).queues|
            && Run(ins).task.Finished?
            && Run(ins).queues[q] == Run(ins[..f]).queues[q] + [D.ConnectionLost]
            && Closed(Run(ins).queues[q])
  {
    if f == |ins| - 1 {
      RunSound(ins[..f]);
      LoopLeft(Run(ins[..f]), ins[f], n);
    } else {
      var init := ins[..|ins| - 1];
      assert init[..f] == ins[..f];
      SentinelOnceAndLast(init, f, n);
      FinishedRests(Run(init), ins[|ins| - 1], Run(ins[..f]).table[n]);
    }
  }

  /** Closing before the demultiplexer has run for the first time sends no sentinel. */
  lemma ClosedTooSoon(n: Name)
    ensures var s := Run([Register(n), Close, Cancelled]);
            s.task.Finished? && n in s.table && s.table[n] < |s.queues| && s.queues[s.table[n]] == []
  {
    var ins := [Register(n), Close, Cancelled];
    assert ins[..2] == [Register(n), Close] && ins[..2][..1] == [Register(n)] && ins[..1][..0] == [];
    assert Run([Register(n)]) == Step(FRESH, Register(n));
    assert Run(ins[..2]) == Step(Run([Register(n)]), Close);
    assert Run(ins) == Step(Run(ins[..2]), Cancelled);
  }

  // ---- commands ----

  /** What callers do: a line is handed over whole under the lock, and only then can a call be given up. */
  datatype CallInput =
    | Send(cmd: CmdMsg)
    | SendStdin(name: Name, data: Json)
    | Deliver(result: ResultMsg)
    | Take
    | GiveUp

  function SharedCall(i: CallInput): seq<C.Input>
  {
    match i
    case Send(cmd) => [C.Begin(cmd), C.Write(false)]
    case SendStdin(name, data) => [C.WriteStdin(name, data, false)]
    case Deliver(result) => [C.Deliver(result)]
    case Take => [C.Take]
    case GiveUp => [C.GiveUp]
  }

  function SharedCalls(ins: seq<CallInput>): seq<C.Input> {
    Collect(SharedCall, ins)
  }

  lemma {:induction false} NeverTorn(ins: seq<CallInput>)
    ensures C.WholeWrites(SharedCalls(ins))
    ensures forall i :: 0 <= i < |SharedCalls(ins)| ==> !SharedCalls(ins)[i].Tear? && !SharedCalls(ins)[i].TearStdin?
  {
    if ins != [] {
      NeverTorn(ins[..|ins| - 1]);
      assert SharedCalls(ins) == SharedCalls(ins[..|ins| - 1]) + SharedCall(ins[|ins| - 1]);
    }
  }

  /**
   For every interleaving of callers, an answered call has the response that stands where its line
   stands among the commands sent, exactly when no earlier call was given up.
   */
  lemma MatchedUnlessGivenUp(ins: seq<CallInput>, j: nat)
    requires j < |C.Run(SharedCalls(ins)).calls| && C.Run(SharedCalls(ins)).calls[j].outcome.Got?
    ensures var calls := C.Run(SharedCalls(ins)).calls;
            C.Matched(calls, j) <==> forall i :: 0 <= i < j ==> !calls[i].outcome.Abandoned?
  {
    NeverTorn(ins);
    C.MatchedUnlessOrphaned(SharedCalls(ins), j);
    AllPlaced(SharedCalls(ins));
  }

  /** Without torn writes or writes begun and not finished, every call has sent its line. */
  lemma {:induction false} AllPlaced(ins: seq<C.Input>)
    requires forall i :: 0 <= i < |ins| ==> !ins[i].Tear? && !ins[i].TearStdin?
    ensures var s := C.Run(ins);
            !s.torn && forall j :: 0 <= j < |s.calls| ==> s.calls[j].slot.Some?
  {
    if ins != [] {
      AllPlaced(ins[..|ins| - 1]);
      assert !ins[|ins| - 1].Tear? && !ins[|ins| - 1].TearStdin?;
    }
  }
}
