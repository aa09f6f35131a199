/**
 The calling side of a client connection: commands take turns under a lock, each writes one line
 and waits for the next response; stdin messages are written in between.
 */
module Callers {
  import opened Protocol

  /** A call holds its command, the place of its line among the command lines sent, and how it ended. */
  datatype Outcome = Waiting | Got(result: ResultMsg) | Abandoned
  datatype Call = Call(cmd: CmdMsg, slot: Option<nat>, outcome: Outcome)

  /** Whether the lock is free, held by a call that is writing, or held by one that waits for its response. */
  datatype Turn = Free | Writing(cmd: CmdMsg) | Holding

  /**
   `lines` are the complete lines sent; `torn` says that part of a line has been sent after them.
   `inbox` is every response that has arrived, of which the first `taken` have been consumed.
   */
  datatype State = State(
    turn: Turn, calls: seq<Call>, lines: seq<Line>, torn: bool, inbox: seq<ResultMsg>, taken: nat)

  const FRESH := State(Free, [], [], false, [], 0)

  /**
   `Tear` is a write that failed or was cancelled, with part of the line sent or not. `GiveUp` is a timeout or a
   cancellation while waiting. Callers still waiting for the lock change nothing. `splits` is what `Garbage` says of
   a line that continues a torn one.
   */
  datatype Input =
    | Begin(cmd: CmdMsg)
    | Write(splits: bool)
    | Tear(partly: bool)
    | WriteStdin(name: Name, data: Json, splits: bool)
    | TearStdin(partly: bool)
    | Deliver(result: ResultMsg)
    | Take
    | GiveUp

  /** A complete line, spoiled if it continues a torn one. */
  function Append(s: State, msg: ClientMsg, splits: bool): State {
    s.(lines := s.lines + [if s.torn then Garbage(splits) else Parsed(msg)], torn := false)
  }

  function Finish(s: State, outcome: Outcome): State
    requires s.calls != []
  {
    var k := |s.calls| - 1;
    s.(turn := Free, calls := s.calls[k := s.calls[k].(outcome := outcome)])
  }

  function Step(s: State, i: Input): State
  {
    match i
    case Begin(cmd) => if s.turn.Free? then s.(turn := Writing(cmd)) else s
    case Write(splits) =>
      if s.turn.Writing? then
        var slot := if s.torn then None else Some(|Commands(s.lines)|);
        Append(s, Cmd(s.turn.cmd), splits).(turn := Holding, calls := s.calls + [Call(s.turn.cmd, slot, Waiting)])
      else s
    case Tear(partly) =>
      if s.turn.Writing?
      then s.(turn := Free, torn := s.torn || partly, calls := s.calls + [Call(s.turn.cmd, None, Abandoned)])
      else s
    case WriteStdin(name, data, splits) => if s.turn.Writing? then s else Append(s, Stdin(name, data), splits)
    case TearStdin(partly) => if s.turn.Writing? then s else s.(torn := s.torn || partly)
    case Deliver(result) => s.(inbox := s.inbox + [result])
    case Take =>
      if s.turn.Holding? && s.calls != [] && s.taken < |s.inbox|
      then Finish(s, Got(s.inbox[s.taken])).(taken := s.taken + 1)
      else s
    case GiveUp => if s.turn.Holding? && s.calls != [] then Finish(s, Abandoned) else s
  }

  function Run(ins: seq<Input>): State
  {
    if ins == [] then FRESH else Step(Run(ins[..|ins| - 1]), ins[|ins| - 1])
  }

  /** How many of the first `j` calls were answered. */
  function Answered(calls: seq<Call>, j: nat): nat
    requires j <= |calls|
  {
    if j == 0 then 0 else Answered(calls, j - 1) + if calls[j - 1].outcome.Got? then 1 else 0
  }

  /** How many of the first `j` calls sent their line whole. */
  function Placed(calls: seq<Call>, j: nat): nat
    requires j <= |calls|
  {
    if j == 0 then 0 else Placed(calls, j - 1) + if calls[j - 1].slot.Some? then 1 else 0
  }

  ghost predicate CallKept(s: State, j: nat)
    requires j < |s.calls|
  {
    && (s.calls[j].outcome.Waiting? <==> s.turn.Holding? && j == |s.calls| - 1)
    && (s.calls[j].outcome.Got? ==>
          Answered(s.calls, j) < |s.inbox| && s.calls[j].outcome.result == s.inbox[Answered(s.calls, j)])
    && (s.calls[j].slot.Some? ==>
          && s.calls[j].slot.value == Placed(s.calls, j) < |Commands(s.lines)|
          && Commands(s.lines)[s.calls[j].slot.value] == s.calls[j].cmd)
  }

  /** Responses are consumed in order by answered calls, and whole lines carry commands in order. */
  ghost predicate Kept(s: State) {
    && (s.turn.Holding? ==> s.calls != [])
    && s.taken == Answered(s.calls, |s.calls|) <= |s.inbox|
    && |Commands(s.lines)| == Placed(s.calls, |s.calls|)
    && forall j :: 0 <= j < |s.calls| ==> CallKept(s, j)
  }

  lemma {:induction false} CountsAgree(a: seq<Call>, b: seq<Call>, j: nat)
    requires j <= |a| && j <= |b| && a[..j] == b[..j]
    ensures Answered(a, j) == Answered(b, j) && Placed(a, j) == Placed(b, j)
  {
    if j > 0 {
      assert a[..j - 1] == a[..j][..j - 1] && b[..j - 1] == b[..j][..j - 1];
      assert a[j - 1] == a[..j][j - 1] && b[j - 1] == b[..j][j - 1];
      CountsAgree(a, b, j - 1);
    }
  }

  lemma LineAppended(s: State, msg: ClientMsg, splits: bool)
    ensures Commands(Append(s, msg, splits).lines) ==
            Commands(s.lines) + if !s.torn && msg.Cmd? then [msg.cmd] else []
  {
    var line := Append(s, msg, splits).lines[|s.lines|];
    assert Append(s, msg, splits).lines[..|s.lines|] == s.lines;
  }

  lemma WriteKeeps(s: State, splits: bool)
    requires Kept(s) && s.turn.Writing?
    ensures Kept(Step(s, Write(splits)))
  {
    var s' := Step(s, Write(splits));
    LineAppended(s, Cmd(s.turn.cmd), splits);
    forall j | 0 <= j <= |s.calls| ensures Answered(s'.calls, j) == Answered(s.calls, j) && Placed(s'.calls, j) == Placed(s.calls, j) {
      CountsAgree(s'.calls, s.calls, j);
    }
    forall j | 0 <= j < |s'.calls| ensures CallKept(s', j) {
      assert j < |s.calls| ==> CallKept(s, j);
    }
  }

  lemma TearKeeps(s: State, partly: bool)
    requires Kept(s) && s.turn.Writing?
    ensures Kept(Step(s, Tear(partly)))
  {
    var s' := Step(s, Tear(partly));
    forall j | 0 <= j <= |s.calls| ensures Answered(s'.calls, j) == Answered(s.calls, j) && Placed(s'.calls, j) == Placed(s.calls, j) {
      CountsAgree(s'.calls, s.calls, j);
    }
    forall j | 0 <= j < |s'.calls| ensures CallKept(s', j) {
      assert j < |s.calls| ==> CallKept(s, j);
    }
  }

  lemma StdinKeeps(s: State, name: Name, data: Json, splits: bool)
    requires Kept(s)
    ensures Kept(Append(s, Stdin(name, data), splits))
  {
    var s' := Append(s, Stdin(name, data), splits);
    LineAppended(s, Stdin(name, data), splits);
    forall j | 0 <= j < |s'.calls| ensures CallKept(s', j) {
      assert CallKept(s, j);
    }
  }

  lemma DeliverKeeps(s: State, result: ResultMsg)
    requires Kept(s)
    ensures Kept(s.(inbox := s.inbox + [result]))
  {
    var s' := s.(inbox := s.inbox + [result]);
    forall j | 0 <= j < |s'.calls| ensures CallKept(s', j) {
      assert CallKept(s, j);
    }
  }

  lemma FinishKeeps(s: State, i: Input)
    requires Kept(s) && (i.Take? || i.GiveUp?)
    ensures Kept(Step(s, i))
  {
    var s' := Step(s, i);
    if s' != s {
      var k := |s.calls| - 1;
      assert CallKept(s, k);
      forall j | 0 <= j <= k ensures Answered(s'.calls, j) == Answered(s.calls, j) && Placed(s'.calls, j) == Placed(s.calls, j) {
        CountsAgree(s'.calls, s.calls, j);
      }
      forall j | 0 <= j < |s'.calls| ensures CallKept(s', j) {
        assert CallKept(s, j);
      }
    }
  }

  lemma {:induction false} RunKept(ins: seq<Input>)
    ensures Kept(Run(ins))
  {
    if ins != [] {
      var s, i := Run(ins[..|ins| - 1]), ins[|ins| - 1];
      RunKept(ins[..|ins| - 1]);
      match i {
        case Write(splits) => if s.turn.Writing? { WriteKeeps(s, splits); }
        case Tear(partly) => if s.turn.Writing? { TearKeeps(s, partly); }
        case WriteStdin(name, data, splits) => if !s.turn.Writing? { StdinKeeps(s, name, data, splits); }
        case Deliver(result) => DeliverKeeps(s, result);
        case Take => FinishKeeps(s, i);
        case GiveUp => FinishKeeps(s, i);
        case Begin(_) =>
          forall j | 0 <= j < |s.calls| ensures CallKept(Step(s, i), j) { assert CallKept(s, j); }
        case TearStdin(_) =>
          forall j | 0 <= j < |s.calls| ensures CallKept(Step(s, i), j) { assert CallKept(s, j); }
      }
    }
  }

  // ---- when a call gets the response to its own line ----

  /** The call took the response that stands where its line stands among the command lines. */
  ghost predicate Matched(calls: seq<Call>, j: nat)
    requires j < |calls|
  {
    calls[j].slot == Some(Answered(calls, j))
  }

  /** Earlier calls that were given up after their line had been sent whole. */
  function Orphaned(calls: seq<Call>, j: nat): nat
    requires j <= |calls|
  {
    if j == 0 then 0
    else Orphaned(calls, j - 1) + if calls[j - 1].slot.Some? && calls[j - 1].outcome.Abandoned? then 1 else 0
  }

  /** Earlier calls that were answered although their own line had been spoiled. */
  function Robbed(calls: seq<Call>, j: nat): nat
    requires j <= |calls|
  {
    if j == 0 then 0
    else Robbed(calls, j - 1) + if calls[j - 1].slot.None? && calls[j - 1].outcome.Got? then 1 else 0
  }

  lemma {:induction false} PlacedAnswered(calls: seq<Call>, j: nat)
    requires j <= |calls| && forall i :: 0 <= i < j ==> !calls[i].outcome.Waiting?
    ensures Placed(calls, j) + Robbed(calls, j) == Answered(calls, j) + Orphaned(calls, j)
  {
    if j > 0 {
      PlacedAnswered(calls, j - 1);
    }
  }

  /**
   A call takes its own response exactly when its line went out whole and, before it, as many calls were given up
   after sending their line as were answered after theirs was spoiled.
   */
  lemma MatchedExactly(ins: seq<Input>, j: nat)
    requires j < |Run(ins).calls|
    ensures var calls := Run(ins).calls;
            Matched(calls, j) <==> calls[j].slot.Some? && Orphaned(calls, j) == Robbed(calls, j)
  {
    RunKept(ins);
    var s := Run(ins);
    assert CallKept(s, j);
    forall i | 0 <= i < j ensures !s.calls[i].outcome.Waiting? {
      assert CallKept(s, i);
    }
    PlacedAnswered(s.calls, j);
  }

  /** No write was ever torn in the middle of a line. */
  predicate WholeWrites(ins: seq<Input>) {
    forall i :: 0 <= i < |ins| ==> ins[i] != Tear(true) && ins[i] != TearStdin(true)
  }

  lemma {:induction false} NeverTorn(ins: seq<Input>)
    requires WholeWrites(ins)
    ensures var s := Run(ins);
            && !s.torn
            && forall j :: 0 <= j < |s.calls| && !s.calls[j].outcome.Abandoned? ==> s.calls[j].slot.Some?
  {
    if ins != [] {
      NeverTorn(ins[..|ins| - 1]);
      var s, i := Run(ins[..|ins| - 1]), ins[|ins| - 1];
      RunKept(ins[..|ins| - 1]);
      if s.turn.Holding? {
        assert CallKept(s, |s.calls| - 1);
      }
      assert WholeWrites(ins[..|ins| - 1]) && i != Tear(true) && i != TearStdin(true);
    }
  }

  lemma {:induction false} NoneRobbed(calls: seq<Call>, j: nat)
    requires j <= |calls| && forall i :: 0 <= i < j && !calls[i].outcome.Abandoned? ==> calls[i].slot.Some?
    ensures Robbed(calls, j) == 0
    ensures Orphaned(calls, j) == 0 <==> forall i :: 0 <= i < j ==> !(calls[i].slot.Some? && calls[i].outcome.Abandoned?)
  {
    if j > 0 {
      NoneRobbed(calls, j - 1);
    }
  }

  /**
   When no write was torn, an answered call has its own response exactly when no earlier call was
   given up after its line had gone out.
   */
  lemma MatchedUnlessOrphaned(ins: seq<Input>, j: nat)
    requires WholeWrites(ins) && j < |Run(ins).calls| && Run(ins).calls[j].outcome.Got?
    ensures var calls := Run(ins).calls;
            Matched(calls, j) <==> forall i :: 0 <= i < j ==> !(calls[i].slot.Some? && calls[i].outcome.Abandoned?)
  {
    NeverTorn(ins);
    NoneRobbed(Run(ins).calls, j);
    MatchedExactly(ins, j);
  }
}
