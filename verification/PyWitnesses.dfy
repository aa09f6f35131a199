/** Short runs that show where stronger statements about the Python server are false. */
module PyWitnesses {
  import opened Protocol
  import opened StreamRelay
  import opened PyServer
  import opened PyRuns
  import opened PyTheorems

  /** No line is JSON, and trimming does nothing. */
  const PLAIN := Oracle((s: string) => s, (s: string) => None)

  const CALM := Env(0, Started(1), None, Some(0), 0)

  function Command(verb: Verb, name: Name): Protocol.Line {
    Parsed(Cmd(CmdMsg(verb, name, ["run"])))
  }

  lemma RunSplit(run: seq<Label>, l: Label)
    ensures Run(PLAIN, run + [l]) == Step(Run(PLAIN, run), PLAIN, l)
  {
    assert (run + [l])[..|run|] == run;
  }

  /** A client spawns a process, which writes a line to stderr. */
  function Begin(): seq<Label> {
    [Accept, Line(0, Command(Spawn, "p"), CALM), Resume(0, true, CALM), Resume(0, true, CALM), ReadErr(0, Text("x"))]
  }

  /** The only connection is current and reading; process 0 has the name "p" and nothing else exists. */
  ghost predicate Alone(s: Server) {
    && s.writer == Some(0) && s.handlers == [Reading] && s.procs == map["p" := 0] && |s.all| == 1
    && s.all[0].name == "p" && s.all[0].status == Running && !s.all[0].cancelled
    && s.all[0].out == Listening && s.all[0].err == Listening
    && forall i :: 0 <= i < |s.trace| ==> !s.trace[i].Wrote?
  }

  lemma AfterBegin()
    ensures var s := Run(PLAIN, Begin());
            Alone(s) && !s.all[0].subscribed && s.all[0].buffer == [Stderr("p", "x")]
  {
    var r := Begin();
    RunSplit(r[..0], r[0]);
    RunSplit(r[..1], r[1]);
    RunSplit(r[..2], r[2]);
    RunSplit(r[..3], r[3]);
    RunSplit(r[..4], r[4]);
    assert r[..0] + [r[0]] == r[..1] && r[..1] + [r[1]] == r[..2] && r[..2] + [r[2]] == r[..3];
    assert r[..3] + [r[3]] == r[..4] && r[..4] + [r[4]] == r;
    Connected();
    Spawned();
    Buffered();
  }

  function First(): Server { Step(INITIAL, PLAIN, Begin()[0]) }
  function Second(): Server { Step(First(), PLAIN, Begin()[1]) }
  function Third(): Server { Step(Second(), PLAIN, Begin()[2]) }
  function Fourth(): Server { Step(Third(), PLAIN, Begin()[3]) }

  lemma Connected()
    ensures First() == INITIAL.(writer := Some(0), handlers := [Reading])
    ensures Second() == First().(handlers := [Spawning("p")])
  {
    assert First().all == [];
    assert Second().procs == map[];
  }

  lemma Spawned()
    ensures Alone(Fourth()) && Fourth().all == [NewProcess("p", 1)]
  {
    Connected();
    assert Third().handlers == [Answering(0)];
    assert Third().all == [NewProcess("p", 1)] && Third().writer == Some(0);
    assert Fourth().handlers == [Reading];
  }

  lemma Buffered()
    ensures var s := Step(Fourth(), PLAIN, Begin()[4]);
            Alone(s) && !s.all[0].subscribed && s.all[0].buffer == [Stderr("p", "x")]
  {
    Spawned();
  }

  // ---- a subscribe with no writer ----

  const REFUSING := CALM.(spawn := SpawnFailed("no such file"))

  /** While handler 0 waits for a spawn, a second connection takes over and leaves again. */
  function TakenOver(): seq<Label> {
    Begin() + [Line(0, Command(Spawn, "q"), CALM)] + [Accept] + [Greeted(1)] + [Depart(1)] + [Resume(0, true, REFUSING)]
  }

  lemma SpawnWaits(s: Server)
    requires Alone(s)
    ensures var s' := Step(s, PLAIN, Line(0, Command(Spawn, "q"), CALM));
            s'.handlers == [Spawning("q")] && s'.writer == Some(0) && s'.procs == s.procs && s'.all == s.all
  {
  }

  lemma ComesAndGoes(s: Server)
    requires s.handlers == [Spawning("q")] && s.writer == Some(0) && s.procs == map["p" := 0] && |s.all| == 1
    ensures var s' := Step(Step(Step(s, PLAIN, Accept), PLAIN, Greeted(1)), PLAIN, Depart(1));
            && s'.writer.None? && s'.handlers == [Spawning("q"), Left] && s'.procs == s.procs
            && |s'.all| == 1 && s'.all[0].buffer == s.all[0].buffer
  {
    var s1 := Step(s, PLAIN, Accept);
    assert s1.handlers == [Spawning("q"), Greeting] && s1.writer == Some(1) && |s1.all| == 1;
    var s2 := Step(s1, PLAIN, Greeted(1));
    assert s2.handlers == [Spawning("q"), Reading] && s2.writer == Some(1);
  }

  lemma SpawnRefused(s: Server)
    requires s.handlers == [Spawning("q"), Left] && s.writer.None?
    ensures var s' := Step(s, PLAIN, Resume(0, true, REFUSING));
            s'.writer.None? && s'.handlers == [Reading, Left] && s'.procs == s.procs && s'.all == s.all
  {
  }

  lemma AfterTakenOver()
    ensures var s := Run(PLAIN, TakenOver());
            && s.writer.None? && s.handlers == [Reading, Left] && s.procs == map["p" := 0] && |s.all| == 1
            && s.all[0].buffer == [Stderr("p", "x")]
  {
    var r1 := Begin() + [Line(0, Command(Spawn, "q"), CALM)];
    var r4 := r1 + [Accept] + [Greeted(1)] + [Depart(1)];
    AfterBegin();
    RunSplit(Begin(), Line(0, Command(Spawn, "q"), CALM));
    SpawnWaits(Run(PLAIN, Begin()));
    RunSplit(r1, Accept);
    RunSplit(r1 + [Accept], Greeted(1));
    RunSplit(r1 + [Accept] + [Greeted(1)], Depart(1));
    ComesAndGoes(Run(PLAIN, r1));
    RunSplit(r4, Resume(0, true, REFUSING));
    SpawnRefused(Run(PLAIN, r4));
  }

  lemma SubscribesUnseen(s: Server)
    requires s.writer.None? && s.handlers == [Reading, Left] && s.procs == map["p" := 0] && |s.all| == 1
    ensures var s1 := Step(s, PLAIN, Line(0, Command(Subscribe, "p"), CALM));
            var s2 := Step(s1, PLAIN, Depart(0));
            && s2.writer.None? && s2.handlers == [Left, Left] && |s2.all| == 1 && s2.all[0].subscribed
            && MissingNow(s, PLAIN, Line(0, Command(Subscribe, "p"), CALM), 0) == s.all[0].buffer
  {
    HandlesSubscribe(s, 0, CmdMsg(Subscribe, "p", ["run"]), CALM);
  }

  lemma MissingLast(run: seq<Label>, l: Label)
    ensures MissingIn(PLAIN, run + [l], 0) == MissingIn(PLAIN, run, 0) + MissingNow(Run(PLAIN, run), PLAIN, l, 0)
  {
    assert (run + [l])[..|run|] == run;
  }

  lemma StaysMissing(run: seq<Label>, l: Label, m: Label, msg: ServerMsg)
    requires MissingNow(Run(PLAIN, run), PLAIN, l, 0) == [msg]
    ensures msg in MissingIn(PLAIN, run + [l] + [m], 0)
  {
    MissingLast(run, l);
    MissingLast(run + [l], m);
    assert [msg][0] == msg;
  }

  /**
   A subscribe with no writer drops the buffer and leaves the process subscribed, even after every
   handler has left: its client had been replaced, and the newer client was gone by the time it was read.
   */
  lemma SubscribeCanDrop()
    ensures exists run ::
              var s := Run(PLAIN, run);
              && |s.all| == 1 && s.all[0].subscribed && s.writer.None? && s.handlers == [Left, Left]
              && Stderr("p", "x") in MissingIn(PLAIN, run, 0)
  {
    var r, l := TakenOver(), Line(0, Command(Subscribe, "p"), CALM);
    AfterTakenOver();
    RunSplit(r, l);
    RunSplit(r + [l], Depart(0));
    SubscribesUnseen(Run(PLAIN, r));
    StaysMissing(r, l, Depart(0), Stderr("p", "x"));
    assert Stderr("p", "x") in MissingIn(PLAIN, r + [l] + [Depart(0)], 0);
  }

  // ---- answers and output that reach a connection that did not ask ----

  /** A subscribe writes the buffer to its client and waits for the drain. */
  lemma Subscribes(s: Server)
    requires Alone(s)
    ensures var s' := Step(s, PLAIN, Line(0, Command(Subscribe, "p"), CALM));
            && s'.handlers == [Replaying(0, 0, "p", |s.all[0].buffer|)]
            && s'.writer == Some(0) && s'.procs == s.procs
            && s'.all == [s.all[0].(buffer := [], subscribed := true)]
            && forall i :: 0 <= i < |s'.trace| && s'.trace[i].Wrote? ==> s'.trace[i].writer == 0
  {
    HandlesSubscribe(s, 0, CmdMsg(Subscribe, "p", ["run"]), CALM);
    var evs := Wrotes(0, 0, s.all[0].buffer);
    assert forall i :: 0 <= i < |evs| ==> evs[i].writer == 0;
  }

  lemma AnswersNewer(s: Server)
    requires s.handlers == [Replaying(0, 0, "p", 1)] && s.writer == Some(0) && |s.all| == 1
    ensures var s' := Step(Step(s, PLAIN, Accept), PLAIN, Resume(0, true, CALM));
            |s'.trace| == |s.trace| + 1 && s.trace <= s'.trace
            && s'.trace[|s.trace|].Answered? && s'.trace[|s.trace|].writer == 1
            && s'.trace[|s.trace|].result.replayed == Some(1)
  {
  }

  /** The answer to a subscribe can reach a newer client, which was written none of the replayed messages. */
  lemma AnswerCanStray()
    ensures exists run, i ::
              var tr := Run(PLAIN, run).trace;
              && 0 <= i < |tr| && tr[i].Answered? && tr[i].writer == 1 && tr[i].result.replayed == Some(1)
              && forall j :: 0 <= j < |tr| && tr[j].Wrote? ==> tr[j].writer == 0
  {
    var l := Line(0, Command(Subscribe, "p"), CALM);
    var r := Begin() + [l];
    AfterBegin();
    RunSplit(Begin(), l);
    Subscribes(Run(PLAIN, Begin()));
    RunSplit(r, Accept);
    RunSplit(r + [Accept], Resume(0, true, CALM));
    AnswersNewer(Run(PLAIN, r));
    var tr := Run(PLAIN, r + [Accept] + [Resume(0, true, CALM)]).trace;
    assert tr[|Run(PLAIN, r).trace|].Answered?;
  }

  lemma ReplayDrained(s: Server)
    requires s.handlers == [Replaying(0, 0, "p", 1)] && s.writer == Some(0) && |s.all| == 1
    ensures var s' := Step(Step(s, PLAIN, Resume(0, true, CALM)), PLAIN, Resume(0, true, CALM));
            s'.handlers == [Reading] && s'.writer == Some(0) && s'.procs == s.procs && s'.all == s.all
  {
    var mid := Step(s, PLAIN, Resume(0, true, CALM));
    assert mid.handlers == [Answering(0)] && mid.writer == Some(0) && mid.procs == s.procs && mid.all == s.all;
  }

  /** Exited, then killed: the process leaves the table still subscribed, its stderr task alive. */
  lemma ExitsAndGoes(s: Server)
    requires s.handlers == [Reading] && s.writer == Some(0) && s.procs == map["p" := 0] && |s.all| == 1
    requires s.all[0].subscribed && !s.all[0].cancelled && s.all[0].out == Listening && s.all[0].err == Listening
    ensures var s1 := Step(Step(s, PLAIN, ReadOut(0, Eof, 0)), PLAIN, ChildGone(0, Some(0)));
            var s2 := Step(s1, PLAIN, Line(0, Command(Kill, "p"), CALM));
            && s2.handlers == [Answering(0)] && s2.writer == Some(0) && s2.procs == map[] && |s2.all| == 1
            && s2.all[0].subscribed && !s2.all[0].cancelled && s2.all[0].err == Listening
  {
    var s0 := Step(s, PLAIN, ReadOut(0, Eof, 0));
    assert s0.all == [s.all[0].(out := Reaping)];
    var s1 := Step(s0, PLAIN, ChildGone(0, Some(0)));
    assert s1.all[0].status == Exited && s1.handlers == [Reading] && s1.procs == s.procs && |s1.all| == 1;
  }

  lemma WritesToNewer(s: Server)
    requires s.handlers == [Answering(0)] && s.writer == Some(0) && s.procs == map[] && |s.all| == 1
    requires s.all[0].subscribed && !s.all[0].cancelled && s.all[0].err == Listening
    ensures var s' := Step(Step(s, PLAIN, Accept), PLAIN, ReadErr(0, Text("y")));
            && s'.procs == map[] && s'.handlers == [Answering(0), Greeting]
            && s'.trace != [] && s'.trace[|s'.trace| - 1].Wrote? && s'.trace[|s'.trace| - 1].writer == 1
  {
    var s1 := Step(s, PLAIN, Accept);
    assert s1.all == s.all && s1.writer == Some(1);
  }

  function Subscribed(): seq<Label> {
    Begin() + [Line(0, Command(Subscribe, "p"), CALM)] + [Resume(0, true, CALM)] + [Resume(0, true, CALM)]
  }

  lemma AfterSubscribed()
    ensures var s := Run(PLAIN, Subscribed());
            && s.handlers == [Reading] && s.writer == Some(0) && s.procs == map["p" := 0] && |s.all| == 1
            && s.all[0].subscribed && !s.all[0].cancelled && s.all[0].out == Listening && s.all[0].err == Listening
  {
    var l := Line(0, Command(Subscribe, "p"), CALM);
    var r1 := Begin() + [l];
    AfterBegin();
    RunSplit(Begin(), l);
    Subscribes(Run(PLAIN, Begin()));
    RunSplit(r1, Resume(0, true, CALM));
    RunSplit(r1 + [Resume(0, true, CALM)], Resume(0, true, CALM));
    ReplayDrained(Run(PLAIN, r1));
  }

  /**
   A process that has exited and been killed keeps its stderr task and its flag: a later client
   that has sent nothing is written its output.
   */
  lemma StrayOutput()
    ensures exists run ::
              var s := Run(PLAIN, run);
              && s.procs == map[] && s.handlers == [Answering(0), Greeting]
              && s.trace != [] && s.trace[|s.trace| - 1].Wrote? && s.trace[|s.trace| - 1].writer == 1
  {
    var r3 := Subscribed();
    var r4 := r3 + [ReadOut(0, Eof, 0)];
    var r5 := r4 + [ChildGone(0, Some(0))];
    var r6 := r5 + [Line(0, Command(Kill, "p"), CALM)];
    AfterSubscribed();
    RunSplit(r3, ReadOut(0, Eof, 0));
    RunSplit(r4, ChildGone(0, Some(0)));
    RunSplit(r5, Line(0, Command(Kill, "p"), CALM));
    ExitsAndGoes(Run(PLAIN, r3));
    RunSplit(r6, Accept);
    RunSplit(r6 + [Accept], ReadErr(0, Text("y")));
    WritesToNewer(Run(PLAIN, r6));
  }

  lemma TakesOverAndRefuses(s: Server)
    requires s.handlers == [Spawning("q")] && s.writer == Some(0) && s.procs == map["p" := 0] && |s.all| == 1
    ensures var s1 := Step(s, PLAIN, Accept);
            var s' := Step(Step(s1, PLAIN, Resume(0, true, REFUSING)), PLAIN, Resume(0, true, CALM));
            && s'.writer == Some(1) && s'.handlers == [Reading, Greeting] && s'.procs == s.procs
            && s'.all == [s.all[0].(subscribed := false)]
  {
    var s1 := Step(s, PLAIN, Accept);
    assert s.procs["p"] in s.procs.Values;
    assert s1.handlers == [Spawning("q"), Greeting] && s1.writer == Some(1);
    var s2 := Step(s1, PLAIN, Resume(0, true, REFUSING));
    assert s2.handlers == [Answering(1), Greeting] && s2.writer == Some(1) && s2.all == s1.all;
  }

  lemma SubscribesForNewer(s: Server, msg: ServerMsg)
    requires s.writer == Some(1) && s.handlers == [Reading, Greeting] && s.procs == map["p" := 0] && |s.all| == 1
    requires s.all[0].buffer == [msg]
    ensures var s' := Step(s, PLAIN, Line(0, Command(Subscribe, "p"), CALM));
            && s'.writer == Some(1) && s'.procs == s.procs && s'.all == [s.all[0].(buffer := [], subscribed := true)]
            && s'.handlers == [Replaying(0, 1, "p", 1), Greeting]
            && s'.trace == s.trace + [Wrote(0, 1, msg)]
  {
    HandlesSubscribe(s, 0, CmdMsg(Subscribe, "p", ["run"]), CALM);
    assert Wrotes(0, 1, [msg]) == [Wrote(0, 1, msg)];
  }

  /**
   A subscribe of a client that was replaced puts the whole replay, and all that follows, on the newer connection,
   whose handler has not begun to read; the process runs and is in the table.
   */
  lemma ReplayCanStray()
    ensures exists run ::
              var s := Run(PLAIN, run);
              && s.writer == Some(1) && |s.handlers| == 2 && s.handlers[1].Greeting?
              && s.procs == map["p" := 0] && |s.all| == 1 && s.all[0].status == Running && s.all[0].subscribed
              && s.trace != [] && s.trace[|s.trace| - 1] == Wrote(0, 1, Stderr("p", "x"))
  {
    var l := Line(0, Command(Subscribe, "p"), CALM);
    var r1 := Begin() + [Line(0, Command(Spawn, "q"), CALM)];
    var r2 := r1 + [Accept] + [Resume(0, true, REFUSING)];
    var r3 := r2 + [Resume(0, true, CALM)];
    AfterBegin();
    RunSplit(Begin(), Line(0, Command(Spawn, "q"), CALM));
    SpawnWaits(Run(PLAIN, Begin()));
    RunSplit(r1, Accept);
    RunSplit(r1 + [Accept], Resume(0, true, REFUSING));
    RunSplit(r2, Resume(0, true, CALM));
    TakesOverAndRefuses(Run(PLAIN, r1));
    RunSplit(r3, l);
    SubscribesForNewer(Run(PLAIN, r3), Stderr("p", "x"));
    assert Run(PLAIN, r3 + [l]).handlers[1].Greeting?;
  }
}
