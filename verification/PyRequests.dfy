/** Which request a Python handler's answer belongs to, and how many answers a client's commands get. */
module PyRequests {
  import opened Protocol
  import opened StreamRelay
  import opened PyServer
  import opened PyRuns
  import opened PyTheorems
  import opened PyReplay
  import opened PySteps
  import opened PyAnswers

  // ---- an answer belongs to the line its handler read last ----

  /** A command has been read and is not answered. */
  predicate Pending(h: Handler) {
    h.Spawning? || h.Killing? || h.Replaying?
  }

  /** Step `k` reads the command that handler `c` has been waiting with ever since, as `h` says. */
  ghost predicate AskedIn(o: Oracle, run: seq<Label>, k: nat, c: nat, h: Handler) {
    && k < |run| && AsksWith(Run(o, run[..k]), run[k], c, h) && Still(o, run, k, c, h)
  }

  predicate AsksWith(s: Server, l: Label, c: nat, h: Handler) {
    CommandTaken(s, l) && l.conn == c && Awaited(s, l) == Some(h)
  }

  lemma NewlyPending(o: Oracle, run: seq<Label>, l: Label, c: nat, h: Handler)
    requires HandlerAt(Run(o, run + [l]), c) == Some(h) && HandlerAt(Run(o, run), c) != Some(h) && Pending(h)
    ensures AsksWith(Run(o, run), l, c, h)
  {
    assert (run + [l])[..|run|] == run;
    HandlersExactly(o, run, l);
  }

  lemma AskedFirst(o: Oracle, run: seq<Label>, l: Label, c: nat, h: Handler)
    requires AsksWith(Run(o, run), l, c, h) && HandlerAt(Run(o, run + [l]), c) == Some(h)
    ensures AskedIn(o, run + [l], |run|, c, h)
  {
    StillNow(o, run + [l], c, h);
    assert (run + [l])[..|run|] == run;
  }

  lemma AskedOn(o: Oracle, run: seq<Label>, l: Label, k: nat, c: nat, h: Handler)
    requires AskedIn(o, run, k, c, h) && HandlerAt(Run(o, run + [l]), c) == Some(h)
    ensures AskedIn(o, run + [l], k, c, h)
  {
    StillOn(o, run, l, k, c, h);
    assert (run + [l])[..k] == run[..k];
  }

  lemma {:induction false} PendingWasAsked(o: Oracle, run: seq<Label>, c: nat, h: Handler)
    requires HandlerAt(Run(o, run), c) == Some(h) && Pending(h)
    ensures exists k: nat :: AskedIn(o, run, k, c, h)
  {
    var init, l := run[..|run| - 1], run[|run| - 1];
    assert init + [l] == run;
    if HandlerAt(Run(o, init), c) == Some(h) {
      PendingWasAsked(o, init, c, h);
      var k: nat :| AskedIn(o, init, k, c, h);
      AskedOn(o, init, l, k, c, h);
    } else {
      NewlyPending(o, init, l, c, h);
      AskedFirst(o, init, l, c, h);
    }
  }

  /**
   In every run an answer given after a wait belongs to a definite command line of the handler's own client: the one that made
   it wait, with nothing read since.
   */
  lemma {:induction false} AnswerFollowsRequest(o: Oracle, run: seq<Label>, l: Label)
    requires l.Resume? && Answers(Run(o, run), l)
    ensures exists k: nat :: AskedIn(o, run, k, l.conn, Run(o, run).handlers[l.conn])
  {
    PendingWasAsked(o, run, l.conn, Run(o, run).handlers[l.conn]);
  }

  // ---- one answer for each command ----

  predicate ReadsCommand(s: Server, l: Label, c: nat) {
    CommandTaken(s, l) && l.conn == c
  }

  predicate Gives(s: Server, l: Label, c: nat) {
    Answers(s, l) && l.conn == c
  }

  /** The handler drops a command: its replay's drain failed, or it leaves. */
  predicate GivesUp(s: Server, l: Label, c: nat) {
    && c < |s.handlers| && Pending(s.handlers[c])
    && ((l == Depart(c)) || (l.Resume? && l.conn == c && s.handlers[c].Replaying? && !l.ok))
  }

  function One(b: bool): nat {
    if b then 1 else 0
  }

  function CommandsRead(o: Oracle, run: seq<Label>, c: nat): nat
  {
    if run == [] then 0
    else
      var init := run[..|run| - 1];
      CommandsRead(o, init, c) + One(ReadsCommand(Run(o, init), run[|run| - 1], c))
  }

  function AnswersGiven(o: Oracle, run: seq<Label>, c: nat): nat
  {
    if run == [] then 0
    else
      var init := run[..|run| - 1];
      AnswersGiven(o, init, c) + One(Gives(Run(o, init), run[|run| - 1], c))
  }

  function GivenUp(o: Oracle, run: seq<Label>, c: nat): nat
  {
    if run == [] then 0
    else
      var init := run[..|run| - 1];
      GivenUp(o, init, c) + One(GivesUp(Run(o, init), run[|run| - 1], c))
  }

  predicate Waiting(s: Server, c: nat) {
    c < |s.handlers| && Pending(s.handlers[c])
  }

  lemma StepBalances(o: Oracle, run: seq<Label>, l: Label, c: nat)
    ensures var s, s' := Run(o, run), Step(Run(o, run), o, l);
            One(Waiting(s, c)) + One(ReadsCommand(s, l, c)) == One(Gives(s, l, c)) + One(GivesUp(s, l, c)) + One(Waiting(s', c))
  {
    HandlersExactly(o, run, l);
  }

  /**
   In every run each command a client's handler has read was answered once, or dropped because the drain of its replay failed or the
   handler left, or is the one it still waits with.
   */
  lemma {:induction false} OneAnswerEach(o: Oracle, run: seq<Label>, c: nat)
    ensures CommandsRead(o, run, c) == AnswersGiven(o, run, c) + GivenUp(o, run, c) + One(Waiting(Run(o, run), c))
  {
    if run != [] {
      OneAnswerEach(o, run[..|run| - 1], c);
      StepBalances(o, run[..|run| - 1], run[|run| - 1], c);
    }
  }
}
