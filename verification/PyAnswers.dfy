/**
 What the handlers of the Python server do with the lines they read: whom they wait for, what they answer, what they
 write to a child, told from the run before the step and the label.
 */
module PyAnswers {
  import opened Protocol
  import opened StreamRelay
  import opened PyServer
  import opened PyRuns
  import opened PyTheorems
  import opened PyReplay
  import opened PyRecipients
  import opened PyDepartures
  import opened PySteps
  import opened PyKills

  // ---- what a handler waits for ----

  predicate CommandTaken(s: Server, l: Label) {
    l.Line? && l.conn < |s.handlers| && s.handlers[l.conn].Reading? && l.line.Parsed? && l.line.msg.Cmd?
  }

  /** The line is data for the stdin of a running process. */
  predicate Feeds(s: Server, l: Label, p: nat, data: Json) {
    && l.Line? && l.conn < |s.handlers| && s.handlers[l.conn].Reading? && l.line.Parsed? && l.line.msg.Stdin?
    && Find(s, l.line.msg.name) == Some(p) && s.all[p].status == Running && l.line.msg.data == data
  }

  /** What the handler must wait for before it can answer the command. */
  function Awaited(s: Server, l: Label): Option<Handler>
    requires CommandTaken(s, l)
  {
    var n := l.line.msg.cmd.name;
    match l.line.msg.cmd.verb
    case Spawn => if RunsAs(s, n) then None else Some(Spawning(n))
    case Kill => if RunsAs(s, n) && l.env.signal.None? then Some(Killing(s.procs[n], n)) else None
    case Subscribe =>
      if Find(s, n).Some? && s.writer.Some?
      then Some(Replaying(s.procs[n], s.writer.value, n, |s.all[s.procs[n]].buffer|)) else None
    case _ => None
  }

  /** The step answers a command: one just read, or one whose wait is over. */
  predicate Answers(s: Server, l: Label)
  {
    match l
    case Line(_, _, _) => CommandTaken(s, l) && Awaited(s, l).None?
    case Resume(c, ok, _) =>
      && c < |s.handlers|
      && (s.handlers[c].Spawning? || s.handlers[c].Killing? || (s.handlers[c].Replaying? && ok))
    case _ => false
  }

  /** Having answered, a handler waits for the writer the answer went to, if there was one. */
  function Replied(s: Server): Handler {
    if s.writer.Some? then Answering(s.writer.value) else Reading
  }

  /** Where a handler stands after the step. */
  function HandlerNext(s: Server, l: Label, c: nat): Handler
    requires c < |s.handlers|
  {
    var h := s.handlers[c];
    match l
    case Line(d, _, _) =>
      if d != c || !h.Reading? then h
      else if CommandTaken(s, l) then (if Awaited(s, l).Some? then Awaited(s, l).value else Replied(s))
      else if l.line.Parsed? && RunsAs(s, l.line.msg.name) then Feeding(s.procs[l.line.msg.name])
      else Reading
    case Resume(d, _, _) =>
      if d != c || h.Greeting? || h.Left? then h else if Answers(s, l) then Replied(s) else Reading
    case Greeted(d) => if d == c && h.Greeting? then Reading else h
    case Vanish(d) => if d == c && h.Greeting? then Left else h
    case Depart(d) => if d == c && !h.Greeting? then Left else h
    case _ => h
  }

  // ---- what is recorded ----

  predicate Spoken(e: Event) {
    IsAnswer(e) || e.StdinWritten?
  }

  /** Neither an answer nor a write to a child is recorded. */
  ghost predicate Silent(s: Server, s': Server) {
    s.trace <= s'.trace && forall i :: |s.trace| <= i < |s'.trace| ==> !Spoken(s'.trace[i])
  }

  function Reply(s: Server, r: ResultMsg): Event {
    if s.writer.Some? then Answered(s.writer.value, r) else Unanswered(r)
  }

  /** The step ends with this one answer, to the writer if there is one. */
  ghost predicate RepliesWith(s: Server, s': Server, r: ResultMsg) {
    && s.trace <= s'.trace && |s.trace| < |s'.trace| && s'.trace[|s'.trace| - 1] == Reply(s, r)
    && forall i :: |s.trace| <= i < |s'.trace| - 1 ==> !Spoken(s'.trace[i])
  }

  lemma AnswerReplies(s: Server, mid: Server, c: nat, r: ResultMsg)
    requires Silent(s, mid) && mid.writer == s.writer && mid.handlers == s.handlers && c < |s.handlers|
    ensures var s' := Answer(mid, c, r);
            && RepliesWith(s, s', r) && s'.handlers == s.handlers[c := Replied(s)]
            && s'.all == mid.all && s'.procs == mid.procs
  {
  }

  // ---- the right result ----

  function OfProcess(mp: Process, learned: Option<Option<int>>): ProcInfo {
    ProcInfo(mp.pid, if learned.Some? then Exited else Running, CodeOf(learned), |mp.buffer|, mp.subscribed,
             mp.lastStdout >= mp.lastStdin)
  }

  predicate RightSubscribe(mp: Process, learned: Option<Option<int>>, n: Name, count: nat, r: ResultMsg) {
    var row := OfProcess(mp, learned);
    r == Ok(n).(replayed := Some(count), status := Some(row.status), exitCode := row.exitCode, idle := Some(row.idle))
  }

  /** A process runs under the name, with this pid. */
  predicate RunsUnder(s: Server, n: Name, pid: nat) {
    RunsAs(s, n) && s.all[s.procs[n]].pid == pid
  }

  /** Found by a name, or not. */
  predicate RightFound(s: Server, n: Name, r: ResultMsg) {
    r == if n in s.procs then Ok(n) else Err(n, "not found")
  }

  predicate RightInterrupt(s: Server, n: Name, env: Env, r: ResultMsg) {
    && (r.ok <==> RunsAs(s, n) && env.signal.None?)
    && r == if r.ok then Ok(n) else Err(n, if RunsAs(s, n) then env.signal.value else "not running")
  }

  ghost predicate RightList(o: Oracle, run: seq<Label>, r: ResultMsg) {
    var s := Run(o, run);
    && r.processes.Some? && r == Ok("").(processes := r.processes)
    && r.processes.value.Keys == s.procs.Keys
    && forall n :: n in s.procs ==> RightRow(o, run, n, r.processes.value[n])
  }

  ghost predicate RightRow(o: Oracle, run: seq<Label>, n: Name, row: ProcInfo) {
    var s := Run(o, run);
    n in s.procs && s.procs[n] < |s.all| && row == OfProcess(s.all[s.procs[n]], Learned(o, run, s.procs[n]))
  }

  /** The result that a command answered as soon as it is read deserves. */
  ghost predicate RightAtOnce(o: Oracle, run: seq<Label>, s': Server, cmd: CmdMsg, env: Env, r: ResultMsg) {
    var s := Run(o, run);
    match cmd.verb
    case Spawn => r.pid.Some? && r == Ok(cmd.name).(pid := r.pid, alreadyRunning := Some(true)) && RunsUnder(s', cmd.name, r.pid.value)
    case Kill => RightFound(s, cmd.name, r) && cmd.name !in s'.procs
    case Interrupt => RightInterrupt(s, cmd.name, env, r)
    case Subscribe =>
      if cmd.name !in s.procs then r == Err(cmd.name, "not found")
      else
        && s.procs[cmd.name] < |s.all|
        && var mp := s.all[s.procs[cmd.name]];
           RightSubscribe(mp, Learned(o, run, s.procs[cmd.name]), cmd.name, |mp.buffer|, r)
    case Unsubscribe => RightFound(s, cmd.name, r)
    case List => RightList(o, run, r)
    case Uptime => r == Ok("").(uptime := Some(env.uptime))
    case Unknown(text) => r == Err("", "unknown command: " + text)
  }

  /** The result of a command whose wait is over. */
  ghost predicate RightLater(o: Oracle, run: seq<Label>, s': Server, h: Handler, env: Env, r: ResultMsg) {
    var s := Run(o, run);
    match h
    case Spawning(n) =>
      (match env.spawn
       case SpawnFailed(error) => r == Err(n, error) && s'.procs == s.procs
       case Started(pid) => r == Ok(n).(pid := Some(pid)) && RunsUnder(s', n, pid) && s'.procs == s.procs[n := |s.all|])
    case Killing(_, n) => r == Ok(n) && n !in s'.procs
    case Replaying(p, _, n, count) => p < |s.all| && RightSubscribe(s.all[p], Learned(o, run, p), n, count, r)
    case _ => false
  }

  ghost predicate Right(o: Oracle, run: seq<Label>, s': Server, l: Label, r: ResultMsg) {
    match l
    case Line(_, Parsed(Cmd(cmd)), env) => RightAtOnce(o, run, s', cmd, env, r)
    case Resume(c, _, env) => c < |Run(o, run).handlers| && RightLater(o, run, s', Run(o, run).handlers[c], env, r)
    case _ => false
  }

  // ---- commands answered at once ----

  lemma SpawnAnswers(s: Server, c: nat, n: Name)
    requires c < |s.handlers| && Named(s) && RunsAs(s, n)
    ensures var s', r := CmdSpawn(s, c, n), Ok(n).(pid := Some(s.all[s.procs[n]].pid), alreadyRunning := Some(true));
            RepliesWith(s, s', r) && s'.handlers == s.handlers[c := Replied(s)] && RunsUnder(s', n, s.all[s.procs[n]].pid)
  {
    AnswerReplies(s, s, c, Ok(n).(pid := Some(s.all[s.procs[n]].pid), alreadyRunning := Some(true)));
  }

  lemma ForgetAnswers(s: Server, mid: Server, c: nat, n: Name)
    requires c < |s.handlers| && mid.trace == s.trace && mid.writer == s.writer && mid.handlers == s.handlers
    ensures var s' := Forget(mid, c, n);
            RepliesWith(s, s', Ok(n)) && s'.handlers == s.handlers[c := Replied(s)] && n !in s'.procs
  {
    AnswerReplies(s, mid.(procs := mid.procs - {n}), c, Ok(n));
  }

  lemma KillAnswers(s: Server, c: nat, n: Name, env: Env)
    requires c < |s.handlers| && Named(s) && !(RunsAs(s, n) && env.signal.None?)
    ensures var s', r := CmdKill(s, c, n, env), if n in s.procs then Ok(n) else Err(n, "not found");
            RepliesWith(s, s', r) && s'.handlers == s.handlers[c := Replied(s)] && n !in s'.procs
  {
    match Find(s, n) {
      case None => AnswerReplies(s, s, c, Err(n, "not found"));
      case Some(p) =>
        if s.all[p].status != Running {
          ForgetAnswers(s, s, c, n);
        } else {
          ForgetAnswers(s, FinishKill(s, p, env.code), c, n);
        }
    }
  }

  lemma InterruptAnswers(s: Server, c: nat, n: Name, env: Env) returns (r: ResultMsg)
    requires c < |s.handlers| && Named(s)
    ensures var s' := CmdInterrupt(s, c, n, env);
            RepliesWith(s, s', r) && s'.handlers == s.handlers[c := Replied(s)] && RightInterrupt(s, n, env, r)
  {
    r := if !RunsAs(s, n) then Err(n, "not running") else if env.signal.Some? then Err(n, env.signal.value) else Ok(n);
    AnswerReplies(s, s, c, r);
  }

  lemma UnsubscribeAnswers(s: Server, c: nat, n: Name)
    requires c < |s.handlers| && Named(s)
    ensures var s', r := CmdUnsubscribe(s, c, n), if n in s.procs then Ok(n) else Err(n, "not found");
            RepliesWith(s, s', r) && s'.handlers == s.handlers[c := Replied(s)]
  {
    match Find(s, n) {
      case None => AnswerReplies(s, s, c, Err(n, "not found"));
      case Some(p) => AnswerReplies(s, Set(s, p, s.all[p].(subscribed := false)), c, Ok(n));
    }
  }

  lemma FlushSilent(s: Server, p: nat)
    requires p < |s.all|
    ensures Silent(s, Flush(s, p)) && Flush(s, p).writer == s.writer && Flush(s, p).handlers == s.handlers
  {
    var evs := if s.writer.Some? then Wrotes(p, s.writer.value, s.all[p].buffer) else Drops(p, s.all[p].buffer);
    assert forall i :: 0 <= i < |evs| ==> !Spoken(evs[i]);
    assert Flush(s, p).trace == s.trace + evs;
  }

  lemma SubscribeAnswers(s: Server, c: nat, cmd: CmdMsg, env: Env)
    requires c < |s.handlers| && cmd.verb.Subscribe? && Find(s, cmd.name).Some? && s.writer.None?
    ensures var s', mp := HandleCommand(s, c, cmd, env), s.all[s.procs[cmd.name]];
            && RepliesWith(s, s', SubscribeResult(cmd.name, mp, |mp.buffer|)) && s'.handlers == s.handlers[c := Replied(s)]
  {
    var p := Find(s, cmd.name).value;
    HandlesSubscribe(s, c, cmd, env);
    FlushSilent(s, p);
    AnswerReplies(s, Flush(s, p), c, SubscribeResult(cmd.name, s.all[p], |s.all[p].buffer|));
  }

  lemma KnownRow(o: Oracle, run: seq<Label>, p: nat)
    requires p < |Run(o, run).all|
    ensures var mp := Run(o, run).all[p];
            && Info(mp) == OfProcess(mp, Learned(o, run, p))
            && forall n, count :: RightSubscribe(mp, Learned(o, run, p), n, count, SubscribeResult(n, mp, count))
  {
    CodesExactly(o, run, p);
  }

  lemma ListRight(o: Oracle, run: seq<Label>)
    requires Named(Run(o, run))
    ensures RightList(o, run, Ok("").(processes := Some(Listing(Run(o, run)))))
  {
    var s := Run(o, run);
    var rows := Listing(s);
    assert rows.Keys == s.procs.Keys;
    forall n | n in s.procs ensures RightRow(o, run, n, rows[n]) {
      KnownRow(o, run, s.procs[n]);
    }
  }

  /** A command that can be answered is, rightly. */
  lemma AtOnce(o: Oracle, run: seq<Label>, l: Label) returns (r: ResultMsg)
    requires var s := Run(o, run);
             Named(s) && CommandTaken(s, l) && Awaited(s, l).None?
    ensures var s, s' := Run(o, run), Step(Run(o, run), o, l);
            RepliesWith(s, s', r) && s'.handlers == s.handlers[l.conn := Replied(s)] && Right(o, run, s', l, r)
  {
    var s, c, cmd := Run(o, run), l.conn, l.line.msg.cmd;
    r := Err("", "");
    match cmd.verb {
      case Spawn =>
        SpawnAnswers(s, c, cmd.name);
        r := Ok(cmd.name).(pid := Some(s.all[s.procs[cmd.name]].pid), alreadyRunning := Some(true));
      case Kill =>
        KillAnswers(s, c, cmd.name, l.env);
        r := if cmd.name in s.procs then Ok(cmd.name) else Err(cmd.name, "not found");
      case Interrupt => r := InterruptAnswers(s, c, cmd.name, l.env);
      case Subscribe => r := SubscribeAtOnce(o, run, l);
      case Unsubscribe =>
        UnsubscribeAnswers(s, c, cmd.name);
        r := if cmd.name in s.procs then Ok(cmd.name) else Err(cmd.name, "not found");
      case List =>
        r := Ok("").(processes := Some(Listing(s)));
        AnswerReplies(s, s, c, r);
        ListRight(o, run);
      case Uptime =>
        r := Ok("").(uptime := Some(l.env.uptime));
        AnswerReplies(s, s, c, r);
      case Unknown(text) =>
        r := Err("", "unknown command: " + text);
        AnswerReplies(s, s, c, r);
    }
  }

  lemma SubscribeAtOnce(o: Oracle, run: seq<Label>, l: Label) returns (r: ResultMsg)
    requires var s := Run(o, run);
             Named(s) && CommandTaken(s, l) && l.line.msg.cmd.verb.Subscribe? && Awaited(s, l).None?
    ensures var s, s' := Run(o, run), Step(Run(o, run), o, l);
            RepliesWith(s, s', r) && s'.handlers == s.handlers[l.conn := Replied(s)] && Right(o, run, s', l, r)
  {
    var s, c, cmd := Run(o, run), l.conn, l.line.msg.cmd;
    match Find(s, cmd.name) {
      case None =>
        r := Err(cmd.name, "not found");
        AnswerReplies(s, s, c, r);
      case Some(p) =>
        r := SubscribeResult(cmd.name, s.all[p], |s.all[p].buffer|);
        SubscribeAnswers(s, c, cmd, l.env);
        KnownRow(o, run, p);
    }
  }

  /** A command that must wait leaves its handler waiting, and records no answer. */
  lemma Later(s: Server, o: Oracle, l: Label)
    requires Named(s) && CommandTaken(s, l) && Awaited(s, l).Some?
    ensures var s' := Step(s, o, l);
            Silent(s, s') && s'.handlers == s.handlers[l.conn := Awaited(s, l).value]
  {
    var c, cmd := l.conn, l.line.msg.cmd;
    if cmd.verb.Subscribe? {
      HandlesSubscribe(s, c, cmd, l.env);
      FlushSilent(s, Find(s, cmd.name).value);
    }
  }

  // ---- answers after a wait ----

  lemma SpawnedLater(s: Server, c: nat, n: Name, outcome: SpawnOutcome) returns (r: ResultMsg)
    requires c < |s.handlers|
    ensures var s' := FinishSpawn(s, c, n, outcome);
            && RepliesWith(s, s', r) && s'.handlers == s.handlers[c := Replied(s)]
            && match outcome
               case SpawnFailed(error) => r == Err(n, error) && s'.procs == s.procs
               case Started(pid) => r == Ok(n).(pid := Some(pid)) && RunsUnder(s', n, pid) && s'.procs == s.procs[n := |s.all|]
  {
    match outcome {
      case SpawnFailed(error) =>
        r := Err(n, error);
        AnswerReplies(s, s, c, r);
      case Started(pid) =>
        r := Ok(n).(pid := Some(pid));
        AnswerReplies(s, s.(all := s.all + [NewProcess(n, pid)], procs := s.procs[n := |s.all|]), c, r);
    }
  }

  lemma KilledLater(s: Server, c: nat, p: nat, n: Name, code: Option<int>)
    requires c < |s.handlers|
    ensures var s' := FinishCmdKill(s, c, p, n, code);
            RepliesWith(s, s', Ok(n)) && s'.handlers == s.handlers[c := Replied(s)] && n !in s'.procs
  {
    ForgetAnswers(s, if p < |s.all| then FinishKill(s, p, code) else s, c, n);
  }

  lemma ReplayedLater(s: Server, c: nat, h: Handler)
    requires c < |s.handlers| && h.Replaying? && h.proc < |s.all|
    ensures var s' := FinishSubscribe(s, c, h, true);
            RepliesWith(s, s', SubscribeResult(h.name, s.all[h.proc], h.count)) && s'.handlers == s.handlers[c := Replied(s)]
  {
    AnswerReplies(s, s, c, SubscribeResult(h.name, s.all[h.proc], h.count));
  }

  lemma AfterWait(o: Oracle, run: seq<Label>, l: Label) returns (r: ResultMsg)
    requires l.Resume? && Answers(Run(o, run), l)
    ensures var s, s' := Run(o, run), Step(Run(o, run), o, l);
            RepliesWith(s, s', r) && s'.handlers == s.handlers[l.conn := Replied(s)] && Right(o, run, s', l, r)
  {
    var s, c := Run(o, run), l.conn;
    match s.handlers[c] {
      case Spawning(n) => r := SpawnedLater(s, c, n, l.env.spawn);
      case Killing(p, n) =>
        r := Ok(n);
        KilledLater(s, c, p, n, l.env.code);
      case Replaying(_, _, _, _) => r := AfterReplay(o, run, l);
    }
  }

  lemma AfterReplay(o: Oracle, run: seq<Label>, l: Label) returns (r: ResultMsg)
    requires l.Resume? && Answers(Run(o, run), l) && Run(o, run).handlers[l.conn].Replaying?
    ensures var s, s' := Run(o, run), Step(Run(o, run), o, l);
            RepliesWith(s, s', r) && s'.handlers == s.handlers[l.conn := Replied(s)] && Right(o, run, s', l, r)
  {
    var s := Run(o, run);
    var h := s.handlers[l.conn];
    WaitsWell(o, run, l.conn);
    r := SubscribeResult(h.name, s.all[h.proc], h.count);
    ReplayedLater(s, l.conn, h);
    KnownRow(o, run, h.proc);
  }

  // ---- steps without an answer ----

  lemma RetireSilent(s: Server, c: nat, w: nat, h: Handler)
    requires c < |s.handlers|
    ensures Silent(s, At(Retire(s, w), c, h)) && At(Retire(s, w), c, h).handlers == s.handlers[c := h]
  {
  }

  lemma ResumeSilent(s: Server, o: Oracle, l: Label)
    requires l.Resume? && l.conn < |s.handlers| && !Answers(s, l)
    ensures Silent(s, Step(s, o, l))
    ensures Step(s, o, l).handlers == s.handlers[l.conn := HandlerNext(s, l, l.conn)]
  {
    match s.handlers[l.conn] {
      case Answering(w) => RetireSilent(s, l.conn, w, Reading);
      case Replaying(_, w, _, _) => RetireSilent(s, l.conn, w, Reading);
      case _ =>
    }
  }

  lemma OthersSilent(s: Server, o: Oracle, l: Label)
    requires !l.Line? && !l.Resume?
    ensures Silent(s, Step(s, o, l))
  {
    if l.ReadOut? || l.ReadErr? || l.ChildGone? {
      if Free(s, l.proc) {
        TaskSilent(s, o, l);
      }
    } else {
      SilentAccounts(s, o, l, 0);
    }
  }

  lemma TaskSilent(s: Server, o: Oracle, l: Label)
    requires (l.ReadOut? || l.ReadErr? || l.ChildGone?) && Free(s, l.proc)
    ensures Silent(s, Step(s, o, l))
  {
    var msg := TaskEmits(s, o, l);
    if msg.Some? {
      EmissionSilent(s, l.proc, msg.value);
    }
  }

  lemma EmissionSilent(s: Server, p: nat, msg: ServerMsg)
    requires p < |s.all|
    ensures Silent(s, RelayOrBuffer(s, p, msg))
  {
  }

  lemma OthersHandlers(s: Server, o: Oracle, l: Label)
    requires !l.Line? && !l.Resume? && !l.Accept?
    ensures |Step(s, o, l).handlers| == |s.handlers|
    ensures forall c :: 0 <= c < |s.handlers| ==> Step(s, o, l).handlers[c] == HandlerNext(s, l, c)
  {
    if l.ReadOut? || l.ReadErr? || l.ChildGone? {
      if Free(s, l.proc) {
        RelayWidens(s, o, l);
      }
    } else if l.DrainEnds? && Free(s, l.proc) {
      DrainHandlers(s, l.proc, l.out, l.ok);
    }
  }

  lemma DrainHandlers(s: Server, p: nat, out: bool, ok: bool)
    requires p < |s.all|
    ensures Drained(s, p, out, ok).handlers == s.handlers
  {
  }

  // ---- the theorems ----

  /** What a line or the end of a wait does to the handlers and the record. */
  lemma HandlerStep(o: Oracle, run: seq<Label>, l: Label)
    requires (l.Line? || l.Resume?) && l.conn < |Run(o, run).handlers|
    ensures var s, s' := Run(o, run), Step(Run(o, run), o, l);
            s'.handlers == s.handlers[l.conn := HandlerNext(s, l, l.conn)]
  {
    var s := Run(o, run);
    RunSettled(o, run);
    if Answers(s, l) {
      if l.Line? {
        var r := AtOnce(o, run, l);
      } else {
        var r := AfterWait(o, run, l);
      }
    } else if l.Resume? {
      ResumeSilent(s, o, l);
    } else if CommandTaken(s, l) {
      Later(s, o, l);
    }
  }

  /**
   In every run a handler waits for exactly what the line it read calls for: for the child of a spawn over no running process, for the child of a
   running process it could signal, for the drain of a replay or of its answer, for the pipe it fed; and having
   waited it answers, or reads on. A new connection's handler first waits for the one it replaces.
   */
  lemma {:induction false} HandlersExactly(o: Oracle, run: seq<Label>, l: Label)
    ensures var s, s' := Run(o, run), Step(Run(o, run), o, l);
            && (forall c :: 0 <= c < |s.handlers| ==> c < |s'.handlers| && s'.handlers[c] == HandlerNext(s, l, c))
            && (if l.Accept? then s'.handlers == s.handlers + [if s.writer.Some? then Greeting else Reading]
                else |s'.handlers| == |s.handlers|)
  {
    var s := Run(o, run);
    if l.Line? || l.Resume? {
      if l.conn < |s.handlers| {
        HandlerStep(o, run, l);
      }
    } else if !l.Accept? {
      OthersHandlers(s, o, l);
    }
  }

  /**
   In every run a step records an answer exactly when it reads a command that need not wait or ends the wait of one; it is one answer, to the
   current writer if there is one, and it is right: a spawn tells the process that runs under the name afterwards, an
   interrupt succeeds exactly when it reached a running process, and a subscribe and every row of a listing tell the
   table and the exit code learned in the run.
   */
  lemma {:induction false} AnsweredExactly(o: Oracle, run: seq<Label>, l: Label)
    ensures var s, s' := Run(o, run), Step(Run(o, run), o, l);
            if Answers(s, l) then exists r :: RepliesWith(s, s', r) && Right(o, run, s', l, r)
            else s.trace <= s'.trace && forall i :: |s.trace| <= i < |s'.trace| ==> !IsAnswer(s'.trace[i])
  {
    var s := Run(o, run);
    RunSettled(o, run);
    if Answers(s, l) {
      if l.Line? {
        var r := AtOnce(o, run, l);
      } else {
        var r := AfterWait(o, run, l);
      }
    } else {
      NoAnswer(s, o, l);
    }
  }

  lemma NoAnswer(s: Server, o: Oracle, l: Label)
    requires Named(s) && !Answers(s, l)
    ensures var s' := Step(s, o, l);
            s.trace <= s'.trace && forall i :: |s.trace| <= i < |s'.trace| ==> !IsAnswer(s'.trace[i])
  {
    if l.Resume? {
      if l.conn < |s.handlers| {
        ResumeSilent(s, o, l);
      }
    } else if l.Line? {
      if CommandTaken(s, l) {
        Later(s, o, l);
      }
    } else {
      OthersSilent(s, o, l);
    }
  }

  lemma FeedsOnce(s: Server, o: Oracle, l: Label, p: nat, data: Json)
    requires Feeds(s, l, p, data)
    ensures Step(s, o, l).trace == s.trace + [StdinWritten(p, data)]
  {
  }

  /** The line is data for the stdin of some running process. */
  predicate FeedsSome(s: Server, l: Label) {
    && l.Line? && l.line.Parsed? && l.line.msg.Stdin?
    && RunsAs(s, l.line.msg.name) && Feeds(s, l, s.procs[l.line.msg.name], l.line.msg.data)
  }

  ghost predicate NoStdin(s: Server, s': Server) {
    forall i :: |s.trace| <= i < |s'.trace| ==> !s'.trace[i].StdinWritten?
  }

  lemma RepliesNoStdin(s: Server, s': Server, r: ResultMsg)
    requires RepliesWith(s, s', r)
    ensures NoStdin(s, s')
  {
  }

  lemma AnswersNoStdin(o: Oracle, run: seq<Label>, l: Label)
    requires Answers(Run(o, run), l)
    ensures NoStdin(Run(o, run), Step(Run(o, run), o, l))
  {
    RunSettled(o, run);
    var r: ResultMsg;
    if l.Line? {
      r := AtOnce(o, run, l);
    } else {
      r := AfterWait(o, run, l);
    }
    RepliesNoStdin(Run(o, run), Step(Run(o, run), o, l), r);
  }

  /** Whatever is not data for a running process writes to no child. */
  lemma FeedsNone(o: Oracle, run: seq<Label>, l: Label)
    requires !FeedsSome(Run(o, run), l)
    ensures NoStdin(Run(o, run), Step(Run(o, run), o, l))
  {
    if Answers(Run(o, run), l) {
      AnswersNoStdin(o, run, l);
    } else {
      RunSettled(o, run);
      WaitsNoStdin(Run(o, run), o, l);
    }
  }

  lemma WaitsNoStdin(s: Server, o: Oracle, l: Label)
    requires Named(s) && !Answers(s, l) && !FeedsSome(s, l)
    ensures NoStdin(s, Step(s, o, l))
  {
    if l.Resume? {
      if l.conn < |s.handlers| {
        ResumeSilent(s, o, l);
      }
    } else if l.Line? {
      if CommandTaken(s, l) {
        Later(s, o, l);
      }
    } else {
      OthersSilent(s, o, l);
    }
  }

  /**
   In every run a step writes to the stdin of a process exactly when it reads a stdin line whose name a running process has; what is
   written, to that process and once, is what the line carries.
   */
  lemma {:induction false} StdinExactly(o: Oracle, run: seq<Label>, l: Label, p: nat, data: Json)
    ensures var s, s' := Run(o, run), Step(Run(o, run), o, l);
            && (Feeds(s, l, p, data) ==> s'.trace == s.trace + [StdinWritten(p, data)])
            && (!Feeds(s, l, p, data) ==> forall i :: |s.trace| <= i < |s'.trace| ==> s'.trace[i] != StdinWritten(p, data))
  {
    var s := Run(o, run);
    if FeedsSome(s, l) {
      FeedsOnce(s, o, l, s.procs[l.line.msg.name], l.line.msg.data);
    } else {
      FeedsNone(o, run, l);
    }
  }
}
