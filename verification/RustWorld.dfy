/**
 The Rust server together with what runs beside it: the relay tasks of every child ever
 spawned, the relay queue, the client's line queue, and the record of what happened.
 A run is any sequence of steps; a step that is not enabled changes nothing.
 */
module RustWorld {
  import opened Protocol
  import opened StreamRelay
  import opened RustServer

  /** `abort` is a request: a stopping task may still read and send until it next suspends. */
  datatype Phase = Active | Stopping | Stopped

  datatype Task = Task(phase: Phase, read: seq<ReadEvent>)

  /**
   A child, its two relay tasks, and what was in flight when it was spawned: the messages on
   the relay queue and the tasks of older children that had not stopped.
   */
  datatype Child = Child(name: Name, out: Task, err: Task, inflight: seq<Relay>, live: set<(nat, Stream)>)

  /** Waiting in `run`, inside `handle_client`, shut down, or dead from a panic. */
  datatype Mode = Outer | Serving | Finished | Crashed

  datatype World = World(
    oracle: Oracle,
    server: Server,
    mode: Mode,
    lines: seq<Line>,
    lineEof: bool,
    queue: seq<Relay>,
    children: seq<Child>,
    now: nat,
    trace: seq<Event>)

  function Start(o: Oracle): World {
    World(o, INITIAL, Outer, [], false, [], [], 0, [])
  }

  datatype Label =
    | Accept(life: Option<nat>)
    | TakeRelay(env: Env)
    | TakeLine(env: Env)
    | TakeEof
    | ShutDown(plan: seq<(Name, Env)>)
    | ClientWrites(line: Line)
    | ClientEnds
    | ChildWrites(child: nat, stream: Stream, ev: ReadEvent)
    | TaskStops(child: nat, stream: Stream)

  function TaskOf(c: Child, stream: Stream): Task {
    if stream == OutStream then c.out else c.err
  }

  function WithTask(c: Child, stream: Stream, t: Task): Child {
    if stream == OutStream then c.(out := t) else c.(err := t)
  }

  /** The tasks that have not stopped. */
  function LiveTasks(children: seq<Child>): set<(nat, Stream)>
  {
    (set c | 0 <= c < |children| && children[c].out.phase != Stopped :: (c, OutStream))
    + (set c | 0 <= c < |children| && children[c].err.phase != Stopped :: (c, ErrStream))
  }

  function AskToStop(t: Task): Task {
    if t.phase == Active then t.(phase := Stopping) else t
  }

  function AbortTasks(children: seq<Child>, events: seq<Event>): (r: seq<Child>)
    ensures |r| == |children|
  {
    seq(|children|, c requires 0 <= c < |children| =>
      var child := children[c];
      child.(out := if Aborted(c, OutStream) in events then AskToStop(child.out) else child.out,
             err := if Aborted(c, ErrStream) in events then AskToStop(child.err) else child.err))
  }

  /** A handler's effect takes hold: aborts reach the tasks, and a spawned child starts its own. */
  function Commit(w: World, e: Effect): World
  {
    var children := AbortTasks(w.children, e.events);
    var w' := w.(server := e.server, children := children, trace := w.trace + e.events);
    if e.server.spawns == w.server.spawns then w'
    else
      var name := SpawnedName(e.events);
      w'.(children := children
          + [Child(name, Task(Active, []), Task(Active, []), w.queue, LiveTasks(w.children))])
  }

  function SpawnedName(events: seq<Event>): Name
  {
    if events == [] then ""
    else if events[0].Spawned? then events[0].name
    else SpawnedName(events[1..])
  }

  predicate Timely(w: World, env: Env) {
    w.now <= env.t0 <= env.t1
  }

  /** The plan of a shutdown names every process once. */
  predicate Covers(plan: seq<(Name, Env)>, procs: map<Name, Entry>) {
    && (forall i :: 0 <= i < |plan| ==> plan[i].0 in procs)
    && (forall i, j :: 0 <= i < j < |plan| ==> plan[i].0 != plan[j].0)
    && (forall n :: n in procs ==> exists i :: 0 <= i < |plan| && plan[i].0 == n)
  }

  function StreamStep(o: Oracle, stream: Stream, ev: ReadEvent): seq<Body> {
    if stream == OutStream then StdoutStep(o, ev) else StderrStep(o, ev)
  }

  function Labelled(name: Name, child: nat, stream: Stream, bodies: seq<Body>): (r: seq<Relay>)
    ensures |r| == |bodies|
  {
    seq(|bodies|, i requires 0 <= i < |bodies| => Relay(name, child, stream, bodies[i]))
  }

  function Step(w: World, l: Label): World
  {
    match l
    case Accept(life) =>
      if w.mode == Outer
      then Commit(w.(mode := Serving, lines := [], lineEof := false), Connect(w.server, life))
      else w
    case TakeRelay(env) =>
      if (w.mode == Outer || w.mode == Serving) && w.queue != [] && Timely(w, env)
      then Commit(w.(queue := w.queue[1..], now := env.t1), HandleRelay(w.server, w.queue[0], env))
      else w
    case TakeLine(env) =>
      if w.mode == Serving && w.lines != [] && Timely(w, env) then
        if Panics(w.server, w.lines[0]) then w.(mode := Crashed, lines := w.lines[1..])
        else Commit(w.(lines := w.lines[1..], now := env.t1), HandleLine(w.server, w.lines[0], env))
      else w
    case TakeEof =>
      if w.mode == Serving && w.lines == [] && w.lineEof
      then Commit(w.(mode := Outer), Disconnect(w.server))
      else w
    case ShutDown(plan) =>
      if w.mode == Outer && Covers(plan, w.server.procs)
      then Commit(w.(mode := Finished), Shutdown(w.server, plan))
      else w
    case ClientWrites(line) =>
      if w.mode == Serving && !w.lineEof
      then w.(lines := w.lines + [line], trace := w.trace + [Arrived(Peer(w.server), line)])
      else w
    case ClientEnds =>
      if w.mode == Serving then w.(lineEof := true) else w
    case ChildWrites(c, stream, ev) =>
      if c < |w.children| && TaskOf(w.children[c], stream).phase != Stopped then
        var child := w.children[c];
        var task := TaskOf(child, stream);
        var read := Task(if ev.Text? then task.phase else Stopped, task.read + [ev]);
        w.(children := w.children[c := WithTask(child, stream, read)],
           queue := w.queue + Labelled(child.name, c, stream, StreamStep(w.oracle, stream, ev)))
      else w
    case TaskStops(c, stream) =>
      if c < |w.children| && TaskOf(w.children[c], stream).phase == Stopping then
        var child := w.children[c];
        w.(children := w.children[c := WithTask(child, stream, TaskOf(child, stream).(phase := Stopped))])
      else w
  }

  function Run(o: Oracle, run: seq<Label>): World
  {
    if run == [] then Start(o) else Step(Run(o, run[..|run| - 1]), run[|run| - 1])
  }
}
