/**
 The Rust client as it is written: a connection object that routes messages into queues in place,
 and the command side that takes turns under a lock. Each method is proved to do one step of
 `Demux` or of `Callers`.
 */
module RustLiveClient {
  import opened ClientQueues
  import opened Protocol
  import D = Demux
  import C = Callers

  class ProcmuxConnection {
    var processQueues: map<Name, Queue>
    var cmdResponses: seq<ResultMsg>
    var demuxTask: D.Phase
    var closed: bool
    var created: nat
    ghost var all: seq<Queue>

    ghost predicate Valid()
      reads this
    {
      && created == |all|
      && (forall i :: 0 <= i < |all| ==> all[i].id == i)
      && (forall n :: n in processQueues ==> Known(processQueues[n]))
      && (forall n, m :: n in processQueues && m in processQueues && n != m ==> processQueues[n] != processQueues[m])
    }

    ghost predicate Known(q: Queue)
      reads this
    {
      q.id < |all| && all[q.id] == q
    }

    ghost function Contents(): seq<seq<D.QueueItem>>
      reads this, all
    {
      seq(|all|, i requires 0 <= i < |all| reads this, all => all[i].items)
    }

    ghost function State(): D.State
      reads this, all
    {
      D.State(Places(processQueues), Contents(), cmdResponses, demuxTask, closed)
    }

    constructor ()
      ensures Valid() && State() == D.FRESH
    {
      processQueues, cmdResponses, demuxTask, closed, created, all := map[], [], D.Reading, false, 0, [];
    }

    method RegisterProcess(name: Name) returns (q: Queue)
      requires Valid()
      modifies this`processQueues, this`created, this`all
      ensures Valid() && fresh(q) && name in processQueues && processQueues[name] == q
      ensures State() == D.Step(old(State()), D.Register(name))
    {
      q := new Queue(created);
      processQueues := processQueues[name := q];
      all := all + [q];
      created := created + 1;
      assert Places(processQueues) == old(Places(processQueues))[name := |old(all)|];
      assert Contents() == old(Contents()) + [[]];
    }

    method UnregisterProcess(name: Name)
      requires Valid()
      modifies this`processQueues
      ensures Valid()
      ensures State() == D.Step(old(State()), D.Unregister(name))
    {
      processQueues := processQueues - {name};
      assert Places(processQueues) == old(Places(processQueues)) - {name};
      assert Contents() == old(Contents());
    }

    method Push(q: Queue, item: D.QueueItem)
      requires Valid() && Known(q)
      modifies q`items
      ensures State() == old(State()).(queues := old(Contents())[q.id := old(q.items) + [item]])
    {
      q.Put(item);
      assert Contents() == old(Contents())[q.id := q.items];
    }

    /** One line of the demultiplexer's loop that parsed. */
    method Receive(msg: ServerMsg)
      requires Valid() && demuxTask == D.Reading
      modifies this`cmdResponses, set n | n in processQueues :: processQueues[n]
      ensures Valid() && State() == D.Step(old(State()), D.Arrive(msg))
    {
      match msg {
        case Result(result) =>
          cmdResponses := cmdResponses + [result];
          assert Contents() == old(Contents());
        case _ =>
          var name := NameOf(msg);
          if name in processQueues {
            Push(processQueues[name], D.Item(msg));
          }
      }
    }

    /** The loop is left, at end of file or on an error. */
    method StreamEnds()
      requires Valid() && demuxTask == D.Reading
      modifies this`demuxTask, this`closed
      ensures Valid() && State() == D.Step(old(State()), D.Ends)
    {
      demuxTask := D.Leaving;
      closed := true;
      assert Contents() == old(Contents());
    }

    method SignalAll()
      requires Valid()
      modifies set n | n in processQueues :: processQueues[n]
      ensures Valid() && Contents() == Signalled(old(Contents()), Places(processQueues).Values)
    {
      ghost var was := Contents();
      ghost var done: set<nat> := {};
      var names := processQueues.Keys;
      while names != {}
        invariant names <= processQueues.Keys
        invariant done == Ids(processQueues, names)
        invariant Contents() == Signalled(was, done)
        decreases names
      {
        var n :| n in names;
        assert Known(processQueues[n]) && forall m :: m in processQueues ==> Known(processQueues[m]);
        NotYet(processQueues, names, n);
        Push(processQueues[n], D.ConnectionLost);
        SignalledOneMore(was, done, processQueues[n].id);
        done := done + {processQueues[n].id};
        names := names - {n};
      }
      AllIds(processQueues);
    }

    /** Every registered queue is told that the connection is lost. */
    method SendSentinels()
      requires Valid() && demuxTask == D.Leaving
      modifies this`demuxTask, set n | n in processQueues :: processQueues[n]
      ensures Valid() && State() == D.Step(old(State()), D.Flush)
    {
      SignalAll();
      ghost var told := Contents();
      assert told == D.SendSentinels(old(State())).queues;
      demuxTask := D.Ended;
      assert Contents() == told;
    }

    /** `close` aborts the demultiplexer wherever it stands: no sentinel is sent. */
    method Close()
      requires Valid()
      modifies this`demuxTask, this`closed
      ensures Valid() && State() == D.Step(old(State()), D.Abort)
    {
      closed := true;
      demuxTask := D.Ended;
      assert Contents() == old(Contents());
    }
  }

  /** The side of the connection that sends commands; `calls` records how every call went. */
  class CommandPort {
    var lock: C.Turn
    var lines: seq<Line>
    var torn: bool
    var responses: seq<ResultMsg>
    var taken: nat
    ghost var calls: seq<C.Call>

    ghost predicate Valid()
      reads this
    {
      taken <= |responses| && (lock.Holding? ==> calls != [])
    }

    ghost function State(): C.State
      reads this
    {
      C.State(lock, calls, lines, torn, responses, taken)
    }

    constructor ()
      ensures Valid() && State() == C.FRESH
    {
      lock, lines, torn, responses, taken, calls := C.Free, [], false, [], 0, [];
    }

    /** A complete line leaves; it is spoiled if it continues a torn one. */
    method PutLine(msg: ClientMsg, splits: bool)
      modifies this`lines, this`torn
      ensures State() == C.Append(old(State()), msg, splits)
    {
      lines := lines + [if torn then Garbage(splits) else Parsed(msg)];
      torn := false;
    }

    /** The caller has the lock. */
    method Begin(cmd: CmdMsg)
      requires Valid() && lock.Free?
      modifies this`lock
      ensures Valid() && State() == C.Step(old(State()), C.Begin(cmd))
    {
      lock := C.Writing(cmd);
    }

    /** The command's line has been written whole; the caller waits for a response. */
    method WriteCommand(splits: bool)
      requires Valid() && lock.Writing?
      modifies this`lock, this`lines, this`torn, this`calls
      ensures Valid() && State() == C.Step(old(State()), C.Write(splits))
    {
      var cmd := lock.cmd;
      calls := calls + [C.Call(cmd, if torn then None else Some(|Commands(lines)|), C.Waiting)];
      PutLine(Cmd(cmd), splits);
      lock := C.Holding;
    }

    /** The write failed or the caller was cancelled in it. */
    method TearCommand(partly: bool)
      requires Valid() && lock.Writing?
      modifies this`lock, this`torn, this`calls
      ensures Valid() && State() == C.Step(old(State()), C.Tear(partly))
    {
      calls := calls + [C.Call(lock.cmd, None, C.Abandoned)];
      torn := torn || partly;
      lock := C.Free;
    }

    method SendStdin(name: Name, data: Json, splits: bool)
      requires Valid() && !lock.Writing?
      modifies this`lines, this`torn
      ensures Valid() && State() == C.Step(old(State()), C.WriteStdin(name, data, splits))
    {
      PutLine(Stdin(name, data), splits);
    }

    method Deliver(result: ResultMsg)
      requires Valid()
      modifies this`responses
      ensures Valid() && State() == C.Step(old(State()), C.Deliver(result))
    {
      responses := responses + [result];
    }

    /** The caller takes the next response and lets go of the lock. */
    method Take() returns (result: Option<ResultMsg>)
      requires Valid() && lock.Holding?
      modifies this`lock, this`taken, this`calls
      ensures Valid() && State() == C.Step(old(State()), C.Take)
      ensures result == if old(taken) < |responses| then Some(responses[old(taken)]) else None
    {
      result := None;
      if taken < |responses| {
        result := Some(responses[taken]);
        calls := calls[|calls| - 1 := calls[|calls| - 1].(outcome := C.Got(responses[taken]))];
        taken := taken + 1;
        lock := C.Free;
      }
    }

    /** The caller times out or is cancelled while it waits. */
    method GiveUp()
      requires Valid() && lock.Holding?
      modifies this`lock, this`calls
      ensures Valid() && State() == C.Step(old(State()), C.GiveUp)
    {
      calls := calls[|calls| - 1 := calls[|calls| - 1].(outcome := C.Abandoned)];
      lock := C.Free;
    }
  }
}
