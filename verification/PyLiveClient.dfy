/**
 The Python client as it is written: a connection object whose demultiplexer puts messages into the
 queues it finds in a dictionary. Each method is proved to do one step of `PyClient`.
 */
module PyLiveClient {
  import opened ClientQueues
  import opened Protocol
  import D = Demux
  import P = PyClient

  class ProcmuxConnection {
    var processQueues: map<Name, Queue>
    var cmdResponse: seq<ResultMsg>
    var demuxTask: P.Task
    var cancelled: bool
    var closed: bool
    var created: nat
    ghost var all: seq<Queue>

    ghost predicate Valid()
      reads this
    {
      && created == |all|
      && (forall i :: 0 <= i < |all| ==> all[i].id == i)
      && (forall n :: n in processQueues ==> Known(processQueues[n]))
      && (forall n, m :: n in processQueues && m in processQueues && n != m ==> processQueues[n] != processQueues[m])
    }

    ghost predicate Known(q: Queue)
      reads this
    {
      q.id < |all| && all[q.id] == q
    }

    ghost function Contents(): seq<seq<D.QueueItem>>
      reads this, all
    {
      seq(|all|, i requires 0 <= i < |all| reads this, all => all[i].items)
    }

    ghost function State(): P.State
      reads this, all
    {
      P.State(Places(processQueues), Contents(), cmdResponse, demuxTask, cancelled, closed)
    }

    constructor ()
      ensures Valid() && State() == P.FRESH
    {
      processQueues, cmdResponse, demuxTask, cancelled, closed := map[], [], P.Created, false, false;
      created, all := 0, [];
    }

    method RegisterProcess(name: Name) returns (q: Queue)
      requires Valid()
      modifies this`processQueues, this`created, this`all
      ensures Valid() && fresh(q) && name in processQueues && processQueues[name] == q
      ensures State() == P.Step(old(State()), P.Register(name))
    {
      q := new Queue(created);
      processQueues := processQueues[name := q];
      all := all + [q];
      created := created + 1;
      assert Places(processQueues) == old(Places(processQueues))[name := |old(all)|];
      assert Contents() == old(Contents()) + [[]];
    }

    method UnregisterProcess(name: Name)
      requires Valid()
      modifies this`processQueues
      ensures Valid()
      ensures State() == P.Step(old(State()), P.Unregister(name))
    {
      processQueues := processQueues - {name};
      assert Places(processQueues) == old(Places(processQueues)) - {name};
      assert Contents() == old(Contents());
    }

    method Push(q: Queue, item: D.QueueItem)
      requires Valid() && Known(q)
      modifies q`items
      ensures State() == old(State()).(queues := old(Contents())[q.id := old(q.items) + [item]])
    {
      q.Put(item);
      assert Contents() == old(Contents())[q.id := q.items];
    }

    /** One line of `_demux_loop` that parsed. */
    method Receive(msg: ServerMsg)
      requires Valid() && demuxTask == P.Looping && !cancelled
      modifies this`cmdResponse, set n | n in processQueues :: processQueues[n]
      ensures Valid() && State() == P.Step(old(State()), P.Arrive(msg))
    {
      match msg {
        case Result(result) =>
          cmdResponse := cmdResponse + [result];
          assert Contents() == old(Contents());
        case _ =>
          if NameOf(msg) in processQueues {
            Push(processQueues[NameOf(msg)], D.Item(msg));
          }
      }
    }

    /** The loop of the `finally` block: a sentinel for every registered queue. */
    method SignalAll()
      requires Valid()
      modifies set n | n in processQueues :: processQueues[n]
      ensures Valid() && Contents() == Signalled(old(Contents()), Places(processQueues).Values)
    {
      ghost var was := Contents();
      ghost var done: set<nat> := {};
      var names := processQueues.Keys;
      while names != {}
        invariant names <= processQueues.Keys
        invariant done == Ids(processQueues, names)
        invariant Contents() == Signalled(was, done)
        decreases names
      {
        var n :| n in names;
        assert Known(processQueues[n]) && forall m :: m in processQueues ==> Known(processQueues[m]);
        NotYet(processQueues, names, n);
        Push(processQueues[n], D.ConnectionLost);
        SignalledOneMore(was, done, processQueues[n].id);
        done := done + {processQueues[n].id};
        names := names - {n};
      }
      AllIds(processQueues);
    }

    /** The `finally` block of `_demux_loop`. */
    method Finally()
      requires Valid()
      modifies this`demuxTask, this`closed, set n | n in processQueues :: processQueues[n]
      ensures Valid() && State() == P.Finally(old(State()))
    {
      closed := true;
      assert Contents() == old(Contents());
      SignalAll();
      ghost var told := Contents();
      assert told == P.Finally(old(State())).queues;
      demuxTask := P.Finished;
      assert Contents() == told;
    }

    /** End of file, or an exception that leaves the loop. */
    method StreamEnds()
      requires Valid() && demuxTask == P.Looping && !cancelled
      modifies this`demuxTask, this`closed, set n | n in processQueues :: processQueues[n]
      ensures Valid() && State() == P.Step(old(State()), P.Ends)
    {
      Finally();
    }

    /** The first part of `close`, up to the wait for the demultiplexer. */
    method Close()
      requires Valid()
      modifies this`cancelled, this`closed
      ensures Valid() && State() == P.Step(old(State()), P.Close)
    {
      closed := true;
      cancelled := true;
      assert Contents() == old(Contents());
    }

    /** The demultiplexer notices that it was cancelled. */
    method TaskCancelled()
      requires Valid() && cancelled
      modifies this`demuxTask, this`closed, set n | n in processQueues :: processQueues[n]
      ensures Valid() && State() == P.Step(old(State()), P.Cancelled)
    {
      match demuxTask {
        case Created => demuxTask := P.Finished; assert Contents() == old(Contents());
        case Looping => Finally();
        case Finished =>
      }
    }
  }
}
