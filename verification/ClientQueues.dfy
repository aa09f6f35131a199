/** The queues both clients hand out, and what telling them of a lost connection does. */
module ClientQueues {
  import opened Protocol
  import D = Demux

  /** The sending side of an unbounded queue; `items` is everything ever put into it. */
  class Queue {
    const id: nat
    var items: seq<D.QueueItem>

    constructor (id: nat)
      ensures this.id == id && items == []
    {
      this.id, items := id, [];
    }

    method Put(item: D.QueueItem)
      modifies this`items
      ensures items == old(items) + [item]
    {
      items := items + [item];
    }
  }

  /** The queues when the sentinel has been put into those in `done`. */
  ghost function Signalled(queues: seq<seq<D.QueueItem>>, done: set<nat>): seq<seq<D.QueueItem>> {
    seq(|queues|, q requires 0 <= q < |queues| => if q in done then queues[q] + [D.ConnectionLost] else queues[q])
  }

  lemma SignalledOneMore(queues: seq<seq<D.QueueItem>>, done: set<nat>, q: nat)
    requires q < |queues| && q !in done
    ensures Signalled(queues, done)[q := Signalled(queues, done)[q] + [D.ConnectionLost]] == Signalled(queues, done + {q})
  {
  }

  /** Which queue each name is registered to. */
  ghost function Places(table: map<Name, Queue>): map<Name, nat> {
    map n | n in table :: table[n].id
  }

  /** The queues whose names are not among `names`. */
  ghost function Ids(table: map<Name, Queue>, names: set<Name>): set<nat> {
    set n | n in table && n !in names :: table[n].id
  }

  lemma AllIds(table: map<Name, Queue>)
    ensures Ids(table, {}) == Places(table).Values
  {
    forall v | v in Places(table).Values ensures v in Ids(table, {}) {
      var n :| n in Places(table) && Places(table)[n] == v;
    }
    forall v | v in Ids(table, {}) ensures v in Places(table).Values {
      var n :| n in table && table[n].id == v;
      assert Places(table)[n] == v;
    }
  }

  lemma NotYet(table: map<Name, Queue>, names: set<Name>, n: Name)
    requires n in names && n in table
    requires forall m :: m in table && m != n ==> table[m].id != table[n].id
    ensures table[n].id !in Ids(table, names)
  {
  }
}
