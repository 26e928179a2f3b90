/**
 The server object: `connections_` and the counter of src/net/tcp_server.cpp, changed in place, and the
 functors it hands to the loops.  `Held` is what the step system calls `connections`.
 */
module TcpServerObjects {
  import opened Decimal
  import opened TcpServers

  /** The key of a connection in `connections_`. */
  function ConnName(server: string, c: ConnId): (name: string) {
    server + "#" + Digits(c)
  }

  /** So the map keyed by name is the set of ids the step system works with. */
  lemma NamesAreDistinct(server: string, c: ConnId, d: ConnId)
    requires ConnName(server, c) == ConnName(server, d)
    ensures c == d
  {
    var n := |server + "#"|;
    assert ConnName(server, c)[n..] == Digits(c) && ConnName(server, d)[n..] == Digits(d);
    DigitsInvert(c);
    DigitsInvert(d);
  }

  class TcpServer {
    const name: string
    const base: LoopId
    var nextConnId: nat
    var connections: map<string, ConnId>
    var posted: seq<(LoopId, Functor)>   // what this object has handed to the loops, in order

    ghost predicate Valid()
      reads this
    {
      forall key {:trigger connections[key]} :: key in connections ==>
        key == ConnName(name, connections[key]) && connections[key] < nextConnId
    }

    /** `connections_` as the step system sees it. */
    ghost function Held(): (ids: set<ConnId>)
      reads this
    {
      connections.Values
    }

    constructor (name: string, base: LoopId)
      ensures Valid() && Held() == {} && nextConnId == 1 && posted == []
    {
      this.name, this.base := name, base;
      nextConnId, connections, posted := 1, map[], [];
    }

    /** new_connection up to the connection's own first step, which is run here or posted. */
    method NewConnection(io: LoopId) returns (c: ConnId)
      requires Valid()
      modifies this
      ensures Valid() && c == old(nextConnId) && nextConnId == c + 1
      ensures c !in old(Held()) && Held() == old(Held()) + {c}
      ensures posted == if io == base then old(posted) else old(posted) + [(io, DoEstablish(c))]
    {
      c := nextConnId;
      nextConnId := nextConnId + 1;
      var key := ConnName(name, c);
      forall k | k in connections
        ensures k != key
      {
        if k == key {
          NamesAreDistinct(name, c, connections[k]);
        }
      }
      ghost var before := connections;
      connections := connections[key := c];
      assert connections[key] == c;
      forall d | d in before.Values
        ensures d in connections.Values
      {
        var k :| k in before && before[k] == d;
        assert connections[k] == d;
      }
      if io != base {
        posted := posted + [(io, DoEstablish(c))];
      }
    }

    /** remove_connection: the close callback, on the connection's loop. */
    method RemoveConnection(c: ConnId, io: LoopId)
      requires Valid() && (io == base ==> c in Held())
      modifies this
      ensures Valid() && nextConnId == old(nextConnId)
      ensures Held() == if io == base then old(Held()) - {c} else old(Held())
      ensures posted == old(posted) + [if io == base then (io, DoDestroy(c)) else (base, DoRemove(c))]
    {
      if io == base {
        RemoveConnectionInLoop(c, io);
      } else {
        posted := posted + [(base, DoRemove(c))];
      }
    }

    /** remove_connection_in_loop: exactly one entry goes. */
    method RemoveConnectionInLoop(c: ConnId, io: LoopId)
      requires Valid() && c in Held()
      modifies this
      ensures Valid() && nextConnId == old(nextConnId)
      ensures Held() == old(Held()) - {c} && |connections| + 1 == |old(connections)|
      ensures posted == old(posted) + [(io, DoDestroy(c))]
    {
      ghost var before := connections;
      var key := ConnName(name, c);
      ghost var k :| k in connections && connections[k] == c;
      assert k == key;
      connections := connections - {key};
      assert before.Keys == connections.Keys + {key};
      forall d | d in before.Values && d != c
        ensures d in connections.Values
      {
        var j :| j in before && before[j] == d;
        assert j in connections && connections[j] == d;
      }
      forall d | d in connections.Values
        ensures d in before.Values && d != c
      {
        var j :| j in connections && connections[j] == d;
        assert before[j] == d;
      }
      posted := posted + [(io, DoDestroy(c))];
    }
  }
}
