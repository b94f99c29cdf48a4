/**
 * One node of the broadcast protocol: its own id, its value store and its neighbour store, the
 * four message handlers, and one tick of the periodic gossip loop. Replies and sends are returned
 * as values instead of being handed to the transport.
 */
module Broadcast {
  import opened Seqs
  import opened Json
  import opened Stores
  import opened Protocol

  class Node<V(==)> {
    /** This node's id, fixed by the transport at start-up. */
    const id: string
    const store: MessagesStorage<V>
    const neighbours: NeighbourStore

    /** A node starts with no values and no neighbours. */
    constructor (id: string)
      ensures this.id == id && fresh(store) && fresh(neighbours)
      ensures store.Contents() == {} && neighbours.Contents() == {}
    {
      this.id := id;
      store := new MessagesStorage();
      neighbours := new NeighbourStore();
    }

    /** The `topology` handler: adds each neighbour listed under this node's id, one at a time. */
    method Topology(req: Incoming<V>) returns (out: Outcome<V>)
      modifies neighbours
      ensures (neighbours.Contents(), out) == OnTopology(old(neighbours.Contents()), req, id)
    {
      if req.Undecodable? {
        return Malformed;
      }
      var topology := Field(req.body, "topology");
      if !topology.Obj? {
        return Malformed;
      }
      var entry := Field(topology.fields, id);
      if !entry.Arr? {
        return Malformed;
      }
      var items := entry.items;
      ghost var ids := StringsPrefix(items);
      for i := 0 to |items|
        invariant i <= |ids|
        invariant neighbours.Contents() == old(neighbours.Contents()) + Elems(ids[..i])
      {
        if !items[i].Str? {
          assert ids[..i] == ids;
          return Malformed;
        }
        assert ids[..i + 1] == ids[..i] + [items[i].s];
        neighbours.Add(items[i].s);
      }
      assert ids[..|items|] == ids;
      return Reply(Ack("topology_ok"));
    }

    /** The `broadcast` handler: stores the value and acknowledges it. */
    method Broadcast(req: Incoming<V>) returns (out: Outcome<V>)
      modifies store
      ensures (store.Contents(), out) == OnBroadcast(old(store.Contents()), req)
    {
      if req.Undecodable? {
        return Malformed;
      }
      var message := Field(req.body, "message");
      if !message.Num? {
        return Malformed;
      }
      store.AddMessage(message.n);
      return Reply(Ack("broadcast_ok"));
    }

    /** The `propagate` handler: stores each value of the batch, one at a time, and replies nothing. */
    method Propagate(req: Incoming<V>) returns (out: Outcome<V>)
      modifies store
      ensures (store.Contents(), out) == OnPropagate(old(store.Contents()), req)
    {
      if req.Undecodable? {
        return Malformed;
      }
      var messages := Field(req.body, "messages");
      if !messages.Arr? {
        return Malformed;
      }
      var items := messages.items;
      ghost var vs := NumsPrefix(items);
      for i := 0 to |items|
        invariant i <= |vs|
        invariant store.Contents() == old(store.Contents()) + Elems(vs[..i])
      {
        if !items[i].Num? {
          assert vs[..i] == vs;
          return Malformed;
        }
        assert vs[..i + 1] == vs[..i] + [items[i].n];
        store.AddMessage(items[i].n);
      }
      assert vs[..|items|] == vs;
      return NoReply;
    }

    /** The `read` handler: echoes the request with `type` set to `read_ok` and a snapshot under `messages`. */
    method Read(req: Incoming<V>) returns (out: Outcome<V>)
      ensures req.Undecodable? ==> out == Malformed
      ensures req.Decoded? ==>
                exists snapshot :: Enumerates(snapshot, store.Contents()) && out == Reply(ReadReply(req.body, snapshot))
    {
      if req.Undecodable? {
        return Malformed;
      }
      var snapshot := store.GetMessages();
      out := Reply(req.body["type" := Str("read_ok")]["messages" := NumArray(snapshot)]);
      assert out == Reply(ReadReply(req.body, snapshot));
    }

    /**
     * One tick of the gossip loop: one snapshot of the store, sent to every neighbour once, each
     * message stamped with this node's id. Neither store changes.
     */
    method Tick() returns (sends: seq<Outbound<V>>)
      ensures Enumerates(Destinations(sends), neighbours.Contents())
      ensures |sends| == |neighbours.Contents()|
      ensures exists snapshot :: Enumerates(snapshot, store.Contents()) &&
                forall i | 0 <= i < |sends| :: sends[i].body == GossipBody(snapshot, id)
    {
      var msgs := store.GetMessages();
      var neis := neighbours.List();
      sends := [];
      for i := 0 to |neis|
        invariant |sends| == i
        invariant forall k | 0 <= k < i :: sends[k] == Outbound(neis[k], GossipBody(msgs, id))
      {
        sends := sends + [Outbound(neis[i], GossipBody(msgs, id))];
      }
      assert Destinations(sends) == neis;
    }
  }

  /** The destinations of a batch of sends, in order. */
  function Destinations<V>(sends: seq<Outbound<V>>): seq<string>
  {
    seq(|sends|, i requires 0 <= i < |sends| => sends[i].dest)
  }
}
