/** Two nodes wired to each other, driven through their handlers and one gossip tick each. */
module Scenario {
  import opened Seqs
  import opened Json
  import opened Protocol
  import opened Properties
  import opened Broadcast

  /** The topology in which n1 and n2 are each other's only neighbour. */
  function PairTopology(): Body<int>
  {
    map["type" := Str("topology"),
        "topology" := Obj(map["n1" := StrArray(["n2"]), "n2" := StrArray(["n1"])])]
  }

  /** A `read` request with a message id the reply has to echo. */
  function ReadRequest(): Body<int>
  {
    map["type" := Str("read"), "msg_id" := Str("7")]
  }

  /** Installing the pair topology gives each node the other as its only neighbour. */
  lemma PairTopologyInstalled()
    ensures OnTopology<int>({}, Decoded(PairTopology()), "n1") == ({"n2"}, Reply(Ack("topology_ok")))
    ensures OnTopology<int>({}, Decoded(PairTopology()), "n2") == ({"n1"}, Reply(Ack("topology_ok")))
  {
    var t: map<string, Json<int>> := map["n1" := StrArray(["n2"]), "n2" := StrArray(["n1"])];
    assert Field(PairTopology(), "topology") == Obj(t);
    TopologyAddsListed({}, PairTopology(), t, "n1", ["n2"]);
    TopologyAddsListed({}, PairTopology(), t, "n2", ["n1"]);
    var s1: seq<string> := ["n2"];
    var s2: seq<string> := ["n1"];
    assert Elems(s1) == {"n2"} by { assert s1[0] in Elems(s1); }
    assert Elems(s2) == {"n1"} by { assert s2[0] in Elems(s2); }
    assert OnTopology<int>({}, Decoded(PairTopology()), "n1").0 == {"n2"};
    assert OnTopology<int>({}, Decoded(PairTopology()), "n2").0 == {"n1"};
  }

  /** A tick of a node whose one neighbour is `dest` and whose one value is `v` is one message to `dest` carrying [v]. */
  lemma SingleGossip(sends: seq<Outbound<int>>, src: string, dest: string, v: int)
    requires Enumerates(Destinations(sends), {dest})
    requires exists snapshot :: Enumerates(snapshot, {v}) &&
               forall i | 0 <= i < |sends| :: sends[i].body == GossipBody(snapshot, src)
    ensures sends == [Outbound(dest, GossipBody([v], src))]
  {
    SingletonEnumeration(Destinations(sends), dest);
    var snapshot :| Enumerates(snapshot, {v}) && forall i | 0 <= i < |sends| :: sends[i].body == GossipBody(snapshot, src);
    SingletonEnumeration(snapshot, v);
  }

  /** A read of a store holding only `v` lists [v]. */
  lemma SingleRead(out: Outcome<int>, request: Body<int>, v: int)
    requires exists snapshot :: Enumerates(snapshot, {v}) && out == Reply(ReadReply(request, snapshot))
    ensures out == Reply(ReadReply(request, [v]))
  {
    var snapshot :| Enumerates(snapshot, {v}) && out == Reply(ReadReply(request, snapshot));
    SingletonEnumeration(snapshot, v);
  }

  /** n1 and n2, both still without neighbours, install the pair topology. */
  method InstallPair(a: Node<int>, b: Node<int>)
    requires a.id == "n1" && b.id == "n2" && a.neighbours != b.neighbours
    requires a.neighbours.Contents() == {} && b.neighbours.Contents() == {}
    modifies a.neighbours, b.neighbours
    ensures a.neighbours.Contents() == {"n2"} && b.neighbours.Contents() == {"n1"}
  {
    PairTopologyInstalled();
    var ack := a.Topology(Decoded(PairTopology()));
    ack := b.Topology(Decoded(PairTopology()));
  }

  /** A client broadcasts `v` to `n`. */
  method ClientBroadcast(n: Node<int>, v: int)
    modifies n.store
    ensures n.store.Contents() == old(n.store.Contents()) + {v}
  {
    assert Field(BroadcastRequest(v).body, "message") == Num(v);
    var ack := n.Broadcast(BroadcastRequest(v));
  }

  /** One tick of `from`, whose only neighbour is `to` and whose only value is `v`, delivered to `to`. */
  method GossipOnce(from: Node<int>, to: Node<int>, v: int)
    requires from.neighbours.Contents() == {to.id} && from.store.Contents() == {v}
    modifies to.store
    ensures to.store.Contents() == old(to.store.Contents()) + {v}
  {
    var sends := from.Tick();
    SingleGossip(sends, from.id, to.id, v);
    GossipDelivered(to.store.Contents(), [v], {v}, from.id);
    var silent := to.Propagate(Decoded(sends[0].body));
  }

  /** A read of a node whose only value is `v`. */
  method ReadSingle(n: Node<int>, v: int) returns (out: Outcome<int>)
    requires n.store.Contents() == {v}
    ensures out == Reply(ReadReply(ReadRequest(), [v]))
  {
    out := n.Read(Decoded(ReadRequest()));
    SingleRead(out, ReadRequest(), v);
  }

  /**
   * n1 and n2 install the pair topology; a client broadcasts 42 to n1; n1 gossips once and n2
   * reads [42]. A second broadcast of 42, this time to n2, followed by a tick of n2, still leaves
   * n1 reading [42]: no duplicate.
   */
  method PairConverges() returns (readB: Outcome<int>, readA: Outcome<int>)
    ensures readB == Reply(ReadReply(ReadRequest(), [42]))
    ensures readA == Reply(ReadReply(ReadRequest(), [42]))
  {
    var a := new Node<int>("n1");
    var b := new Node<int>("n2");
    InstallPair(a, b);
    ClientBroadcast(a, 42);
    GossipOnce(a, b, 42);
    readB := ReadSingle(b, 42);
    ClientBroadcast(b, 42);
    GossipOnce(b, a, 42);
    readA := ReadSingle(a, 42);
  }
}
