/** What the handler steps and the gossip message guarantee together. */
module Properties {
  import opened Seqs
  import opened Json
  import opened Protocol

  /** The numbers listed in the array a slice of values is sent as are the slice's elements. */
  lemma ListedNumArray<V>(vs: seq<V>)
    ensures ListedNums(NumArray(vs).items) == Elems(vs)
  {
    var items := NumArray(vs).items;
    forall x | x in Elems(vs) ensures x in ListedNums(items) {
      var k :| 0 <= k < |vs| && vs[k] == x;
      assert items[k] == Num(x);
    }
  }

  /** The strings listed in the array a slice of strings is sent as are the slice's elements. */
  lemma ListedStrArray<V>(ss: seq<string>)
    ensures ListedStrings<V>(StrArray<V>(ss).items) == Elems(ss)
  {
    var items := StrArray<V>(ss).items;
    forall x | x in Elems(ss) ensures x in ListedStrings(items) {
      var k :| 0 <= k < |ss| && ss[k] == x;
      assert items[k] == Str(x);
    }
  }

  // ---------------------------------------------------------------------------------------
  // topology

  /** A well-formed own entry adds exactly the listed ids and is acknowledged. */
  lemma TopologyAddsListed<V>(known: set<string>, body: Body<V>, topology: map<string, Json<V>>,
                              self: string, ids: seq<string>)
    requires Field(body, "topology") == Obj(topology)
    requires Field(topology, self) == StrArray(ids)
    ensures OnTopology(known, Decoded(body), self) == (known + Elems(ids), Reply(Ack("topology_ok")))
  {
    ListedStrArray<V>(ids);
  }

  /** Only the own entry of the topology matters: entries for other nodes are ignored. */
  lemma TopologyIgnoresOtherNodes<V>(known: set<string>, t1: map<string, Json<V>>, t2: map<string, Json<V>>,
                                     b1: Body<V>, b2: Body<V>, self: string)
    requires Field(b1, "topology") == Obj(t1) && Field(b2, "topology") == Obj(t2)
    requires Field(t1, self) == Field(t2, self)
    ensures OnTopology(known, Decoded(b1), self) == OnTopology(known, Decoded(b2), self)
  {
  }

  /** The topology of two nodes where n1 lists n2 and n3, and n2 lists n1. */
  function ExampleTopology<V>(): Body<V>
  {
    map["type" := Str("topology"),
        "topology" := Obj(map["n1" := StrArray(["n2", "n3"]), "n2" := StrArray(["n1"])])]
  }

  /** Installing that topology gives node n1 the neighbours n2 and n3 and node n2 the neighbour n1; n3 has no entry and fails. */
  lemma TopologyScopingExample<V>()
    ensures OnTopology<V>({}, Decoded(ExampleTopology()), "n1") == ({"n2", "n3"}, Reply(Ack("topology_ok")))
    ensures OnTopology<V>({}, Decoded(ExampleTopology()), "n2") == ({"n1"}, Reply(Ack("topology_ok")))
    ensures OnTopology<V>({}, Decoded(ExampleTopology()), "n3") == ({}, Malformed)
  {
    var t: map<string, Json<V>> := map["n1" := StrArray(["n2", "n3"]), "n2" := StrArray(["n1"])];
    assert Field(ExampleTopology<V>(), "topology") == Obj(t);
    TopologyAddsListed<V>({}, ExampleTopology(), t, "n1", ["n2", "n3"]);
    TopologyAddsListed<V>({}, ExampleTopology(), t, "n2", ["n1"]);
    var s1: seq<string> := ["n2", "n3"];
    assert Elems(s1) == {"n2", "n3"} by {
      assert s1[0] in Elems(s1) && s1[1] in Elems(s1);
    }
    var s2: seq<string> := ["n1"];
    assert Elems(s2) == {"n1"} by {
      assert s2[0] in Elems(s2);
    }
    assert Field(t, "n3") == Null;
    assert OnTopology<V>({}, Decoded(ExampleTopology()), "n1").0 == {"n2", "n3"};
    assert OnTopology<V>({}, Decoded(ExampleTopology()), "n2").0 == {"n1"};
  }

  // ---------------------------------------------------------------------------------------
  // broadcast

  /** The request a client sends to broadcast `v`. */
  function BroadcastRequest<V>(v: V): Incoming<V>
  {
    Decoded(map["type" := Str("broadcast"), "message" := Num(v)])
  }

  /** The store after the client broadcasts `vs`, one request after the other. */
  function AfterBroadcasts<V>(known: set<V>, vs: seq<V>): set<V>
    decreases |vs|
  {
    if vs == [] then known else AfterBroadcasts(OnBroadcast(known, BroadcastRequest(vs[0])).0, vs[1..])
  }

  /**
   * Broadcasting `vs` stores exactly the values of `vs`, duplicates once: a later read lists each
   * broadcast value exactly once, whatever the order of the broadcasts.
   */
  lemma {:induction false} BroadcastsAccumulate<V>(known: set<V>, vs: seq<V>)
    ensures AfterBroadcasts(known, vs) == known + Elems(vs)
    decreases |vs|
  {
    if vs != [] {
      var next := OnBroadcast(known, BroadcastRequest(vs[0])).0;
      assert Field(BroadcastRequest(vs[0]).body, "message") == Num(vs[0]);
      assert next == known + {vs[0]};
      BroadcastsAccumulate(next, vs[1..]);
      assert vs == [vs[0]] + vs[1..];
      assert Elems(vs) == {vs[0]} + Elems(vs[1..]);
    }
  }

  /** Any broadcast request, whatever other fields it carries, delivered a second time changes nothing. */
  lemma BroadcastIdempotent<V>(known: set<V>, req: Incoming<V>)
    ensures OnBroadcast(OnBroadcast(known, req).0, req) == OnBroadcast(known, req)
  {
  }

  /** Broadcasting the same values in another order, or with repetitions, gives the same store. */
  lemma BroadcastOrderIrrelevant<V>(known: set<V>, vs: seq<V>, ws: seq<V>)
    requires Elems(vs) == Elems(ws)
    ensures AfterBroadcasts(known, vs) == AfterBroadcasts(known, ws)
  {
    BroadcastsAccumulate(known, vs);
    BroadcastsAccumulate(known, ws);
  }

  // ---------------------------------------------------------------------------------------
  // propagate

  /** A batch of values stores exactly those values and gets no reply. */
  lemma PropagateAddsAll<V>(known: set<V>, body: Body<V>, vs: seq<V>)
    requires Field(body, "messages") == NumArray(vs)
    ensures OnPropagate(known, Decoded(body)) == (known + Elems(vs), NoReply)
  {
    ListedNumArray(vs);
  }

  /** Two batches with the same values, in any order and with any repetitions, have the same effect. */
  lemma PropagateOrderIrrelevant<V>(known: set<V>, b1: Body<V>, vs: seq<V>, b2: Body<V>, ws: seq<V>)
    requires Field(b1, "messages") == NumArray(vs) && Field(b2, "messages") == NumArray(ws)
    requires Elems(vs) == Elems(ws)
    ensures OnPropagate(known, Decoded(b1)) == OnPropagate(known, Decoded(b2))
  {
    PropagateAddsAll(known, b1, vs);
    PropagateAddsAll(known, b2, ws);
  }

  /** Receiving the same propagate message again changes nothing, also when it was malformed. */
  lemma PropagateIdempotent<V>(known: set<V>, req: Incoming<V>)
    ensures OnPropagate(OnPropagate(known, req).0, req) == OnPropagate(known, req)
  {
  }

  /**
   * Delivering a gossip message carrying an enumeration of the sender's store leaves the receiver
   * with its old values plus all of the sender's, and no reply.
   */
  lemma GossipDelivered<V>(known: set<V>, snapshot: seq<V>, sent: set<V>, src: string)
    requires Enumerates(snapshot, sent)
    ensures OnPropagate(known, Decoded(GossipBody(snapshot, src))) == (known + sent, NoReply)
    ensures sent <= OnPropagate(known, Decoded(GossipBody(snapshot, src))).0
  {
    PropagateAddsAll(known, GossipBody(snapshot, src), snapshot);
  }

  /** Client broadcasts and peer batches commute: the store does not depend on their interleaving. */
  lemma ValueHandlersCommute<V>(known: set<V>, broadcast: Incoming<V>, propagate: Incoming<V>)
    ensures OnPropagate(OnBroadcast(known, broadcast).0, propagate).0
         == OnBroadcast(OnPropagate(known, propagate).0, broadcast).0
  {
  }
}
