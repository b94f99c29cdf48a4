/**
 * The two process-wide stores of a node. Each Go method runs under the store's mutex,
 * so each is modelled as one atomic sequential method.
 */
module Stores {
  import opened Seqs

  /** The deduplicated, insert-only set of every value the node has seen. */
  class MessagesStorage<V(==)> {
    /** Used as a set: a value is stored when it is a key; the flag is always `true` and never read. */
    var messages: map<V, bool>

    constructor ()
      ensures messages == map[]
    {
      messages := map[];
    }

    /** The stored values. */
    function Contents(): set<V>
      reads this
    {
      messages.Keys
    }

    /** Idempotent insert: afterwards `msg` is stored, and nothing else has changed. */
    method AddMessage(msg: V)
      modifies this
      ensures messages == old(messages)[msg := true]
      ensures Contents() == old(Contents()) + {msg}
      ensures msg in old(Contents()) ==> Contents() == old(Contents())
    {
      messages := messages[msg := true];
    }

    /** A fresh snapshot: every stored value exactly once, in the map's (unspecified) iteration order. */
    method GetMessages() returns (res: seq<V>)
      ensures Enumerates(res, Contents())
      ensures |res| == |Contents()|
    {
      res := [];
      var rest := messages.Keys;
      while rest != {}
        invariant rest <= messages.Keys
        invariant Distinct(res)
        invariant Elems(res) !! rest
        invariant Elems(res) + rest == messages.Keys
        invariant |res| + |rest| == |messages.Keys|
        decreases rest
      {
        var msg :| msg in rest;
        DistinctSnoc(res, msg);
        res := res + [msg];
        rest := rest - {msg};
      }
    }
  }

  /** The set of peer ids this node gossips to. */
  class NeighbourStore {
    /** Used as a set: a peer is known when it is a key; the flag is always `true` and never read. */
    var neighbours: map<string, bool>

    constructor ()
      ensures neighbours == map[]
    {
      neighbours := map[];
    }

    /** The known neighbour ids. */
    function Contents(): set<string>
      reads this
    {
      neighbours.Keys
    }

    /** Idempotent insert: afterwards `nei` is known, and nothing else has changed. */
    method Add(nei: string)
      modifies this
      ensures neighbours == old(neighbours)[nei := true]
      ensures Contents() == old(Contents()) + {nei}
      ensures nei in old(Contents()) ==> Contents() == old(Contents())
    {
      neighbours := neighbours[nei := true];
    }

    /** Every known neighbour exactly once, in the map's (unspecified) iteration order. */
    method List() returns (res: seq<string>)
      ensures Enumerates(res, Contents())
      ensures |res| == |Contents()|
    {
      res := [];
      var rest := neighbours.Keys;
      while rest != {}
        invariant rest <= neighbours.Keys
        invariant Distinct(res)
        invariant Elems(res) !! rest
        invariant Elems(res) + rest == neighbours.Keys
        invariant |res| + |rest| == |neighbours.Keys|
        decreases rest
      {
        var k :| k in rest;
        DistinctSnoc(res, k);
        res := res + [k];
        rest := rest - {k};
      }
    }
  }
}
