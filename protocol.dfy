/**
 * The four message handlers of a node and its gossip message, as pure steps: each takes the
 * store contents before the call and the decoded request, and gives the contents after it
 * together with what the handler answers.
 */
module Protocol {
  import opened Json
  import opened Seqs

  /** What a handler does with the request: reply with a body, stay silent, or fail. */
  datatype Outcome<V> =
    | Reply(body: Body<V>)
    | NoReply
      /** The request did not have the expected shape (a failed Go type assertion or decode error). */
    | Malformed

  /** One message the node sends on its own initiative. */
  datatype Outbound<V> = Outbound(dest: string, body: Body<V>)

  /** An acknowledgement carrying only its type tag. */
  function Ack<V>(tag: string): Body<V>
  {
    map["type" := Str(tag)]
  }

  /** The body of a gossip message: a snapshot of the sender's values, stamped with the sender's id. */
  function GossipBody<V>(snapshot: seq<V>, src: string): Body<V>
  {
    map["type" := Str("propagate"), "messages" := NumArray(snapshot), "src" := Str(src)]
  }

  /** The reply to `read`: the request body echoed, with `type` and `messages` overwritten. */
  function ReadReply<V>(request: Body<V>, snapshot: seq<V>): (reply: Body<V>)
    ensures reply.Keys == request.Keys + {"type", "messages"}
    ensures reply["type"] == Str("read_ok")
    ensures reply["messages"] == NumArray(snapshot)
    ensures forall k | k in request && k != "type" && k != "messages" :: reply[k] == request[k]
  {
    request["type" := Str("read_ok")]["messages" := NumArray(snapshot)]
  }

  // ---------------------------------------------------------------------------------------
  // Loops over decoded arrays that assert each element's type: they apply every element up to
  // the first one of the wrong type, where the assertion fails.

  /** The strings at the front of `items`, up to the first element that is not a string. */
  function StringsPrefix<V>(items: seq<Json<V>>): (ids: seq<string>)
    ensures |ids| <= |items|
    ensures forall i | 0 <= i < |ids| :: items[i] == Str(ids[i])
    ensures |ids| < |items| ==> !items[|ids|].Str?
  {
    if items == [] || !items[0].Str? then [] else [items[0].s] + StringsPrefix(items[1..])
  }

  /** The numbers at the front of `items`, up to the first element that is not a number. */
  function NumsPrefix<V>(items: seq<Json<V>>): (vs: seq<V>)
    ensures |vs| <= |items|
    ensures forall i | 0 <= i < |vs| :: items[i] == Num(vs[i])
    ensures |vs| < |items| ==> !items[|vs|].Num?
  {
    if items == [] || !items[0].Num? then [] else [items[0].n] + NumsPrefix(items[1..])
  }

  /** Every string listed in `items`, wherever it stands. */
  function ListedStrings<V>(items: seq<Json<V>>): set<string>
  {
    set i | 0 <= i < |items| && items[i].Str? :: items[i].s
  }

  /** Every number listed in `items`, wherever it stands. */
  function ListedNums<V>(items: seq<Json<V>>): set<V>
  {
    set i | 0 <= i < |items| && items[i].Num? :: items[i].n
  }

  /** The strings a topology loop adds are listed strings, and all of them when none is of another type. */
  lemma StringsPrefixListed<V>(items: seq<Json<V>>)
    ensures Elems(StringsPrefix(items)) <= ListedStrings(items)
    ensures |StringsPrefix(items)| == |items| ==> Elems(StringsPrefix(items)) == ListedStrings(items)
  {
  }

  /** The values a propagate loop adds are listed values, and all of them when none is of another type. */
  lemma NumsPrefixListed<V>(items: seq<Json<V>>)
    ensures Elems(NumsPrefix(items)) <= ListedNums(items)
    ensures |NumsPrefix(items)| == |items| ==> Elems(NumsPrefix(items)) == ListedNums(items)
  {
  }

  // ---------------------------------------------------------------------------------------
  // topology

  /** The array listed under this node's own id in the `topology` object, if the body has one. */
  function OwnTopologyEntry<V>(req: Incoming<V>, self: string): Option<seq<Json<V>>>
  {
    match req
    case Undecodable => None
    case Decoded(body) =>
      match Field(body, "topology")
      case Obj(topology) => (match Field(topology, self) case Arr(items) => Some(items) case _ => None)
      case _ => None
  }

  /**
   * `topology`: add every neighbour listed under the node's own id; entries of other nodes are
   * ignored. Without an own entry nothing is added; an element that is not a string fails
   * the request after the strings before it were added.
   */
  function OnTopology<V>(known: set<string>, req: Incoming<V>, self: string): (r: (set<string>, Outcome<V>))
    ensures OwnTopologyEntry(req, self).None? ==> r == (known, Malformed)
    ensures OwnTopologyEntry(req, self).Some? ==>
              known <= r.0 <= known + ListedStrings(OwnTopologyEntry(req, self).value)
    ensures r.1 == Reply(Ack("topology_ok")) || r.1 == Malformed
    ensures r.1.Reply? <==>
              OwnTopologyEntry(req, self).Some? &&
              forall i | 0 <= i < |OwnTopologyEntry(req, self).value| :: OwnTopologyEntry(req, self).value[i].Str?
    ensures r.1.Reply? ==> r.0 == known + ListedStrings(OwnTopologyEntry(req, self).value)
  {
    match OwnTopologyEntry(req, self)
    case None => (known, Malformed)
    case Some(items) =>
      var ids := StringsPrefix(items);
      StringsPrefixListed(items);
      if |ids| == |items| then
        (known + Elems(ids), Reply(Ack("topology_ok")))
      else
        (known + Elems(ids), Malformed)
  }

  // ---------------------------------------------------------------------------------------
  // broadcast

  /** `broadcast`: store the single value under `message` and acknowledge it. */
  function OnBroadcast<V>(known: set<V>, req: Incoming<V>): (r: (set<V>, Outcome<V>))
    ensures known <= r.0 && |r.0 - known| <= 1
    ensures r.1 == Reply(Ack("broadcast_ok")) || r.1 == Malformed
    ensures r.1.Reply? <==> req.Decoded? && Field(req.body, "message").Num?
    ensures r.1.Reply? ==> r.0 == known + {Field(req.body, "message").n}
    ensures r.1.Malformed? ==> r.0 == known
  {
    match req
    case Undecodable => (known, Malformed)
    case Decoded(body) =>
      match Field(body, "message")
      case Num(v) =>
        (known + {v}, Reply(Ack("broadcast_ok")))
      case _ => (known, Malformed)
  }

  // ---------------------------------------------------------------------------------------
  // propagate

  /** The array under `messages`, if the body has one. */
  function PropagatedItems<V>(req: Incoming<V>): Option<seq<Json<V>>>
  {
    match req
    case Undecodable => None
    case Decoded(body) => (match Field(body, "messages") case Arr(items) => Some(items) case _ => None)
  }

  /**
   * `propagate`: store every value of the batch and send nothing back. An element that is not a
   * number fails the request after the values before it were stored.
   */
  function OnPropagate<V>(known: set<V>, req: Incoming<V>): (r: (set<V>, Outcome<V>))
    ensures PropagatedItems(req).None? ==> r == (known, Malformed)
    ensures PropagatedItems(req).Some? ==> known <= r.0 <= known + ListedNums(PropagatedItems(req).value)
    ensures r.1 == NoReply || r.1 == Malformed
    ensures r.1.NoReply? <==>
              PropagatedItems(req).Some? &&
              forall i | 0 <= i < |PropagatedItems(req).value| :: PropagatedItems(req).value[i].Num?
    ensures r.1.NoReply? ==> r.0 == known + ListedNums(PropagatedItems(req).value)
  {
    match PropagatedItems(req)
    case None => (known, Malformed)
    case Some(items) =>
      var vs := NumsPrefix(items);
      NumsPrefixListed(items);
      if |vs| == |items| then
        (known + Elems(vs), NoReply)
      else
        (known + Elems(vs), Malformed)
  }
}
