# Broadcast node: a Dafny model

This project models one node of a full-state push-gossip broadcast protocol. It is the
`broadcast` program of a set of Maelstrom "Gossip Glomers" solutions.

A node keeps two growing sets. The first is its **message store**: every distinct value it has
ever seen. The second is its **neighbour store**: the peers it gossips to. Four handlers act on
them:

- `topology` adds the neighbours listed under the node's own id.
- `broadcast` stores one value and acknowledges it.
- `propagate` stores a batch of values sent by a peer and replies nothing.
- `read` echoes the request, with `type` set to `read_ok` and `messages` set to a snapshot of the store.

A periodic loop takes one snapshot per tick. It sends that snapshot, stamped with the node's
id, to every neighbour.

Layout:

- `seqs.dfy` (module `Seqs`): `Enumerates(s, xs)`. It says that a sequence lists every element of
  a set exactly once. This is what ranging over a Go map and appending to a slice produces.
- `json.dfy` (module `Json`): decoded message bodies. The type is `Json<V>`, whose numbers carry
  the opaque value type `V`. This module also holds Go's missing-key-reads-as-`nil` lookup.
- `stores.dfy` (module `Stores`): the classes `MessagesStorage` and `NeighbourStore`.
  Each has a `map<_, bool>` field that it updates in place. Each has a snapshot method that
  builds a sequence in a loop.
- `protocol.dfy` (module `Protocol`): each handler as a pure step from the old store contents and
  the request to the new contents and an `Outcome`. `Outcome` is one of `Reply(body)`,
  `NoReply` or `Malformed`. The module also holds the gossip and reply bodies.
- `node.dfy` (module `Broadcast`): the class `Node`. It holds the id and both stores. Its handler
  methods loop over the decoded arrays exactly as the Go handlers do, and each is proved equal
  to its pure step. `Tick` is one iteration of the gossip loop.
- `properties.dfy` (module `Properties`): lemmas relating the steps. They cover topology
  scoping, order independence, idempotence and delivery of a gossip message.
- `scenario.dfy` (module `Scenario`): two nodes n1 and n2 that are each other's neighbours. A
  client broadcasts 42 to n1, and the scenario is proved to end with both nodes reading `[42]`.

In `topology` and `propagate`, the elements before the first wrongly-typed one have already
been added when the assertion fails (`StringsPrefix`, `NumsPrefix`).

The `read` reply echoes every field of the request, as broadcast/main.go:121-123 does, with
only `type` and `messages` overwritten.

A failed type assertion panics in Go, which ends the process; the model instead reports
`Malformed`, keeps what was already added, and lets the node continue.

## Model

| member | source | states |
|---|---|---|
| `Stores.MessagesStorage.constructor` | broadcast/main.go:56 | the store starts empty |
| `Stores.MessagesStorage.AddMessage` | broadcast/main.go:17-21 | the map gains `msg := true` and nothing else changes; the stored set grows by exactly `msg`; re-adding a stored value changes nothing (idempotence) |
| `Stores.MessagesStorage.GetMessages` | broadcast/main.go:23-31 | the snapshot lists every stored value exactly once and nothing else, its length is the number of stored values, and the store is not modified |
| `Stores.NeighbourStore.constructor` | broadcast/main.go:57 | the neighbour store starts empty |
| `Stores.NeighbourStore.Add` | broadcast/main.go:38-42 | the map gains `nei := true` and nothing else changes; the neighbour set grows by exactly `nei`; re-adding is a no-op |
| `Stores.NeighbourStore.List` | broadcast/main.go:44-52 | lists every known neighbour exactly once and nothing else, length equal to the set size, no mutation |
| `Seqs.EnumerationSize` | broadcast/main.go:26-29 | a duplicate-free listing of a set has the set's size, so a snapshot is exactly as long as the store |
| `Protocol.StringsPrefix` | broadcast/main.go:82-84 | the ids the topology loop adds before an element that is not a string stops it: every earlier element is that string, and the element it stops at is not a string |
| `Protocol.NumsPrefix` | broadcast/main.go:108-110 | the values the propagate loop adds before an element that is not a number stops it, characterised the same way |
| `Protocol.StringsPrefixListed` | broadcast/main.go:82-84 | the ids the topology loop adds are all listed in the entry, and are every listed id when no element is of another type |
| `Protocol.NumsPrefixListed` | broadcast/main.go:108-110 | the values the propagate loop adds are all listed in the batch, and are every listed value when no element is of another type |
| `Protocol.OnTopology` | broadcast/main.go:81-86 | with no array under the own id (no `topology` object, missing entry, or not a list) nothing changes and the request fails; otherwise the neighbours only grow, and only by ids listed under the own id; the request is acknowledged with `topology_ok` exactly when every element of the entry is a string, and then exactly the listed ids are added |
| `Protocol.OnBroadcast` | broadcast/main.go:95-98 | `broadcast_ok` is replied exactly when `message` is a number, and then the store grows by exactly that number and nothing else; otherwise the request fails and nothing changes |
| `Protocol.OnPropagate` | broadcast/main.go:107-112 | with no array under `messages` nothing changes and the request fails; otherwise the store only grows, by values listed in the batch; the handler never replies; it succeeds silently exactly when every element is a number, and then exactly the listed values are added |
| `Protocol.ReadReply` | broadcast/main.go:121-123 | the `read` reply has the request's keys plus `type` and `messages`, `type` is `read_ok`, `messages` is the snapshot, and every other request field is echoed unchanged |
| `Broadcast.Node.constructor` | broadcast/main.go:55-57 | a node starts with its id, an empty store and no neighbours |
| `Broadcast.Node.Topology` | broadcast/main.go:75-87 | the handler's loop of `add` calls leaves the neighbour set and outcome given by `OnTopology`; the message store is untouched |
| `Broadcast.Node.Broadcast` | broadcast/main.go:89-99 | the store and outcome are those of `OnBroadcast`; the neighbours are untouched |
| `Broadcast.Node.Propagate` | broadcast/main.go:101-113 | the handler's loop of `addMessage` calls leaves the store and outcome given by `OnPropagate`; the neighbours are untouched |
| `Broadcast.Node.Read` | broadcast/main.go:115-124 | an undecodable body fails; otherwise the reply is the echoed body with `type = read_ok` and `messages` an enumeration of the store; nothing is modified |
| `Broadcast.Node.Tick` | broadcast/main.go:62-72 | one message per neighbour and to no one else (the destinations enumerate the neighbour set); every message carries the same enumeration of the store as `messages`, `type = propagate` and `src` = own id; neither store changes |
| `Properties.TopologyAddsListed` | broadcast/main.go:81-86 | a list of ids under the own id adds exactly those ids and is acknowledged |
| `Properties.TopologyIgnoresOtherNodes` | broadcast/main.go:82 | two topologies with the same own entry have the same effect: the entries of other nodes are ignored |
| `Properties.TopologyScopingExample` | broadcast/main.go:81-84 | the topology in which n1 lists n2 and n3 and n2 lists n1 gives n1 the neighbours {n2, n3} and n2 the neighbours {n1}; on n3, which has no entry, it fails and adds nothing |
| `Properties.BroadcastsAccumulate` | broadcast/main.go:95-96 | broadcasting a sequence of values, one request after the other, leaves the store as the old store plus exactly those values, each once |
| `Properties.BroadcastIdempotent` | broadcast/main.go:95-98 | delivering any broadcast request, whatever its other fields, a second time leaves the store and the reply as after the first |
| `Properties.BroadcastOrderIrrelevant` | broadcast/main.go:95-96 | broadcasts of the same values in any order, with any repetitions, give the same store |
| `Properties.PropagateAddsAll` | broadcast/main.go:107-112 | a batch of values adds exactly those values and gets no reply |
| `Properties.PropagateOrderIrrelevant` | broadcast/main.go:107-110 | two batches with the same values, in any order and with any repetitions, have the same effect |
| `Properties.PropagateIdempotent` | broadcast/main.go:107-112 | delivering the same propagate request twice has the effect of delivering it once, also for a malformed batch |
| `Properties.GossipDelivered` | broadcast/main.go:63-70 | running `propagate` on a gossip message carrying an enumeration of the sender's store adds all of the sender's values to the receiver, with no reply |
| `Properties.ValueHandlersCommute` | broadcast/main.go:95-110 | a client broadcast and a peer batch give the same store in either order |
| `Scenario.PairConverges` | broadcast/main.go:60-124 | two nodes with the pair topology: after 42 is broadcast to n1 and n1 gossips once, a read on n2 returns `[42]`; after 42 is broadcast again to n2 and n2 gossips, a read on n1 still returns `[42]`, with no duplicate |

## Left out

- The Maelstrom transport is not modelled: `NewNode`, `Handle`, `Send`, `Reply`, `Run` and the
  node-id accessor. It is a foreign library. Outbound messages and replies are returned as values
  (`Outbound`, `Outcome`). The node id is a constant fixed when the node is constructed.
- `json.Unmarshal` is not modelled. Its result is the input datatype `Incoming`, and a decode
  error is its `Undecodable` case, which every handler answers with `Malformed` and no change.
- `float64` semantics of values are not modelled, for instance NaN as a map key. Values are an
  opaque type with equality.
- The mutexes and the gossip goroutine are not modelled. Each locked call is one atomic
  sequential method, and the gossip loop is repeated calls of `Tick`.
- The 200 ms ticker period and the timing of ticks are not modelled. There is no clock.
- Convergence over an arbitrary connected topology within a number of ticks bounded by the
  diameter is not proved. There is no model of a network of many nodes. The single-hop fact it
  rests on is `GossipDelivered`, and a two-node instance is `PairConverges`.
- `log.Fatal` and the process lifetime are not modelled. A Go panic in a handler ends the
  process and loses both stores; the model reports `Malformed` and keeps running, so
  `PropagateIdempotent` on a malformed batch and the failing n3 case of `TopologyScopingExample`
  describe the model, not a surviving Go process.
- The boolean flags of the two Go maps are not modelled. They are always `true`, and nothing
  reads them. Handler contracts speak of the key sets (`Contents()`).
