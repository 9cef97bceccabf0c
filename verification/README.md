# go-stomp-ws broker core, modelled in Dafny

go-stomp-ws is a STOMP broker that speaks over WebSocket. It runs the go-stomp
server's protocol session against a `net.Conn` adapter called `CustomConn`,
which moves whole WebSocket messages through two bounded channels of byte
chunks. A small loop, `processClientRequests`, then applies the session's
Subscribe / Unsubscribe / Enqueue requests to a shared topic manager. This
project models those two pieces and proves properties of them.

- `outcomes.dfy` (`Outcomes`): `Option` and `Outcome`. A call either returns
  (`Ok`), blocks forever in a sequential run (`Blocks`), or panics with the Go
  runtime's message (`Panics`). The Go runtime messages are included as
  constants.
- `channels.dfy` (`Channels`): a buffered `chan []byte`. The subset type
  `Chan` keeps the number of queued chunks within the capacity. This file
  also gives the semantics of send, receive and `close`, and `Flatten`, the
  byte stream a queue of chunks spells.
- `custom_conn.dfy` (`CustomConns`): `NewCustomConn`, `Read`, `Write` and
  `Close`, plus one step of each WebSocket pump (`Deliver`, `TakeOutbound`).
  It also holds `ReadInOrder`, the corrected read described under Findings.
- `conn_lemmas.dfy` (`ConnLemmas`): byte conservation, the edge cases of
  `Read`, the reordering counterexample, round trips through the pumps, and
  single-shot `Close`.
- `dispatch.dfy` (`Dispatcher`): frames, subscriptions, requests, the
  registry, `Find`, one dispatch step and the `processClientRequests` loop.
  The loop is specified topic by topic against an independent routing rule
  (`Route`, `ActionsFor`).
- `dispatch_lemmas.dfy` (`DispatchLemmas`): compositionality and order,
  commutation across topics, and dropped requests.

`main.go` repeats the server half of `cmd/server.go`. The code of the
modelled parts is identical, three lines earlier:

| cmd/server.go | main.go |
|---|---|
| 36-41 | 33-38 |
| 43-50 | 40-47 |
| 52-57 | 49-54 |
| 59-63 | 56-60 |
| 109 | 106 |
| 115-118 | 112-115 |
| 123-140 | 120-137 |

Each member below therefore models both copies. The table cites one of them.

Three behaviours of the code are worth stating plainly:

- A `net.Conn` reader expects the next `Read` to continue a partly read
  chunk. The code instead sends the rest of the chunk to the tail of the
  inbound channel (see Findings).
- `Write` on a closed `CustomConn` panics with "send on closed channel"
  instead of returning an error.
- On a closed, drained inbound channel, `Read` returns `(0, nil)` at once.

Blocking and panics are outcomes rather than preconditions. So a second
`Close`, a `Write` after `Close`, or a full outbound channel are all modelled
cases: `Close`, `Write` and `Read` state exactly when each of them happens.

## Model

| member | source | states |
|---|---|---|
| Channels.Send | cmd/server.go:47 | a send panics exactly on a closed channel, blocks exactly on a full open one, and otherwise appends the chunk at the tail |
| Channels.Recv | cmd/server.go:44 | a receive never panics. It yields the head while one is queued, even after close. It yields an empty chunk with ok false on a closed drained channel, and blocks exactly on an open empty one |
| Channels.CloseChan | cmd/server.go:60-61 | closing panics exactly when the channel is already closed; otherwise only the closed flag changes |
| Channels.Make | cmd/server.go:38-39 | make(chan []byte, cap) gives an open, empty channel of that capacity |
| CustomConns.NewCustomConn | cmd/server.go:36-41 | a new connection has open, empty inbound and outbound queues, each of capacity 4096 |
| CustomConns.Copy | cmd/server.go:45 | copy writes min(len(b), len(data)) bytes: the buffer keeps its length, its prefix is the data's prefix, and the rest of the buffer is untouched |
| CustomConns.Read | cmd/server.go:43-50 | Read blocks exactly on an open empty inbound queue and returns 0 with nothing changed on a closed drained one. Otherwise it removes the head chunk, returns n = min(len(b), len(chunk)) with b[..n] equal to the chunk's prefix, re-queues the unread suffix at the tail (panicking if the queue is closed), drops a fully read chunk, and leaves the outbound queue alone |
| CustomConns.ReadInOrder | cmd/server.go:46-48 | corrected read: same blocking, count and buffer as Read (n = min(len(b), len(head)), b[..n] is the head's prefix, the rest of b untouched). It never panics, and the inbound queue afterwards is the unread suffix, if any, followed by the chunks that were behind the head |
| CustomConns.Write | cmd/server.go:52-57 | Write panics exactly when the outbound queue is closed and blocks exactly when it is full. Otherwise it appends one chunk equal to b, reports len(b) and leaves the inbound queue unchanged |
| CustomConns.Close | cmd/server.go:59-63 | Close succeeds exactly when neither queue is closed and then marks both closed without changing their contents; otherwise it panics with the close-of-closed-channel message |
| CustomConns.Deliver | cmd/server.go:109 | one inbound pump step panics exactly when the inbound queue is closed and blocks exactly when it is open and holds its capacity of chunks. Otherwise it appends the WebSocket message at the tail and leaves the outbound queue alone |
| CustomConns.TakeOutbound | cmd/server.go:115-118 | one outbound pump step never panics and blocks exactly on an open empty outbound queue. When a chunk is waiting it yields the head with ok true and removes it, changing nothing else. On a closed drained queue it yields an empty chunk with ok false and changes nothing |
| ConnLemmas.ReadConservesBytes | main.go:40-47 | bytes returned by Read plus bytes left queued equal the bytes queued before, both as a multiset and as a count, and the outbound queue is unchanged |
| ConnLemmas.ReadZeroBufferRotates | main.go:43-45 | a zero-length buffer moves a non-empty head chunk, whole, to the back of an open inbound queue and returns 0 |
| ConnLemmas.ReadDropsEmptyChunk | cmd/server.go:46-48 | an empty head chunk is consumed: n is 0, the buffer is unchanged and nothing is re-queued |
| ConnLemmas.ReadKeepsOrderWhenAlone | cmd/server.go:43-49 | when the chunk is read whole, or is the only chunk waiting, the returned bytes followed by the queued bytes are the stream before the call |
| ConnLemmas.ReadInOrderAgreesWhenAlone | cmd/server.go:46-48 | when at most one chunk is waiting or the head chunk fits the buffer, the as-written Read and the corrected ReadInOrder give the same result |
| ConnLemmas.ReadReordersStream | cmd/server.go:47 | with chunks [1,2,3] and [4,5] queued, a one-byte Read leaves [4,5] ahead of [2,3], so the consumer's stream becomes 1,4,5,2,3 instead of 1,2,3,4,5 |
| ConnLemmas.ReadInOrderPreservesStream | cmd/server.go:43-50 | with the suffix kept at the front, the returned bytes followed by the queued bytes always equal the stream before the call |
| ConnLemmas.WriteThenTakeOutbound | main.go:49-54 | after a Write with room, the outbound pump receives the oldest waiting chunk. If none was waiting it receives exactly b, and the connection is back to its state before the Write |
| ConnLemmas.DeliverThenRead | main.go:106 | a message delivered to an empty open inbound queue is returned whole by a Read with a large enough buffer, and the connection returns to its prior state |
| ConnLemmas.WritesQueueInOrder | main.go:49-54 | successive writes that fit all succeed and queue their chunks in call order, with the inbound queue unchanged |
| ConnLemmas.CloseIsSingleShot | main.go:56-60 | after Close, a second Close panics and a Write panics. A Read on a drained inbound queue then returns 0 at once |
| Dispatcher.Contains | cmd/server.go:133 | header lookup: no value exactly when no entry has that name, otherwise the value of the first entry with that name |
| Dispatcher.Find | cmd/server.go:127 | Find returns the destination's topic, registering an empty one only if the name was absent; every other topic is unchanged |
| Dispatcher.ApplyTo | cmd/server.go:127-128 | Find followed by one topic operation appends that action to the named topic, creating it if absent, and leaves every other topic unchanged |
| Dispatcher.Dispatch | cmd/server.go:125-138 | a Subscribe or Unsubscribe appends that action to the subscription's destination, creating the topic if absent. An Enqueue with a destination header appends to exactly that topic; without one it changes nothing. No other topic changes |
| Dispatcher.DispatchFollowsRoute | main.go:122-135 | a dispatch step performs exactly what the routing rule says: nothing for a dropped request, otherwise one append to the routed topic |
| Dispatcher.DispatchTracks | main.go:121-136 | one more dispatched request extends each topic's log by exactly the action routed to it, and the known destinations by its destination |
| Dispatcher.ProcessClientRequests | cmd/server.go:123-140 | after the loop the registry holds the prior destinations plus those the requests reach. Each topic's log is its prior log followed by the actions routed to it, in request order |
| DispatchLemmas.ActionsForAppend | main.go:121 | what a queue does to a topic is what its first part does followed by what its second part does, so earlier requests' actions precede later ones |
| DispatchLemmas.DispatchCommutes | cmd/server.go:126-137 | two requests routed to different topics, or dropped, give the same registry in either order |
| DispatchLemmas.DroppedRequestsChangeNothing | main.go:129-134 | a queue of requests that all lack a destination contributes no action to any topic and reaches no destination |
| DispatchLemmas.FirstHeaderWins | cmd/server.go:133 | with a duplicated destination header, the first value is used |

## Findings

| source | as written | input that shows it | evidently intended | confidence | as-written member | corrected member |
|---|---|---|---|---|---|---|
| cmd/server.go:46-48 (main.go:43-45) | the unread suffix of a chunk is sent back into the inbound channel, which puts it at the tail, behind chunks already waiting | chunks [1,2,3] and [4,5] queued, Read with a 1-byte buffer: the stream continues 4,5,2,3 | the next Read continues the same chunk, so that the protocol session sees the bytes in arrival order | medium, not executed (it needs a second message to arrive before a large frame is fully read) | ConnLemmas.ReadReordersStream | ConnLemmas.ReadInOrderPreservesStream |

`CustomConns.Read` is the code as written, and it is what the pump round-trip
lemmas use. `CustomConns.ReadInOrder` is the corrected definition, and
`ConnLemmas.ReadInOrderPreservesStream` proves it keeps stream order.
`ConnLemmas.ReadInOrderAgreesWhenAlone` proves the two give the same result
when at most one chunk is waiting or the chunk fits the buffer.

## Left out

- Concurrency: the pumps, the protocol session and the dispatcher run as
  separate goroutines. The model is sequential. A channel operation that
  would wait for another goroutine is the outcome `Blocks`. Interleavings,
  such as a pump sending into the inbound channel after `Close`, are not
  explored.
- `readFromWebSocket` and `writeToWebSocket` loops, `handleWebSocket` and the
  HTTP upgrade: only one channel step of each pump is modelled (`Deliver`,
  `TakeOutbound`). The loops themselves are WebSocket I/O.
- Topic internals from the go-stomp library (subscriber sets, MESSAGE
  fan-out, which subscriptions remain after a sequence of subscribes and
  unsubscribes): not shown in the source. Each topic is the ordered log of
  actions applied to it.
- The go-stomp protocol session (`client.NewConn`: CONNECT handling,
  heartbeats, frame codec) is library code. Nothing in the code shown closes
  the request channel `ch` (made at cmd/server.go:158, handed to the library
  at cmd/server.go:160, ranged over at cmd/server.go:164). The model takes the
  requests dispatched so far as a finite sequence.
- The `switch` at cmd/server.go:125-138 has no `default`, so a request with
  any other op code is skipped. The model's `Request` has only the three
  handled ops, so that case does not arise.
- The request channel's capacity of 128 (cmd/server.go:158) only affects
  blocking between goroutines.
- `LocalAddr`, `RemoteAddr` and the `Set*Deadline` stubs, and `CConfig`
  (`Authenticate` always true, a 5-second heartbeat, no logger): constants
  with network and time types.
- Cobra and flag setup and `http.ListenAndServe`: process bootstrap.
- cmd/client.go, wsstomp.py and wsstomp.js: demo clients that only do I/O.
- The error result of `Read`, `Write` and `Close` is always nil, so it is
  not represented.
- The defensive copy in `Write` is implicit: Dafny sequences are values, so
  the queued chunk cannot alias the caller's buffer.
- go-stomp's `Header.Contains` is not shown. `Dispatcher.Contains` models it
  as a first-occurrence lookup, following the frame format's rule
  that the first of duplicate headers wins.
