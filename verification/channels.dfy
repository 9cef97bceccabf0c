/** A buffered Go channel of byte slices (`chan []byte` made with a
    capacity), seen sequentially: a FIFO queue of chunks, a capacity and a
    closed flag. */
module Channels {
  import opened Outcomes

  newtype byte = x: int | 0 <= x < 256

  /** One `[]byte` value travelling through a channel. */
  type Chunk = seq<byte>

  datatype ChanState = ChanState(items: seq<Chunk>, cap: nat, closed: bool)

  /** A channel never holds more elements than its capacity. */
  type Chan = ch: ChanState | |ch.items| <= ch.cap witness ChanState([], 0, false)

  /** `make(chan []byte, cap)`: an open, empty channel. */
  function Make(cap: nat): (ch: Chan)
    ensures ch.items == [] && ch.cap == cap && !ch.closed
  {
    ChanState([], cap, false)
  }

  /** `ch <- x`: panics on a closed channel, blocks on a full one, and
      otherwise puts `x` at the tail. */
  function Send(ch: Chan, x: Chunk): (r: Outcome<Chan>)
    ensures ch.closed <==> r == Panics(SendOnClosed)
    ensures r.Panics? ==> ch.closed
    ensures r.Blocks? <==> !ch.closed && |ch.items| == ch.cap
    ensures r.Ok? ==> r.value == ch.(items := ch.items + [x])
  {
    if ch.closed then Panics(SendOnClosed)
    else if |ch.items| == ch.cap then Blocks
    else Ok(ch.(items := ch.items + [x]))
  }

  /** What `data, ok := <-ch` yields, with the channel after the receive. */
  datatype Received = Received(data: Chunk, ok: bool, rest: Chan)

  /** `<-ch`: takes the head while there is one (even after `close`), yields
      the zero value (a nil slice, empty here) with `ok == false` once the
      channel is closed and drained, and blocks on an open empty channel. */
  function Recv(ch: Chan): (r: Outcome<Received>)
    ensures !r.Panics?
    ensures r.Blocks? <==> ch.items == [] && !ch.closed
    ensures r.Ok? && ch.items != [] ==>
      r.value == Received(ch.items[0], true, ch.(items := ch.items[1..]))
    ensures r.Ok? && ch.items == [] ==> r.value == Received([], false, ch)
  {
    if ch.items != [] then Ok(Received(ch.items[0], true, ch.(items := ch.items[1..])))
    else if ch.closed then Ok(Received([], false, ch))
    else Blocks
  }

  /** `close(ch)`: panics when the channel is already closed. */
  function CloseChan(ch: Chan): (r: Outcome<Chan>)
    ensures ch.closed <==> r == Panics(CloseOfClosed)
    ensures !ch.closed ==> r.Ok?
    ensures r.Ok? ==> r.value == ch.(closed := true)
  {
    if ch.closed then Panics(CloseOfClosed) else Ok(ch.(closed := true))
  }

  /** The bytes of a queue of chunks read front to back, as one stream. */
  function Flatten(q: seq<Chunk>): seq<byte>
  {
    if q == [] then [] else q[0] + Flatten(q[1..])
  }

  /** The number of bytes waiting in a queue of chunks. */
  function TotalBytes(q: seq<Chunk>): nat
  {
    |Flatten(q)|
  }

  lemma {:induction false} FlattenAppend(a: seq<Chunk>, b: seq<Chunk>)
    ensures Flatten(a + b) == Flatten(a) + Flatten(b)
    decreases |a|
  {
    if a == [] {
      assert a + b == b;
    } else {
      assert (a + b)[1..] == a[1..] + b;
      FlattenAppend(a[1..], b);
    }
  }
}
