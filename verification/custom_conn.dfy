/** `CustomConn`: a `net.Conn` whose byte stream is carried by two bounded
    channels of chunks, `readBuffer` (filled by the inbound WebSocket pump,
    drained by `Read`) and `writeBuffer` (filled by `Write`, drained by the
    outbound pump). */
module CustomConns {
  import opened Outcomes
  import opened Channels

  /** Capacity of both channels, in chunks. */
  const BufferCapacity: nat := 4096

  datatype Conn = Conn(readQ: Chan, writeQ: Chan)

  /** `NewCustomConn`: two open, empty channels of capacity 4096. */
  function NewCustomConn(): (c: Conn)
    ensures c.readQ.items == [] && c.writeQ.items == []
    ensures c.readQ.cap == BufferCapacity && c.writeQ.cap == BufferCapacity
    ensures !c.readQ.closed && !c.writeQ.closed
  {
    Conn(Make(BufferCapacity), Make(BufferCapacity))
  }

  /** The smaller of two counts. */
  function Min(a: nat, b: nat): (m: nat)
    ensures m <= a && m <= b
    ensures m == a || m == b
  {
    if a <= b then a else b
  }

  /** Go's `copy(b, data)`: overwrites the first `min(len(b), len(data))`
      bytes of `b` with the front of `data` and reports how many it wrote. */
  function Copy(b: seq<byte>, data: Chunk): (r: (seq<byte>, nat))
    ensures r.1 == Min(|b|, |data|)
    ensures |r.0| == |b|
    ensures r.0[..r.1] == data[..r.1] && r.0[r.1..] == b[r.1..]
  {
    var n := Min(|b|, |data|);
    (data[..n] + b[n..], n)
  }

  /** What a successful `Read(b)` produces: the connection afterwards, the
      caller's buffer afterwards and the byte count `n` (the error is always
      nil). */
  datatype ReadResult = ReadResult(conn: Conn, buf: seq<byte>, n: nat)

  /** `(*CustomConn).Read`: receives the head chunk, copies what fits into
      `b`, and sends any unread suffix back into the same channel, which puts
      it at the tail, behind every chunk already waiting. */
  function Read(c: Conn, b: seq<byte>): (r: Outcome<ReadResult>)
    ensures r.Blocks? <==> c.readQ.items == [] && !c.readQ.closed
    ensures c.readQ.items == [] && c.readQ.closed ==>
      r == Ok(ReadResult(c, b, 0))
    ensures c.readQ.items != [] ==>
      var d := c.readQ.items[0];
      var n := Min(|b|, |d|);
      && (r.Panics? <==> c.readQ.closed && n < |d|)
      && (r.Panics? ==> r == Panics(SendOnClosed))
      && (r.Ok? ==>
            && r.value.n == n
            && |r.value.buf| == |b|
            && r.value.buf[..n] == d[..n]
            && r.value.buf[n..] == b[n..]
            && r.value.conn.writeQ == c.writeQ
            && r.value.conn.readQ.cap == c.readQ.cap
            && r.value.conn.readQ.closed == c.readQ.closed
            && r.value.conn.readQ.items
               == c.readQ.items[1..] + (if n < |d| then [d[n..]] else []))
  {
    match Recv(c.readQ)
    case Ok(rcv) =>
      var (buf, n) := Copy(b, rcv.data);
      if n < |rcv.data| then
        match Send(rcv.rest, rcv.data[n..])
        case Ok(q) => Ok(ReadResult(c.(readQ := q), buf, n))
        case Blocks => Blocks
        case Panics(msg) => Panics(msg)
      else
        Ok(ReadResult(c.(readQ := rcv.rest), buf, n))
    case Blocks => Blocks
    case Panics(msg) => Panics(msg)
  }

  /** Read with the unread suffix kept at the FRONT of the inbound queue, so
      that the next `Read` continues the same chunk: the behaviour a stream
      adapter needs. A channel cannot push at its head; an implementation
      would hold the suffix in a pending slice consulted before the channel. */
  function ReadInOrder(c: Conn, b: seq<byte>): (r: Outcome<ReadResult>)
    ensures r.Blocks? <==> c.readQ.items == [] && !c.readQ.closed
    ensures !r.Panics?
    ensures r.Ok? ==>
      && r.value.n == (if c.readQ.items == [] then 0 else Min(|b|, |c.readQ.items[0]|))
      && |r.value.buf| == |b|
      && r.value.buf[r.value.n..] == b[r.value.n..]
      && r.value.conn.writeQ == c.writeQ
    ensures r.Ok? && c.readQ.items == [] ==> r.value == ReadResult(c, b, 0)
    ensures r.Ok? && c.readQ.items != [] ==>
      var d := c.readQ.items[0];
      && r.value.buf[..r.value.n] == d[..r.value.n]
      && r.value.conn.readQ == c.readQ.(items := (if r.value.n < |d| then [d[r.value.n..]] else [])
                                                 + c.readQ.items[1..])
  {
    if c.readQ.items == [] then
      if c.readQ.closed then Ok(ReadResult(c, b, 0)) else Blocks
    else
      var d := c.readQ.items[0];
      var (buf, n) := Copy(b, d);
      var rest := c.readQ.items[1..];
      var q: Chan := c.readQ.(items := if n < |d| then [d[n..]] + rest else rest);
      Ok(ReadResult(c.(readQ := q), buf, n))
  }

  /** What a successful `Write(b)` produces: the connection afterwards and the
      byte count (the error is always nil). */
  datatype WriteResult = WriteResult(conn: Conn, n: nat)

  /** `(*CustomConn).Write`: sends an owned copy of `b` as one chunk into the
      outbound channel and reports `len(b)`. */
  function Write(c: Conn, b: seq<byte>): (r: Outcome<WriteResult>)
    ensures c.writeQ.closed <==> r == Panics(SendOnClosed)
    ensures r.Panics? ==> c.writeQ.closed
    ensures r.Blocks? <==> !c.writeQ.closed && |c.writeQ.items| == c.writeQ.cap
    ensures r.Ok? ==>
      && r.value.n == |b|
      && r.value.conn.readQ == c.readQ
      && r.value.conn.writeQ.items == c.writeQ.items + [b]
      && r.value.conn.writeQ.cap == c.writeQ.cap
      && !r.value.conn.writeQ.closed
  {
    var data := b;
    match Send(c.writeQ, data)
    case Ok(q) => Ok(WriteResult(c.(writeQ := q), |b|))
    case Blocks => Blocks
    case Panics(msg) => Panics(msg)
  }

  /** `(*CustomConn).Close`: closes the inbound channel, then the outbound
      one; closing either a second time panics. */
  function Close(c: Conn): (r: Outcome<Conn>)
    ensures r.Ok? <==> !c.readQ.closed && !c.writeQ.closed
    ensures !r.Ok? ==> r == Panics(CloseOfClosed)
    ensures r.Ok? ==>
      && r.value.readQ == c.readQ.(closed := true)
      && r.value.writeQ == c.writeQ.(closed := true)
  {
    match CloseChan(c.readQ)
    case Ok(rq) =>
      (match CloseChan(c.writeQ)
       case Ok(wq) => Ok(Conn(rq, wq))
       case Blocks => Blocks
       case Panics(msg) => Panics(msg))
    case Blocks => Blocks
    case Panics(msg) => Panics(msg)
  }

  /** One step of the inbound pump: `localConn.readBuffer <- message`. */
  function Deliver(c: Conn, message: Chunk): (r: Outcome<Conn>)
    ensures c.readQ.closed <==> r == Panics(SendOnClosed)
    ensures r.Panics? ==> c.readQ.closed
    ensures r.Blocks? <==> !c.readQ.closed && |c.readQ.items| == c.readQ.cap
    ensures r.Ok? ==>
      && r.value.writeQ == c.writeQ
      && r.value.readQ == c.readQ.(items := c.readQ.items + [message])
  {
    match Send(c.readQ, message)
    case Ok(q) => Ok(c.(readQ := q))
    case Blocks => Blocks
    case Panics(msg) => Panics(msg)
  }

  /** One step of the outbound pump: `answer, ok := <-localConn.writeBuffer`;
      the pump stops when `ok` is false. */
  function TakeOutbound(c: Conn): (r: Outcome<(Chunk, bool, Conn)>)
    ensures !r.Panics?
    ensures r.Blocks? <==> c.writeQ.items == [] && !c.writeQ.closed
    ensures r.Ok? ==> (r.value.1 <==> c.writeQ.items != [])
    ensures r.Ok? && c.writeQ.items != [] ==>
      && r.value.0 == c.writeQ.items[0]
      && r.value.2 == c.(writeQ := c.writeQ.(items := c.writeQ.items[1..]))
    ensures r.Ok? && c.writeQ.items == [] ==> r.value.0 == [] && r.value.2 == c
  {
    match Recv(c.writeQ)
    case Ok(rcv) => Ok((rcv.data, rcv.ok, c.(writeQ := rcv.rest)))
    case Blocks => Blocks
    case Panics(msg) => Panics(msg)
  }
}
