/** Properties of the `CustomConn` model: what `Read` conserves and what it
    reorders, and how `Write` and the pumps' single steps fit together. */
module ConnLemmas {
  import opened Outcomes
  import opened Channels
  import opened CustomConns

  /** Bytes returned by `Read` plus the bytes still queued are exactly the
      bytes queued before the call (as a multiset and as a count), and the
      outbound channel is untouched. */
  lemma ReadConservesBytes(c: Conn, b: seq<byte>)
    requires Read(c, b).Ok?
    ensures var r := Read(c, b).value;
      && r.conn.writeQ == c.writeQ
      && multiset(r.buf[..r.n]) + multiset(Flatten(r.conn.readQ.items))
         == multiset(Flatten(c.readQ.items))
      && r.n + TotalBytes(r.conn.readQ.items) == TotalBytes(c.readQ.items)
  {
    var r := Read(c, b).value;
    if c.readQ.items != [] {
      var d := c.readQ.items[0];
      var tail := c.readQ.items[1..];
      var n := r.n;
      assert Flatten(c.readQ.items) == d + Flatten(tail);
      assert d == d[..n] + d[n..];
      if n < |d| {
        FlattenAppend(tail, [d[n..]]);
        assert Flatten([d[n..]]) == d[n..];
        assert Flatten(r.conn.readQ.items) == Flatten(tail) + d[n..];
      } else {
        assert r.conn.readQ.items == tail;
      }
    }
  }

  /** A zero-length buffer moves a non-empty head chunk, whole, to the back
      of an open inbound queue and returns 0. */
  lemma ReadZeroBufferRotates(c: Conn, b: seq<byte>)
    requires |b| == 0
    requires c.readQ.items != [] && c.readQ.items[0] != []
    requires !c.readQ.closed
    ensures Read(c, b).Ok?
    ensures Read(c, b).value.n == 0
    ensures Read(c, b).value.conn.readQ.items == c.readQ.items[1..] + [c.readQ.items[0]]
  {
  }

  /** An empty head chunk is consumed without a trace: nothing is copied and
      nothing is sent back. */
  lemma ReadDropsEmptyChunk(c: Conn, b: seq<byte>)
    requires c.readQ.items != [] && c.readQ.items[0] == []
    ensures Read(c, b).Ok?
    ensures Read(c, b).value.n == 0
    ensures Read(c, b).value.buf == b
    ensures Read(c, b).value.conn.readQ.items == c.readQ.items[1..]
  {
  }

  /** When the head chunk is read whole, or is the only chunk waiting, the
      tail re-send does no harm: the bytes come out in stream order. */
  lemma ReadKeepsOrderWhenAlone(c: Conn, b: seq<byte>)
    requires Read(c, b).Ok?
    requires |c.readQ.items| <= 1 || |b| >= |c.readQ.items[0]|
    ensures var r := Read(c, b).value;
      r.buf[..r.n] + Flatten(r.conn.readQ.items) == Flatten(c.readQ.items)
  {
  }

  /** Under the same conditions the as-written read and the corrected one
      produce the same result. */
  lemma ReadInOrderAgreesWhenAlone(c: Conn, b: seq<byte>)
    requires Read(c, b).Ok?
    requires |c.readQ.items| <= 1 || |b| >= |c.readQ.items[0]|
    ensures ReadInOrder(c, b) == Read(c, b)
  {
    if c.readQ.items != [] {
      var d := c.readQ.items[0];
      var n := Min(|b|, |d|);
      if n < |d| {
        assert c.readQ.items[1..] == [];
        assert [d[n..]] + c.readQ.items[1..] == c.readQ.items[1..] + [d[n..]];
      }
    }
  }

  /** The stream is reordered once a second chunk is waiting: with chunks
      [1,2,3] and [4,5] queued, a one-byte `Read` returns 1 and leaves
      [4,5] ahead of [2,3], so the consumer sees 1,4,5,2,3. */
  lemma ReadReordersStream()
    ensures var c := Conn(ChanState([[1, 2, 3], [4, 5]], BufferCapacity, false),
                          Make(BufferCapacity));
      var r := Read(c, [0]);
      && r.Ok?
      && r.value.conn.readQ.items == [[4, 5], [2, 3]]
      && r.value.buf[..r.value.n] + Flatten(r.value.conn.readQ.items) == [1, 4, 5, 2, 3]
      && Flatten(c.readQ.items) == [1, 2, 3, 4, 5]
  {
    var c := Conn(ChanState([[1, 2, 3], [4, 5]], BufferCapacity, false), Make(BufferCapacity));
    var d: Chunk := [1, 2, 3];
    assert c.readQ.items[0] == d;
    assert d[1..] == [2, 3];
    var r := Read(c, [0]).value;
    assert r.conn.readQ.items == [[4, 5], [2, 3]];
    assert Flatten([[2, 3]]) == [2, 3];
    assert Flatten(r.conn.readQ.items) == [4, 5, 2, 3];
    assert Flatten([[4, 5]]) == [4, 5];
    assert Flatten(c.readQ.items) == [1, 2, 3, 4, 5];
  }

  /** The corrected read keeps the consumer's view of the inbound stream
      intact: returned bytes followed by the queued bytes are the queued bytes
      before the call, whatever else is waiting. */
  lemma ReadInOrderPreservesStream(c: Conn, b: seq<byte>)
    requires ReadInOrder(c, b).Ok?
    ensures var r := ReadInOrder(c, b).value;
      && r.buf[..r.n] + Flatten(r.conn.readQ.items) == Flatten(c.readQ.items)
      && r.conn.readQ.closed == c.readQ.closed
      && r.conn.readQ.cap == c.readQ.cap
  {
  }

  /** `Write` followed by one step of the outbound pump: the pump receives
      the oldest waiting chunk, which is `b` itself when nothing was
      waiting. */
  lemma WriteThenTakeOutbound(c: Conn, b: seq<byte>)
    requires !c.writeQ.closed && |c.writeQ.items| < c.writeQ.cap
    ensures Write(c, b).Ok?
    ensures var w := Write(c, b).value.conn;
      var t := TakeOutbound(w);
      && t.Ok?
      && t.value.1
      && t.value.0 == (if c.writeQ.items == [] then b else c.writeQ.items[0])
      && t.value.2.writeQ.items == (c.writeQ.items + [b])[1..]
      && (c.writeQ.items == [] ==> t.value.2 == c)
  {
  }

  /** One step of the inbound pump followed by a `Read` into a buffer large
      enough: the caller gets the delivered message and the queue is empty
      again. */
  lemma DeliverThenRead(c: Conn, message: Chunk, b: seq<byte>)
    requires c.readQ.items == [] && !c.readQ.closed && c.readQ.cap > 0
    requires |b| >= |message|
    ensures Deliver(c, message).Ok?
    ensures var r := Read(Deliver(c, message).value, b);
      && r.Ok?
      && r.value.n == |message|
      && r.value.buf[..|message|] == message
      && r.value.conn == c
  {
  }

  /** The protocol session's successive writes, in order. */
  function WriteAll(c: Conn, bs: seq<Chunk>): Outcome<Conn>
    decreases |bs|
  {
    if bs == [] then Ok(c)
    else
      match Write(c, bs[0])
      case Ok(w) => WriteAll(w.conn, bs[1..])
      case Blocks => Blocks
      case Panics(msg) => Panics(msg)
  }

  /** Successive writes that fit in the outbound channel all succeed and
      queue their chunks in call order, leaving the inbound side alone. */
  lemma {:induction false} WritesQueueInOrder(c: Conn, bs: seq<Chunk>)
    requires !c.writeQ.closed
    requires |c.writeQ.items| + |bs| <= c.writeQ.cap
    ensures WriteAll(c, bs).Ok?
    ensures WriteAll(c, bs).value.writeQ.items == c.writeQ.items + bs
    ensures WriteAll(c, bs).value.readQ == c.readQ
    decreases |bs|
  {
    if bs != [] {
      var w := Write(c, bs[0]).value.conn;
      WritesQueueInOrder(w, bs[1..]);
      assert c.writeQ.items + [bs[0]] + bs[1..] == c.writeQ.items + bs;
    }
  }

  /** `Close` is single-shot: after it, a second `Close` panics, a `Write`
      panics, and a `Read` on the drained inbound queue returns 0 at once. */
  lemma CloseIsSingleShot(c: Conn, b: seq<byte>)
    requires Close(c).Ok?
    ensures Close(Close(c).value) == Panics(CloseOfClosed)
    ensures Write(Close(c).value, b) == Panics(SendOnClosed)
    ensures c.readQ.items == [] ==> Read(Close(c).value, b) == Ok(ReadResult(Close(c).value, b, 0))
  {
  }
}
